/** The zod object validators of moonshot/schemas.ts, over an abstract
    key-to-value object. Every schema is `z.object({...}).strip()`: declared
    fields are checked (required, or `.optional()` = may be absent), and
    undeclared keys are dropped from the validated output. */
module Schemas {
  import opened Wrappers
  import opened Json

  datatype Kind = StringKind | NumberKind | BooleanKind

  /** One declared field: `name: z.<kind>()`, with `.optional()` when not required. */
  datatype Field = Field(name: string, kind: Kind, required: bool)

  type Schema = seq<Field>

  const CreateSchema: Schema := [
    Field("name", StringKind, true),
    Field("symbol", StringKind, true),
    Field("mockImg", StringKind, false),
    Field("description", StringKind, false),
    Field("url", StringKind, false),
    Field("label", StringKind, false),
    Field("tokenAmount", NumberKind, false),
    Field("tweet", StringKind, false),
    Field("retweets", NumberKind, false),
    Field("likes", NumberKind, false),
    Field("link", StringKind, false),
    Field("likelyMeme", BooleanKind, false),
    Field("likelyMemeExplanation", StringKind, false),
    Field("tokenPost", StringKind, false)
  ]

  const EvaluatorSchema: Schema := [
    Field("tweet", StringKind, true),
    Field("retweets", NumberKind, true),
    Field("likes", NumberKind, true),
    Field("link", StringKind, true)
  ]

  const UserSchema: Schema := [Field("userId", NumberKind, true)]

  const TokenSearchTermSchema: Schema := [Field("searchTerm", StringKind, true)]

  // The four schemas below are imported by the tool provider but are not
  // defined in schemas.ts; their fields are the ones the tools read.

  const BuyTokenSchema: Schema := [
    Field("userId", NumberKind, true),
    Field("token", StringKind, true),
    Field("buyAmount", NumberKind, true)
  ]

  const SellTokenSchema: Schema := [
    Field("userId", NumberKind, true),
    Field("token", StringKind, true)
  ]

  const UserSendBalanceSchema: Schema := [
    Field("userId", NumberKind, true),
    Field("balance", NumberKind, true),
    Field("addressTo", StringKind, true)
  ]

  const UserSnipeTokensSchema: Schema := [
    Field("userId", NumberKind, true),
    Field("balance", NumberKind, true)
  ]

  predicate HasKind(v: Json, k: Kind) {
    match k
    case StringKind => v.JString?
    case NumberKind => v.JNumber?
    case BooleanKind => v.JBool?
  }

  /** A field is satisfied when its key holds a value of its kind, or, for an
      optional field, when the key is absent. */
  predicate FieldOk(obj: map<string, Json>, f: Field) {
    if f.name in obj then HasKind(obj[f.name], f.kind) else !f.required
  }

  function Names(s: Schema): (r: set<string>)
    ensures forall i :: 0 <= i < |s| ==> s[i].name in r
    ensures forall n :: n in r ==> exists i :: 0 <= i < |s| && s[i].name == n
  {
    set i | 0 <= i < |s| :: s[i].name
  }

  /** The checks zod runs, one declared field after the other. */
  function CheckFields(obj: map<string, Json>, s: Schema): (ok: bool)
    ensures ok <==> forall i :: 0 <= i < |s| ==> FieldOk(obj, s[i])
  {
    if s == [] then true
    else FieldOk(obj, s[0]) && CheckFields(obj, s[1..])
  }

  /** `.strip()`: the declared keys that are present, with their values. */
  function Strip(obj: map<string, Json>, s: Schema): (r: map<string, Json>)
    ensures r.Keys == obj.Keys * Names(s)
    ensures forall k :: k in r ==> r[k] == obj[k]
  {
    map k | k in obj && k in Names(s) :: obj[k]
  }

  /** `schema.parse(input)`: the stripped object, or `None` when the input is
      not an object or some declared field fails its check. */
  function Validate(s: Schema, input: Json): (r: Option<map<string, Json>>)
    ensures r.Some? <==> input.JObject? && forall i :: 0 <= i < |s| ==> FieldOk(input.fields, s[i])
    ensures r.Some? ==> r.value.Keys == input.fields.Keys * Names(s)
    ensures r.Some? ==> forall k :: k in r.value ==> r.value[k] == input.fields[k]
  {
    if input.JObject? && CheckFields(input.fields, s) then Some(Strip(input.fields, s)) else None
  }

  /** Stripping keeps every field check's verdict: a declared key survives
      with its value, and an absent one stays absent. */
  lemma {:induction false} StripKeepsChecks(obj: map<string, Json>, s: Schema)
    requires forall i :: 0 <= i < |s| ==> FieldOk(obj, s[i])
    ensures forall i :: 0 <= i < |s| ==> FieldOk(Strip(obj, s), s[i])
  {
    var r := Strip(obj, s);
    forall i | 0 <= i < |s|
      ensures FieldOk(r, s[i])
    {
      assert s[i].name in Names(s);
      assert FieldOk(obj, s[i]);
    }
  }

  /** Validating an already validated output succeeds and returns it unchanged. */
  lemma ValidateIdempotent(s: Schema, input: Json)
    requires Validate(s, input).Some?
    ensures Validate(s, JObject(Validate(s, input).value)) == Validate(s, input)
  {
    var out := Validate(s, input).value;
    StripKeepsChecks(input.fields, s);
    assert out.Keys <= Names(s);
    assert Strip(out, s) == out;
  }

  /** `CreateSchema` accepts an object iff `name` and `symbol` are strings and
      every other declared field is either absent or of its declared kind. */
  lemma CreateSchemaAccepts(obj: map<string, Json>)
    ensures Validate(CreateSchema, JObject(obj)).Some? <==>
      && "name" in obj && obj["name"].JString?
      && "symbol" in obj && obj["symbol"].JString?
      && forall i :: 2 <= i < |CreateSchema| ==> (CreateSchema[i].name in obj ==> HasKind(obj[CreateSchema[i].name], CreateSchema[i].kind))
  {
    var v := Validate(CreateSchema, JObject(obj));
    assert CreateSchema[0] == Field("name", StringKind, true);
    assert CreateSchema[1] == Field("symbol", StringKind, true);
    if v.Some? {
      assert FieldOk(obj, CreateSchema[0]) && FieldOk(obj, CreateSchema[1]);
    }
    forall i | 2 <= i < |CreateSchema| ensures !CreateSchema[i].required { }
  }

  /** `EvaluatorSchema` requires a string `tweet`, numbers `retweets` and
      `likes`, and a string `link`; its output holds exactly those four keys. */
  lemma EvaluatorSchemaAccepts(obj: map<string, Json>)
    ensures Validate(EvaluatorSchema, JObject(obj)).Some? <==>
      && "tweet" in obj && obj["tweet"].JString?
      && "retweets" in obj && obj["retweets"].JNumber?
      && "likes" in obj && obj["likes"].JNumber?
      && "link" in obj && obj["link"].JString?
    ensures Validate(EvaluatorSchema, JObject(obj)).Some? ==>
      Validate(EvaluatorSchema, JObject(obj)).value.Keys == {"tweet", "retweets", "likes", "link"}
  {
    var r := Validate(EvaluatorSchema, JObject(obj));
    if r.Some? {
      assert FieldOk(obj, EvaluatorSchema[0]) && FieldOk(obj, EvaluatorSchema[1]);
      assert FieldOk(obj, EvaluatorSchema[2]) && FieldOk(obj, EvaluatorSchema[3]);
      assert Names(EvaluatorSchema) == {"tweet", "retweets", "likes", "link"};
    }
  }

  /** `UserSchema` requires a numeric `userId`; `TokenSearchTermSchema` a
      string `searchTerm`. Nothing else survives either of them. */
  lemma SingleFieldSchemasAccept(obj: map<string, Json>)
    ensures Validate(UserSchema, JObject(obj)).Some? <==> "userId" in obj && obj["userId"].JNumber?
    ensures Validate(UserSchema, JObject(obj)).Some? ==>
      Validate(UserSchema, JObject(obj)).value == map["userId" := obj["userId"]]
    ensures Validate(TokenSearchTermSchema, JObject(obj)).Some? <==> "searchTerm" in obj && obj["searchTerm"].JString?
    ensures Validate(TokenSearchTermSchema, JObject(obj)).Some? ==>
      Validate(TokenSearchTermSchema, JObject(obj)).value == map["searchTerm" := obj["searchTerm"]]
  {
    forall n | n in Names(UserSchema) ensures n == "userId" {
      var i :| 0 <= i < |UserSchema| && UserSchema[i].name == n;
    }
    assert UserSchema[0].name in Names(UserSchema);
    assert Names(UserSchema) == {"userId"};
    forall n | n in Names(TokenSearchTermSchema) ensures n == "searchTerm" {
      var i :| 0 <= i < |TokenSearchTermSchema| && TokenSearchTermSchema[i].name == n;
    }
    assert TokenSearchTermSchema[0].name in Names(TokenSearchTermSchema);
    assert Names(TokenSearchTermSchema) == {"searchTerm"};
  }
}
