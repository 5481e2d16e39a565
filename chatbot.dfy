/** The `/api/interact` handler of chatbot.ts and its start-up check
    `validateEnvironment`. The handler sends an instruction to the agent,
    consumes the agent's stream chunk by chunk, and repeats until a whole
    stream has left a truthy `response`. After the tweet evaluator has run,
    an `end_turn` that judges the tweet a likely meme queues a synthesized
    "create this token" instruction for the next pass. */
module Chatbot {
  import opened Wrappers
  import opened Text
  import opened Json

  const MoonshotCreate := "moonshot_create"
  const TweetEvaluatorTool := "tweet_evaluator"
  /** The name under which the agent reports a call of `tweet_evaluator`. */
  const EvaluatorToolMessage := "CustomActionProvider_tweet_evaluator"

  /** One chunk of the agent's stream: an `agent` message (whether it ends
      the turn, and its content), a `tools` message (the tool's name), or a
      chunk with neither key. */
  datatype Chunk = AgentChunk(endTurn: bool, content: string) | ToolsChunk(name: string) | OtherChunk

  /** The handler's `response`: not yet assigned, a parsed JSON value, or the
      raw content when it did not parse. */
  datatype Response = Unset | Parsed(value: Json) | Raw(text: string)

  predicate ResponseTruthy(r: Response) {
    match r
    case Unset => false
    case Parsed(j) => Truthy(j)
    case Raw(s) => s != ""
  }

  /** `JSON.parse` (failing as `None`) and `JSON.stringify`. */
  datatype Codec = Codec(parse: string -> Option<Json>, stringify: Json -> string)

  /** The four variables the handler updates. */
  datatype LoopState = LoopState(nextStep: string, nextStepInput: string, lastToolUsed: string, response: Response)

  const Initial := LoopState("", "", "", Unset)

  const MintHead := "\n                        Please, create the following token in moonshot:\n                        "
  const MintTail := "\n                        Other values, use the default value.\n                        "

  /** The instruction queued after a meme verdict; the stringified payload
      can be read back out of it. */
  function MintInstruction(payload: string): (r: string)
    ensures |r| == |MintHead| + |payload| + |MintTail|
    ensures r[|MintHead|..|r| - |MintTail|] == payload
  {
    var r := MintHead + payload + MintTail;
    assert r[|MintHead|..|r| - |MintTail|] == payload;
    r
  }

  /** The instruction of a pass: the queued one while `nextStep` is
      "moonshot_create", the request's `message` otherwise. */
  function Instruction(message: Json, s: LoopState): (r: Json)
    ensures s.nextStep == MoonshotCreate ==> r == JString(s.nextStepInput)
    ensures s.nextStep != MoonshotCreate ==> r == message
  {
    if s.nextStep == MoonshotCreate then JString(s.nextStepInput) else message
  }

  /** The effect of one chunk on the four variables. Only an `end_turn`
      touches `response`, and never back to unassigned; a mint is queued
      only by an `end_turn` that follows the evaluator; and only the
      evaluator's own `tools` chunk marks it as the last tool. */
  function Step(codec: Codec, s: LoopState, c: Chunk): (r: LoopState)
    ensures r.response != s.response ==> c.AgentChunk? && c.endTurn && r.response != Unset
    ensures r.nextStep != s.nextStep ==> r.nextStep == "" || r.nextStep == MoonshotCreate
    ensures r.nextStep == MoonshotCreate && s.nextStep != MoonshotCreate ==>
      c.AgentChunk? && c.endTurn && s.lastToolUsed == TweetEvaluatorTool && r.lastToolUsed == ""
    ensures r.lastToolUsed == TweetEvaluatorTool ==>
      c == ToolsChunk(EvaluatorToolMessage) || (s.lastToolUsed == TweetEvaluatorTool && r == s)
  {
    match c
    case OtherChunk => s
    case ToolsChunk(name) =>
      if name == EvaluatorToolMessage then s.(lastToolUsed := TweetEvaluatorTool)
      else s.(nextStep := "", nextStepInput := "", lastToolUsed := "")
    case AgentChunk(endTurn, content) =>
      if !endTurn then s
      else if s.lastToolUsed != TweetEvaluatorTool then
        match codec.parse(content)
        case Some(j) => s.(response := Parsed(j))
        case None => s.(response := Raw(content))
      else
        match codec.parse(content)
        case None => s
        case Some(payload) =>
          match Property(payload, "likelyMeme")
          // `null.likelyMeme` throws inside the empty `catch`
          case TypeError => s
          case Found(JBool(true)) =>
            s.(nextStep := MoonshotCreate, nextStepInput := MintInstruction(codec.stringify(payload)),
               lastToolUsed := "")
          case _ => s.(nextStep := "", nextStepInput := "", response := Parsed(payload), lastToolUsed := "")
  }

  /** The state after a whole stream, chunk by chunk from the left. */
  function Fold(codec: Codec, s: LoopState, chunks: seq<Chunk>): LoopState
    decreases |chunks|
  {
    if chunks == [] then s else Fold(codec, Step(codec, s, chunks[0]), chunks[1..])
  }

  /** The `for await` loop over one stream, updating the variables in place. */
  method RunPass(codec: Codec, s0: LoopState, chunks: seq<Chunk>) returns (s: LoopState)
    ensures s == Fold(codec, s0, chunks)
  {
    var nextStep, nextStepInput, lastToolUsed, response := s0.nextStep, s0.nextStepInput, s0.lastToolUsed, s0.response;
    for i := 0 to |chunks|
      invariant Fold(codec, LoopState(nextStep, nextStepInput, lastToolUsed, response), chunks[i..]) == Fold(codec, s0, chunks)
    {
      assert chunks[i..][1..] == chunks[i + 1..];
      match chunks[i] {
        case OtherChunk =>
        case ToolsChunk(name) =>
          if name == EvaluatorToolMessage {
            lastToolUsed := TweetEvaluatorTool;
          } else {
            nextStep, nextStepInput, lastToolUsed := "", "", "";
          }
        case AgentChunk(endTurn, content) =>
          if endTurn {
            var parsed := codec.parse(content);
            if lastToolUsed != TweetEvaluatorTool {
              response := if parsed.Some? then Parsed(parsed.value) else Raw(content);
            } else if parsed.Some? {
              var likelyMeme := Property(parsed.value, "likelyMeme");
              if likelyMeme == Found(JBool(true)) {
                nextStep := MoonshotCreate;
                nextStepInput := MintInstruction(codec.stringify(parsed.value));
                lastToolUsed := "";
              } else if likelyMeme != TypeError {
                nextStep, nextStepInput := "", "";
                response := Parsed(parsed.value);
                lastToolUsed := "";
              }
            }
          }
      }
    }
    assert chunks[|chunks|..] == [];
    s := LoopState(nextStep, nextStepInput, lastToolUsed, response);
  }

  /** How a request ends: 400 for a falsy `message`, 500 when the agent's
      stream fails, or the response together with the instruction of every
      pass; `OutOfFuel` when the passes allowed by the model ran out. */
  datatype Outcome = BadRequest | InternalError | Responded(response: Response, sent: seq<Json>) | OutOfFuel

  /** The outer `while (true)` from state `s`, having already sent `sent`.
      The agent answers the instructions sent so far (it keeps the
      conversation) with a stream, or fails. */
  function Passes(message: Json, agent: seq<Json> -> Option<seq<Chunk>>, codec: Codec,
                  s: LoopState, sent: seq<Json>, fuel: nat): (r: Outcome)
    ensures r != BadRequest
    ensures r.Responded? ==> ResponseTruthy(r.response) && |sent| < |r.sent| <= |sent| + fuel
    decreases fuel
  {
    if fuel == 0 then OutOfFuel
    else
      var sent' := sent + [Instruction(message, s)];
      match agent(sent')
      case None => InternalError
      case Some(chunks) =>
        var s' := Fold(codec, s, chunks);
        if ResponseTruthy(s'.response) then Responded(s'.response, sent')
        else Passes(message, agent, codec, s', sent', fuel - 1)
  }

  /** The whole request: a falsy `message` is refused with 400 and nothing
      is sent; otherwise the passes start from the initial variables. */
  function InteractSpec(message: Json, agent: seq<Json> -> Option<seq<Chunk>>, codec: Codec, fuel: nat): (r: Outcome)
    ensures r == BadRequest <==> !Truthy(message)
    ensures r.Responded? ==> ResponseTruthy(r.response) && 1 <= |r.sent| <= fuel
    ensures Truthy(message) && fuel == 0 ==> r == OutOfFuel
  {
    if !Truthy(message) then BadRequest else Passes(message, agent, codec, Initial, [], fuel)
  }

  /** The handler, with the four variables and the pass loop updated in place. */
  method Interact(message: Json, agent: seq<Json> -> Option<seq<Chunk>>, codec: Codec, fuel: nat)
    returns (o: Outcome)
    ensures o == InteractSpec(message, agent, codec, fuel)
  {
    if !Truthy(message) {
      return BadRequest;
    }
    var s := Initial;
    var sent: seq<Json> := [];
    var left := fuel;
    while left > 0
      invariant Passes(message, agent, codec, s, sent, left) == InteractSpec(message, agent, codec, fuel)
      decreases left
    {
      var userInput := if s.nextStep == MoonshotCreate then JString(s.nextStepInput) else message;
      sent := sent + [userInput];
      var stream := agent(sent);
      if stream.None? {
        return InternalError;
      }
      s := RunPass(codec, s, stream.value);
      if ResponseTruthy(s.response) {
        return Responded(s.response, sent);
      }
      left := left - 1;
    }
    return OutOfFuel;
  }

  // ---------------------------------------------------------------------
  // One chunk

  /** A `tools` chunk: the evaluator's name only marks it as the last tool;
      any other name clears the three control variables. Neither touches
      `response`. */
  lemma ToolsChunkStep(codec: Codec, s: LoopState, name: string)
    ensures var t := Step(codec, s, ToolsChunk(name));
      && t.response == s.response
      && (name == EvaluatorToolMessage ==>
            t.lastToolUsed == TweetEvaluatorTool && t.nextStep == s.nextStep && t.nextStepInput == s.nextStepInput)
      && (name != EvaluatorToolMessage ==> t.nextStep == "" && t.nextStepInput == "" && t.lastToolUsed == "")
  {
  }

  /** Outside the evaluator, an `end_turn` sets `response` to the parsed
      content, or to the raw content when it does not parse, and nothing else. */
  lemma EndTurnOutsideEvaluator(codec: Codec, s: LoopState, content: string)
    requires s.lastToolUsed != TweetEvaluatorTool
    ensures var t := Step(codec, s, AgentChunk(true, content));
      && t.nextStep == s.nextStep && t.nextStepInput == s.nextStepInput && t.lastToolUsed == s.lastToolUsed
      && t.response == (if codec.parse(content).Some? then Parsed(codec.parse(content).value) else Raw(content))
  {
  }

  /** After the evaluator, a payload whose `likelyMeme` is exactly `true`
      queues the mint instruction, which embeds the stringified payload, for
      the next pass; `response` stays as it was. */
  lemma MemeVerdictQueuesMint(codec: Codec, s: LoopState, content: string, payload: Json, message: Json)
    requires s.lastToolUsed == TweetEvaluatorTool
    requires codec.parse(content) == Some(payload)
    requires Property(payload, "likelyMeme") == Found(JBool(true))
    ensures var t := Step(codec, s, AgentChunk(true, content));
      && t.nextStep == MoonshotCreate && t.lastToolUsed == "" && t.response == s.response
      && t.nextStepInput[|MintHead|..|t.nextStepInput| - |MintTail|] == codec.stringify(payload)
      && Instruction(message, t) == JString(t.nextStepInput)
  {
  }

  /** After the evaluator, a parsed payload whose `likelyMeme` is anything
      but `true` (absent, a string "true", `false`, ...) becomes the response
      and clears the control variables. */
  lemma NonMemeVerdictResponds(codec: Codec, s: LoopState, content: string, payload: Json)
    requires s.lastToolUsed == TweetEvaluatorTool
    requires codec.parse(content) == Some(payload) && payload != JNull
    requires Property(payload, "likelyMeme") != Found(JBool(true))
    ensures Step(codec, s, AgentChunk(true, content)) == LoopState("", "", "", Parsed(payload))
  {
  }

  /** Chunks that change nothing: one that is neither `agent` nor `tools`, an
      `agent` chunk that does not end the turn, and, after the evaluator, an
      `end_turn` that does not parse or parses to `null`. */
  lemma NoChangeChunks(codec: Codec, s: LoopState, c: Chunk)
    requires || c.OtherChunk?
             || (c.AgentChunk? && !c.endTurn)
             || (c.AgentChunk? && s.lastToolUsed == TweetEvaluatorTool &&
                 (codec.parse(c.content).None? || codec.parse(c.content) == Some(JNull)))
    ensures Step(codec, s, c) == s
  {
  }

  // ---------------------------------------------------------------------
  // One stream

  lemma {:induction false} FoldAppend(codec: Codec, s: LoopState, a: seq<Chunk>, b: seq<Chunk>)
    ensures Fold(codec, s, a + b) == Fold(codec, Fold(codec, s, a), b)
    decreases |a|
  {
    if a == [] {
      assert a + b == b;
    } else {
      assert (a + b)[1..] == a[1..] + b;
      FoldAppend(codec, Step(codec, s, a[0]), a[1..], b);
    }
  }

  /** `response` is never reset: once assigned, it stays assigned. */
  lemma {:induction false} ResponseNeverReset(codec: Codec, s: LoopState, chunks: seq<Chunk>)
    requires s.response != Unset
    ensures Fold(codec, s, chunks).response != Unset
    decreases |chunks|
  {
    if chunks != [] {
      ResponseNeverReset(codec, Step(codec, s, chunks[0]), chunks[1..]);
    }
  }

  /** Reference reading of a stream without the evaluator: the response of
      its last `end_turn`, found by scanning from the end. */
  function LastEndTurn(codec: Codec, chunks: seq<Chunk>, otherwise: Response): Response
    decreases |chunks|
  {
    if chunks == [] then otherwise
    else
      var last := chunks[|chunks| - 1];
      if last.AgentChunk? && last.endTurn then
        (if codec.parse(last.content).Some? then Parsed(codec.parse(last.content).value) else Raw(last.content))
      else LastEndTurn(codec, chunks[..|chunks| - 1], otherwise)
  }

  /** Without the evaluator, the last `end_turn` of a stream decides
      `response`: each one overwrites the one before. */
  lemma {:induction false} LastEndTurnWins(codec: Codec, s: LoopState, chunks: seq<Chunk>)
    requires s.lastToolUsed != TweetEvaluatorTool
    requires forall i :: 0 <= i < |chunks| ==> chunks[i] != ToolsChunk(EvaluatorToolMessage)
    ensures Fold(codec, s, chunks).lastToolUsed != TweetEvaluatorTool
    ensures Fold(codec, s, chunks).response == LastEndTurn(codec, chunks, s.response)
    decreases |chunks|
  {
    if chunks != [] {
      var init, last := chunks[..|chunks| - 1], chunks[|chunks| - 1];
      assert chunks == init + [last];
      LastEndTurnWins(codec, s, init);
      FoldAppend(codec, s, init, [last]);
    }
  }

  // ---------------------------------------------------------------------
  // The pass loop

  /** The loop leaves only with a truthy response, after at least one and at
      most `fuel` further passes, and the instructions sent extend the ones
      sent before, starting with the instruction of the current state. */
  lemma {:induction false} RespondedIsTruthy(message: Json, agent: seq<Json> -> Option<seq<Chunk>>, codec: Codec,
                                             s: LoopState, sent: seq<Json>, fuel: nat)
    requires Passes(message, agent, codec, s, sent, fuel).Responded?
    ensures var o := Passes(message, agent, codec, s, sent, fuel);
      && ResponseTruthy(o.response)
      && |sent| < |o.sent| <= |sent| + fuel
      && o.sent[..|sent|] == sent && o.sent[|sent|] == Instruction(message, s)
    decreases fuel
  {
    var sent' := sent + [Instruction(message, s)];
    var chunks := agent(sent').value;
    var s' := Fold(codec, s, chunks);
    if !ResponseTruthy(s'.response) {
      RespondedIsTruthy(message, agent, codec, s', sent', fuel - 1);
      var o := Passes(message, agent, codec, s', sent', fuel - 1);
      assert o.sent[..|sent|] == o.sent[..|sent'|][..|sent|];
    }
  }

  /** A request is answered only with a truthy response, and its first
      instruction is the request's own message. */
  lemma InteractRespondsTruthy(message: Json, agent: seq<Json> -> Option<seq<Chunk>>, codec: Codec, fuel: nat)
    requires InteractSpec(message, agent, codec, fuel).Responded?
    ensures ResponseTruthy(InteractSpec(message, agent, codec, fuel).response)
    ensures 1 <= |InteractSpec(message, agent, codec, fuel).sent| <= fuel
    ensures InteractSpec(message, agent, codec, fuel).sent[0] == message
  {
    RespondedIsTruthy(message, agent, codec, Initial, [], fuel);
  }

  /** A stream whose end leaves `response` falsy (an empty raw reply, say)
      starts another pass from the state it reached. */
  lemma FalsyResponseAnotherPass(message: Json, agent: seq<Json> -> Option<seq<Chunk>>, codec: Codec,
                                 s: LoopState, sent: seq<Json>, fuel: nat)
    requires fuel > 0
    requires agent(sent + [Instruction(message, s)]).Some?
    requires !ResponseTruthy(Fold(codec, s, agent(sent + [Instruction(message, s)]).value).response)
    ensures Passes(message, agent, codec, s, sent, fuel) ==
      Passes(message, agent, codec, Fold(codec, s, agent(sent + [Instruction(message, s)]).value),
             sent + [Instruction(message, s)], fuel - 1)
  {
  }

  /** Only an agent chunk that ends the turn touches `response`: a stream
      without one leaves it as it was. */
  lemma {:induction false} NoEndTurnKeepsResponse(codec: Codec, s: LoopState, chunks: seq<Chunk>)
    requires forall i :: 0 <= i < |chunks| ==> !(chunks[i].AgentChunk? && chunks[i].endTurn)
    ensures Fold(codec, s, chunks).response == s.response
    decreases |chunks|
  {
    if chunks != [] {
      assert !(chunks[0].AgentChunk? && chunks[0].endTurn);
      var s' := Step(codec, s, chunks[0]);
      assert s'.response == s.response;
      forall i | 0 <= i < |chunks[1..]|
        ensures !(chunks[1..][i].AgentChunk? && chunks[1..][i].endTurn)
      {
        assert chunks[1..][i] == chunks[i + 1];
      }
      NoEndTurnKeepsResponse(codec, s', chunks[1..]);
    }
  }

  /** From a falsy `response`, a stream that never ends the agent's turn
      (tool calls only, say) cannot make it truthy, so the handler starts
      another pass from the state the stream left. */
  lemma StreamWithoutEndTurnAnotherPass(message: Json, agent: seq<Json> -> Option<seq<Chunk>>, codec: Codec,
                                        s: LoopState, sent: seq<Json>, fuel: nat)
    requires fuel > 0 && !ResponseTruthy(s.response)
    requires agent(sent + [Instruction(message, s)]).Some?
    requires var chunks := agent(sent + [Instruction(message, s)]).value;
      forall i :: 0 <= i < |chunks| ==> !(chunks[i].AgentChunk? && chunks[i].endTurn)
    ensures var sent' := sent + [Instruction(message, s)];
      Passes(message, agent, codec, s, sent, fuel) ==
        Passes(message, agent, codec, Fold(codec, s, agent(sent').value), sent', fuel - 1)
  {
    NoEndTurnKeepsResponse(codec, s, agent(sent + [Instruction(message, s)]).value);
    FalsyResponseAnotherPass(message, agent, codec, s, sent, fuel);
  }

  /** The evaluate-then-mint conversation: the evaluator runs, its verdict is
      a meme, and the second pass sends the mint instruction carrying the
      stringified verdict instead of the user's message. */
  lemma {:induction false} MemeVerdictThenMintPass(message: Json, agent: seq<Json> -> Option<seq<Chunk>>, codec: Codec,
                                                   fuel: nat, content: string, payload: Json)
    requires Truthy(message) && fuel >= 2
    requires agent([message]) == Some([ToolsChunk(EvaluatorToolMessage), AgentChunk(true, content)])
    requires codec.parse(content) == Some(payload) && Property(payload, "likelyMeme") == Found(JBool(true))
    ensures var queued := LoopState(MoonshotCreate, MintInstruction(codec.stringify(payload)), "", Unset);
      InteractSpec(message, agent, codec, fuel) == Passes(message, agent, codec, queued, [message], fuel - 1)
    ensures Instruction(message, LoopState(MoonshotCreate, MintInstruction(codec.stringify(payload)), "", Unset))
            == JString(MintInstruction(codec.stringify(payload)))
  {
    var chunks := [ToolsChunk(EvaluatorToolMessage), AgentChunk(true, content)];
    var queued := LoopState(MoonshotCreate, MintInstruction(codec.stringify(payload)), "", Unset);
    var s1 := Step(codec, Initial, chunks[0]);
    assert s1.lastToolUsed == TweetEvaluatorTool;
    var s2 := Step(codec, s1, chunks[1]);
    assert s2 == queued;
    assert chunks[1..][1..] == [];
    assert Fold(codec, Initial, chunks) == Fold(codec, s2, []) == queued;
    assert [] + [Instruction(message, Initial)] == [message];
  }

  // ---------------------------------------------------------------------
  // validateEnvironment

  const RequiredVars := ["ANTHROPIC_API_KEY", "CDP_API_KEY_NAME", "CDP_API_KEY_PRIVATE_KEY"]
  const MissingVarsError := "Error: Required environment variables are not set"

  /** `process.env[name]` is truthy: present and not empty. */
  predicate IsSet(env: map<string, string>, name: string) {
    name in env && env[name] != ""
  }

  /** The names among `names` that are not set, in their order. */
  function MissingVars(env: map<string, string>, names: seq<string>): (r: seq<string>)
    ensures |r| <= |names|
    decreases |names|
  {
    if names == [] then []
    else (if IsSet(env, names[0]) then [] else [names[0]]) + MissingVars(env, names[1..])
  }

  /** The placeholder line printed for a missing variable. */
  function Placeholder(name: string): string {
    name + "=your_" + LowerAscii(name) + "_here"
  }

  /** What `validateEnvironment` did: the missing names, the lines it wrote
      to stderr, whether it exited and whether it warned about NETWORK_ID. */
  datatype EnvCheck = EnvCheck(missing: seq<string>, errors: seq<string>, exits: bool, warnsNetwork: bool)

  /** The first `forEach`: push each unset name, in order. */
  method CollectMissing(env: map<string, string>, names: seq<string>) returns (missing: seq<string>)
    ensures missing == MissingVars(env, names)
  {
    missing := [];
    for i := 0 to |names|
      invariant missing + MissingVars(env, names[i..]) == MissingVars(env, names)
    {
      MissingVarsFrom(env, names, i);
      if !IsSet(env, names[i]) {
        ghost var later := MissingVars(env, names[i + 1..]);
        assert (missing + [names[i]]) + later == missing + ([names[i]] + later);
        missing := missing + [names[i]];
      }
    }
    assert names[|names|..] == [];
  }

  /** The missing names from position `i` on: that name's own verdict, then
      those of the rest. */
  lemma MissingVarsFrom(env: map<string, string>, names: seq<string>, i: nat)
    requires i < |names|
    ensures MissingVars(env, names[i..]) ==
      (if IsSet(env, names[i]) then [] else [names[i]]) + MissingVars(env, names[i + 1..])
  {
    assert names[i..][1..] == names[i + 1..];
  }

  /** The lines written to stderr before exiting: the heading, then one
      placeholder per missing name, in order. */
  method ReportMissing(missing: seq<string>) returns (errors: seq<string>)
    ensures |errors| == |missing| + 1 && errors[0] == MissingVarsError
    ensures forall i :: 0 <= i < |missing| ==> errors[i + 1] == Placeholder(missing[i])
  {
    errors := [MissingVarsError];
    for i := 0 to |missing|
      invariant |errors| == i + 1 && errors[0] == MissingVarsError
      invariant forall k :: 0 <= k < i ==> errors[k + 1] == Placeholder(missing[k])
    {
      errors := errors + [Placeholder(missing[i])];
    }
  }

  /** `validateEnvironment`: exits, after listing them, exactly when some
      required variable is unset or empty; otherwise only warns when
      NETWORK_ID is unset. */
  method ValidateEnvironment(env: map<string, string>) returns (c: EnvCheck)
    ensures c.missing == MissingVars(env, RequiredVars)
    ensures c.exits <==> c.missing != []
    ensures c.exits ==> (|c.errors| == |c.missing| + 1 && c.errors[0] == MissingVarsError &&
      forall i :: 0 <= i < |c.missing| ==> c.errors[i + 1] == Placeholder(c.missing[i]))
    ensures c.exits ==> !c.warnsNetwork
    ensures !c.exits ==> c.errors == [] && (c.warnsNetwork <==> !IsSet(env, "NETWORK_ID"))
  {
    var missingVars := CollectMissing(env, RequiredVars);
    if |missingVars| > 0 {
      var errors := ReportMissing(missingVars);
      return EnvCheck(missingVars, errors, true, false);
    }
    return EnvCheck(missingVars, [], false, !IsSet(env, "NETWORK_ID"));
  }

  /** A name is reported missing exactly when it is required and unset. */
  lemma {:induction false} MissingVarsMembers(env: map<string, string>, names: seq<string>, v: string)
    ensures v in MissingVars(env, names) <==> v in names && !IsSet(env, v)
    decreases |names|
  {
    if names != [] {
      MissingVarsMembers(env, names[1..], v);
      assert names == [names[0]] + names[1..];
    }
  }

  /** The start-up check passes exactly when all three required variables are set. */
  lemma {:induction false} NoMissingVarsIffAllSet(env: map<string, string>)
    ensures MissingVars(env, RequiredVars) == [] <==> forall v :: v in RequiredVars ==> IsSet(env, v)
  {
    var m := MissingVars(env, RequiredVars);
    if m != [] {
      MissingVarsMembers(env, RequiredVars, m[0]);
    } else {
      forall v | v in RequiredVars ensures IsSet(env, v) {
        MissingVarsMembers(env, RequiredVars, v);
      }
    }
  }

  /** `a` is `b` with some elements left out, the others in their order. */
  predicate Subsequence(a: seq<string>, b: seq<string>)
    decreases |b|
  {
    if a == [] then true
    else if b == [] then false
    else (a[0] == b[0] && Subsequence(a[1..], b[1..])) || Subsequence(a, b[1..])
  }

  /** The missing names keep the declared order. */
  lemma {:induction false} MissingVarsInOrder(env: map<string, string>, names: seq<string>)
    ensures Subsequence(MissingVars(env, names), names)
    decreases |names|
  {
    if names != [] {
      MissingVarsInOrder(env, names[1..]);
      var rest := MissingVars(env, names[1..]);
      if IsSet(env, names[0]) {
        assert MissingVars(env, names) == rest;
      } else {
        assert MissingVars(env, names) == [names[0]] + rest;
        assert ([names[0]] + rest)[1..] == rest;
      }
    }
  }
}
