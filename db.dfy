/** The directory of data/db.ts: the `tokens`, `users` and `wallets` tables of
    its DDL as in-memory sequences, with the constraints the DDL declares
    (SERIAL ids, UNIQUE username, UNIQUE wallet user, the wallets-to-users
    foreign key, VARCHAR lengths) and the lookup semantics of its queries.
    The `snipers` table is used by the tool provider but not defined in
    db.ts; it is kept here as a fourth table keyed by user. */
module Db {
  import opened Wrappers
  import opened Text

  datatype TokenRow = TokenRow(
    id: int,
    name: string,
    symbol: string,
    description: Option<string>,
    agentExplanation: Option<string>,
    tweetRelatedLink: Option<string>,
    contractAddress: string)

  /** `password` holds the bcrypt hash, never the raw password. */
  datatype UserRow = UserRow(id: int, username: string, password: string)

  datatype WalletRow = WalletRow(id: int, userId: int, privateKey: string, walletAddress: string)

  datatype SniperRow = SniperRow(userId: int, amount: int)

  // ---------------------------------------------------------------------
  // Errors PostgreSQL reports for the constraints of the DDL

  /** How `${error}` renders node-postgres's `DatabaseError`, whose `name`
      is "error". */
  function DatabaseErrorText(message: string): string {
    "error: " + message
  }

  function TooLong(n: nat): string {
    DatabaseErrorText("value too long for type character varying(" + NumberText(n) + ")")
  }

  function UniqueViolation(constraint: string): string {
    DatabaseErrorText("duplicate key value violates unique constraint \"" + constraint + "\"")
  }

  const DuplicateUsername := UniqueViolation("users_username_key")
  const DuplicateWalletUser := UniqueViolation("wallets_user_id_key")
  const UnknownWalletUser := DatabaseErrorText(
    "insert or update on table \"wallets\" violates foreign key constraint \"wallets_user_id_fkey\"")
  const InvalidCredentials := ErrorText("Invalid username or password")

  /** Assigning text to a `VARCHAR(n)` column: longer text is an error unless
      everything past `n` characters is spaces, which are then cut off. */
  function Coerce(s: string, n: nat): (r: Result<string>)
    ensures r.Success? <==> |s| <= n || forall i :: n <= i < |s| ==> s[i] == ' '
    ensures r.Success? ==> |r.value| <= n && |r.value| <= |s| && r.value == s[..|r.value|]
    ensures |s| <= n ==> r == Success(s)
    ensures r.Success? && |s| > n ==> r.value == s[..n]
    ensures r.Failure? ==> r.error == TooLong(n)
  {
    if |s| <= n then Success(s)
    else if forall i :: n <= i < |s| ==> s[i] == ' ' then Success(s[..n])
    else Failure(TooLong(n))
  }

  /** A nullable `VARCHAR(n)` column: NULL is always accepted. */
  function CoerceOpt(o: Option<string>, n: nat): (r: Result<Option<string>>)
    ensures o == None ==> r == Success(None)
    ensures o.Some? ==> (r.Success? <==> Coerce(o.value, n).Success?)
    ensures o.Some? && r.Success? ==> r.value == Some(Coerce(o.value, n).value)
  {
    match o
    case None => Success(None)
    case Some(s) =>
      var c := Coerce(s, n);
      if c.Success? then Success(Some(c.value)) else Failure(c.error)
  }

  // ---------------------------------------------------------------------
  // Table invariants

  predicate TokenIdsBelow(ts: seq<TokenRow>, next: int) {
    (forall i :: 0 <= i < |ts| ==> 1 <= ts[i].id < next) &&
    (forall i, j :: 0 <= i < j < |ts| ==> ts[i].id < ts[j].id)
  }

  predicate UserIdsBelow(us: seq<UserRow>, next: int) {
    (forall i :: 0 <= i < |us| ==> 1 <= us[i].id < next) &&
    (forall i, j :: 0 <= i < j < |us| ==> us[i].id < us[j].id)
  }

  predicate WalletIdsBelow(ws: seq<WalletRow>, next: int) {
    (forall i :: 0 <= i < |ws| ==> 1 <= ws[i].id < next) &&
    (forall i, j :: 0 <= i < j < |ws| ==> ws[i].id < ws[j].id)
  }

  /** `username VARCHAR(255) UNIQUE`. */
  predicate UniqueUsernames(us: seq<UserRow>) {
    forall i, j :: 0 <= i < j < |us| ==> us[i].username != us[j].username
  }

  /** `user_id INTEGER UNIQUE`: at most one wallet per user. */
  predicate UniqueWalletUsers(ws: seq<WalletRow>) {
    forall i, j :: 0 <= i < j < |ws| ==> ws[i].userId != ws[j].userId
  }

  predicate UniqueSniperUsers(ss: seq<SniperRow>) {
    forall i, j :: 0 <= i < j < |ss| ==> ss[i].userId != ss[j].userId
  }

  function UserIds(us: seq<UserRow>): set<int> {
    set u | u in us :: u.id
  }

  /** `REFERENCES users(id)`: every wallet belongs to an existing user. */
  predicate WalletUsersExist(us: seq<UserRow>, ws: seq<WalletRow>) {
    forall i :: 0 <= i < |ws| ==> ws[i].userId in UserIds(us)
  }

  // ---------------------------------------------------------------------
  // Row construction for the three INSERT statements

  /** `INSERT INTO tokens (...) VALUES ($1..$6)` with `id` from the sequence. */
  function TokenInsert(id: int, name: string, symbol: string, description: Option<string>,
                       explanation: Option<string>, link: Option<string>, address: string): (r: Result<TokenRow>)
    ensures r.Success? <==>
      Coerce(name, 255).Success? && Coerce(symbol, 50).Success? &&
      CoerceOpt(link, 255).Success? && Coerce(address, 255).Success?
    ensures r.Success? ==>
      r.value.id == id && r.value.description == description && r.value.agentExplanation == explanation
    ensures (r.Success? && |name| <= 255 && |symbol| <= 50 && |address| <= 255 &&
             (link.Some? ==> |link.value| <= 255)) ==>
      r.value == TokenRow(id, name, symbol, description, explanation, link, address)
  {
    var n := Coerce(name, 255);
    var s := Coerce(symbol, 50);
    var l := CoerceOpt(link, 255);
    var a := Coerce(address, 255);
    if n.Failure? then Failure(n.error)
    else if s.Failure? then Failure(s.error)
    else if l.Failure? then Failure(l.error)
    else if a.Failure? then Failure(a.error)
    else Success(TokenRow(id, n.value, s.value, description, explanation, l.value, a.value))
  }

  /** The UNIQUE check on `users.username`: some row already has the name. */
  function UsernameTaken(us: seq<UserRow>, username: string): (b: bool)
    ensures b <==> exists i :: 0 <= i < |us| && us[i].username == username
  {
    FirstUser(us, username).Some?
  }

  /** `INSERT INTO users (username, password) VALUES ($1, $2)`. */
  function UserInsert(us: seq<UserRow>, id: int, username: string, hashed: string): (r: Result<UserRow>)
    ensures r.Success? <==>
      Coerce(username, 255).Success? && Coerce(hashed, 255).Success? &&
      !UsernameTaken(us, Coerce(username, 255).value)
    ensures r.Success? ==> r.value.id == id && r.value.password == Coerce(hashed, 255).value
    ensures r.Success? && |username| <= 255 && |hashed| <= 255 ==> r.value == UserRow(id, username, hashed)
    ensures (Coerce(username, 255).Success? && Coerce(hashed, 255).Success? &&
             UsernameTaken(us, Coerce(username, 255).value)) ==>
      r == Failure(DuplicateUsername)
  {
    var u := Coerce(username, 255);
    var p := Coerce(hashed, 255);
    if u.Failure? then Failure(u.error)
    else if p.Failure? then Failure(p.error)
    else if UsernameTaken(us, u.value) then Failure(DuplicateUsername)
    else Success(UserRow(id, u.value, p.value))
  }

  /** The UNIQUE check on `wallets.user_id`: the user's wallet query is not empty. */
  function HasWallet(ws: seq<WalletRow>, userId: int): (b: bool)
    ensures b <==> exists i :: 0 <= i < |ws| && ws[i].userId == userId
  {
    var r := WalletsOf(ws, userId);
    assert r != [] ==> r[0] in r;
    assert forall i :: 0 <= i < |ws| && ws[i].userId == userId ==> ws[i] in r;
    r != []
  }

  /** `INSERT INTO wallets (user_id, private_key, wallet_address) VALUES ($1, $2, $3)`:
      the lengths are checked as the row is built, the UNIQUE index as it is
      inserted, and the foreign key at the end of the statement. */
  function WalletInsert(us: seq<UserRow>, ws: seq<WalletRow>, id: int, userId: int,
                        privateKey: string, address: string): (r: Result<WalletRow>)
    ensures r.Success? <==>
      Coerce(privateKey, 255).Success? && Coerce(address, 255).Success? &&
      !HasWallet(ws, userId) && userId in UserIds(us)
    ensures Coerce(privateKey, 255).Success? && Coerce(address, 255).Success? && HasWallet(ws, userId) ==>
      r == Failure(DuplicateWalletUser)
    ensures r.Success? && |privateKey| <= 255 && |address| <= 255 ==>
      r.value == WalletRow(id, userId, privateKey, address)
    ensures r.Success? ==> r.value.id == id && r.value.userId == userId
  {
    var k := Coerce(privateKey, 255);
    var a := Coerce(address, 255);
    if k.Failure? then Failure(k.error)
    else if a.Failure? then Failure(a.error)
    else if HasWallet(ws, userId) then Failure(DuplicateWalletUser)
    else if userId !in UserIds(us) then Failure(UnknownWalletUser)
    else Success(WalletRow(id, userId, k.value, a.value))
  }

  /** A row `WalletInsert` accepts keeps the wallets table's constraints:
      ids still rise below the next serial, one wallet per user, and every
      wallet's user exists. */
  lemma WalletInsertKeepsConstraints(us: seq<UserRow>, ws: seq<WalletRow>, id: int, userId: int,
                                     privateKey: string, address: string)
    requires 1 <= id && WalletIdsBelow(ws, id) && UniqueWalletUsers(ws) && WalletUsersExist(us, ws)
    requires WalletInsert(us, ws, id, userId, privateKey, address).Success?
    ensures var w := WalletInsert(us, ws, id, userId, privateKey, address).value;
      WalletIdsBelow(ws + [w], id + 1)
    ensures var w := WalletInsert(us, ws, id, userId, privateKey, address).value;
      UniqueWalletUsers(ws + [w])
    ensures var w := WalletInsert(us, ws, id, userId, privateKey, address).value;
      WalletUsersExist(us, ws + [w])
  {
    var w := WalletInsert(us, ws, id, userId, privateKey, address).value;
    var ws' := ws + [w];
    assert w.id == id && w.userId == userId && userId in UserIds(us);
    forall i | 0 <= i < |ws|
      ensures ws'[i] == ws[i] && ws[i].userId != userId
    {
      assert ws[i] in ws;
    }
    assert ws'[|ws|] == w;
  }

  // ---------------------------------------------------------------------
  // Filters behind the SELECT statements

  /** `SELECT * FROM wallets WHERE user_id = $1`, in table order. */
  function WalletsOf(ws: seq<WalletRow>, userId: int): (r: seq<WalletRow>)
    ensures forall w :: w in r <==> w in ws && w.userId == userId
  {
    if ws == [] then []
    else (if ws[0].userId == userId then [ws[0]] else []) + WalletsOf(ws[1..], userId)
  }

  /** With `user_id` unique, a user owns at most one wallet row. */
  lemma {:induction false} WalletsOfAtMostOne(ws: seq<WalletRow>, userId: int)
    requires UniqueWalletUsers(ws)
    ensures |WalletsOf(ws, userId)| <= 1
  {
    if ws != [] {
      assert UniqueWalletUsers(ws[1..]) by {
        forall i, j | 0 <= i < j < |ws[1..]| ensures ws[1..][i].userId != ws[1..][j].userId {
          assert ws[1..][i] == ws[i + 1] && ws[1..][j] == ws[j + 1];
        }
      }
      WalletsOfAtMostOne(ws[1..], userId);
      if ws[0].userId == userId {
        forall i | 0 <= i < |ws[1..]| ensures ws[1..][i].userId != userId {
          assert ws[1..][i] == ws[i + 1];
        }
        NoWalletsOf(ws[1..], userId);
      }
    }
  }

  lemma {:induction false} NoWalletsOf(ws: seq<WalletRow>, userId: int)
    requires forall i :: 0 <= i < |ws| ==> ws[i].userId != userId
    ensures WalletsOf(ws, userId) == []
  {
    if ws != [] {
      NoWalletsOf(ws[1..], userId);
    }
  }

  /** The first row, in table order, that satisfies `p`: what a `LIMIT 1`
      query without `ORDER BY` is taken to return. */
  function FirstWhere<T>(rows: seq<T>, p: T -> bool): (r: Option<T>)
    ensures r.Some? <==> exists i :: 0 <= i < |rows| && p(rows[i])
    ensures r.Some? ==> r.value in rows && p(r.value)
  {
    if rows == [] then None
    else if p(rows[0]) then Some(rows[0])
    else
      assert forall i :: 0 < i < |rows| ==> rows[i] == rows[1..][i - 1];
      FirstWhere(rows[1..], p)
  }

  predicate Matches(t: TokenRow, term: string) {
    t.name == term || t.symbol == term || t.contractAddress == term
  }

  /** `WHERE name = $1 OR symbol = $1 OR contract_address = $1 LIMIT 1`. */
  function FirstMatch(ts: seq<TokenRow>, term: string): (r: Option<TokenRow>)
    ensures r.Some? <==> exists i :: 0 <= i < |ts| && Matches(ts[i], term)
    ensures r.Some? ==> r.value in ts && Matches(r.value, term)
  {
    FirstWhere(ts, t => Matches(t, term))
  }

  /** `WHERE id = $1`. */
  function RowWithId(ts: seq<TokenRow>, id: int): (r: Option<TokenRow>)
    ensures r.Some? <==> exists i :: 0 <= i < |ts| && ts[i].id == id
    ensures r.Some? ==> r.value in ts && r.value.id == id
  {
    FirstWhere(ts, (t: TokenRow) => t.id == id)
  }

  /** `WHERE username = $1`. */
  function FirstUser(us: seq<UserRow>, username: string): (r: Option<UserRow>)
    ensures r.Some? <==> exists i :: 0 <= i < |us| && us[i].username == username
    ensures r.Some? ==> r.value in us && r.value.username == username
  {
    FirstWhere(us, (u: UserRow) => u.username == username)
  }

  /** The sniper registration of one user, replacing an earlier one. */
  function Upsert(ss: seq<SniperRow>, userId: int, amount: int): (r: seq<SniperRow>)
    ensures SniperRow(userId, amount) in r
    ensures forall s :: s in r && s.userId != userId ==> s in ss
    ensures forall s :: s in ss && s.userId != userId ==> s in r
    ensures forall s :: s in r && s.userId == userId ==> s.amount == amount
    ensures UniqueSniperUsers(ss) ==> UniqueSniperUsers(r)
  {
    if HasSniper(ss, userId) then SetAmount(ss, userId, amount)
    else ss + [SniperRow(userId, amount)]
  }

  function HasSniper(ss: seq<SniperRow>, userId: int): (b: bool)
    ensures b <==> exists s :: s in ss && s.userId == userId
  {
    if ss == [] then false
    else ss[0].userId == userId || HasSniper(ss[1..], userId)
  }

  /** Every row of the user gets the new amount; the other rows stay as they are. */
  function SetAmount(ss: seq<SniperRow>, userId: int, amount: int): (r: seq<SniperRow>)
    ensures |r| == |ss|
    ensures forall i :: 0 <= i < |ss| ==>
      r[i] == (if ss[i].userId == userId then SniperRow(userId, amount) else ss[i])
  {
    if ss == [] then []
    else [if ss[0].userId == userId then SniperRow(userId, amount) else ss[0]] + SetAmount(ss[1..], userId, amount)
  }

  /** The sniper rows of every other user. */
  function WithoutUser(ss: seq<SniperRow>, userId: int): (r: seq<SniperRow>)
    ensures forall s :: s in r <==> s in ss && s.userId != userId
    ensures UniqueSniperUsers(ss) ==> UniqueSniperUsers(r)
  {
    if ss == [] then []
    else
      var rest := WithoutUser(ss[1..], userId);
      assert UniqueSniperUsers(ss) ==> UniqueSniperUsers(ss[1..]) by {
        if UniqueSniperUsers(ss) {
          forall i, j | 0 <= i < j < |ss[1..]| ensures ss[1..][i].userId != ss[1..][j].userId {
            assert ss[1..][i] == ss[i + 1] && ss[1..][j] == ss[j + 1];
          }
        }
      }
      if ss[0].userId == userId then rest else [ss[0]] + rest
  }

  // ---------------------------------------------------------------------

  class Directory {
    var tokens: seq<TokenRow>
    var users: seq<UserRow>
    var wallets: seq<WalletRow>
    var snipers: seq<SniperRow>
    /** The next value of each table's SERIAL sequence. */
    var tokenSerial: int
    var userSerial: int
    var walletSerial: int

    ghost predicate Valid()
      reads this
    {
      && 1 <= tokenSerial && 1 <= userSerial && 1 <= walletSerial
      && TokenIdsBelow(tokens, tokenSerial)
      && UserIdsBelow(users, userSerial)
      && WalletIdsBelow(wallets, walletSerial)
      && UniqueUsernames(users)
      && UniqueWalletUsers(wallets)
      && WalletUsersExist(users, wallets)
      && UniqueSniperUsers(snipers)
    }

    /** The tables as `initializeDatabase` creates them. */
    constructor ()
      ensures Valid()
      ensures tokens == [] && users == [] && wallets == [] && snipers == []
      ensures tokenSerial == 1 && userSerial == 1 && walletSerial == 1
    {
      tokens, users, wallets, snipers := [], [], [], [];
      tokenSerial, userSerial, walletSerial := 1, 1, 1;
    }

    /** `createToken`: inserts exactly one row with the six given fields (each
        coerced to its column type) and returns it; on a constraint error the
        table is unchanged. The attempt consumes a sequence value either way. */
    method CreateToken(name: string, symbol: string, description: Option<string>,
                       explanation: Option<string>, link: Option<string>, address: string)
      returns (r: Result<TokenRow>)
      requires Valid()
      modifies this
      ensures Valid()
      ensures r == TokenInsert(old(tokenSerial), name, symbol, description, explanation, link, address)
      ensures r.Success? ==> tokens == old(tokens) + [r.value]
      ensures r.Failure? ==> tokens == old(tokens)
      ensures tokenSerial == old(tokenSerial) + 1
      ensures users == old(users) && wallets == old(wallets) && snipers == old(snipers)
      ensures userSerial == old(userSerial) && walletSerial == old(walletSerial)
    {
      r := TokenInsert(tokenSerial, name, symbol, description, explanation, link, address);
      if r.Success? {
        tokens := tokens + [r.value];
      }
      tokenSerial := tokenSerial + 1;
    }

    /** `registerUser`: stores `hash(password)`, never the password itself,
        and fails on a username that is already taken. */
    method RegisterUser(username: string, password: string, hash: string -> string)
      returns (r: Result<int>)
      requires Valid()
      modifies this
      ensures Valid()
      ensures var row := UserInsert(old(users), old(userSerial), username, hash(password));
        && (r.Success? <==> row.Success?)
        && (r.Success? ==> r.value == old(userSerial) && users == old(users) + [row.value])
        && (r.Failure? ==> r.error == row.error && users == old(users))
      ensures UsernameTaken(old(users), username) && |username| <= 255 && |hash(password)| <= 255 ==>
        r == Failure(DuplicateUsername)
      ensures userSerial == old(userSerial) + 1
      ensures tokens == old(tokens) && wallets == old(wallets) && snipers == old(snipers)
      ensures tokenSerial == old(tokenSerial) && walletSerial == old(walletSerial)
    {
      var row := UserInsert(users, userSerial, username, hash(password));
      if row.Success? {
        users := users + [row.value];
        r := Success(row.value.id);
      } else {
        r := Failure(row.error);
      }
      userSerial := userSerial + 1;
      assert UserIds(old(users)) <= UserIds(users);
    }

    /** `loginUser`: a session token exactly when a user with that username
        exists and `compare` accepts the password against the stored hash;
        otherwise the "Invalid username or password" error. */
    function LoginUser(username: string, password: string,
                       compare: (string, string) -> bool, sign: (int, string) -> string): (r: Result<string>)
      reads this
      requires Valid()
      ensures r.Success? <==>
        exists i :: 0 <= i < |users| && users[i].username == username && compare(password, users[i].password)
      ensures r.Success? ==>
        exists i :: 0 <= i < |users| && users[i].username == username && r.value == sign(users[i].id, username)
      ensures r.Failure? ==> r.error == InvalidCredentials
    {
      var u := FirstUser(users, username);
      if u.Some? && compare(password, u.value.password) then
        Success(sign(u.value.id, u.value.username))
      else
        assert u.Some? ==> forall i :: 0 <= i < |users| && users[i].username == username ==> users[i] == u.value;
        Failure(InvalidCredentials)
    }

    /** `createWallet`: fails when the user already has a wallet (UNIQUE) or
        does not exist (foreign key); otherwise adds exactly one row and
        returns its id. */
    method CreateWallet(userId: int, privateKey: string, address: string) returns (r: Result<int>)
      requires Valid()
      modifies this
      ensures Valid()
      ensures var row := WalletInsert(old(users), old(wallets), old(walletSerial), userId, privateKey, address);
        && (r.Success? <==> row.Success?)
        && (r.Success? ==> r.value == old(walletSerial) && wallets == old(wallets) + [row.value])
        && (r.Failure? ==> r.error == row.error && wallets == old(wallets))
      ensures old(GetWalletByUserId(userId)) != [] && |privateKey| <= 255 && |address| <= 255 ==>
        r == Failure(DuplicateWalletUser) && wallets == old(wallets)
      ensures walletSerial == old(walletSerial) + 1
      ensures tokens == old(tokens) && users == old(users) && snipers == old(snipers)
      ensures tokenSerial == old(tokenSerial) && userSerial == old(userSerial)
    {
      if GetWalletByUserId(userId) != [] {
        assert GetWalletByUserId(userId)[0] in wallets;
      }
      var row := WalletInsert(users, wallets, walletSerial, userId, privateKey, address);
      if row.Success? {
        WalletInsertKeepsConstraints(users, wallets, walletSerial, userId, privateKey, address);
        wallets := wallets + [row.value];
        r := Success(row.value.id);
      } else {
        r := Failure(row.error);
      }
      walletSerial := walletSerial + 1;
    }

    /** `getWalletByUserId`: the rows whose `user_id` matches; by the UNIQUE
        constraint, at most one. */
    function GetWalletByUserId(userId: int): (r: seq<WalletRow>)
      reads this
      ensures forall w :: w in r <==> w in wallets && w.userId == userId
      ensures Valid() ==> |r| <= 1
    {
      var r := WalletsOf(wallets, userId);
      assert Valid() ==> |r| <= 1 by {
        if Valid() { WalletsOfAtMostOne(wallets, userId); }
      }
      r
    }

    /** `findTokenByParameter`: a row whose name, symbol or contract address
        equals the term, or `None` when no row does. Which matching row is
        returned is not specified by the query; the model takes the first. */
    function FindTokenByParameter(term: string): (r: Option<TokenRow>)
      reads this
      ensures r.Some? <==> exists i :: 0 <= i < |tokens| && Matches(tokens[i], term)
      ensures r.Some? ==> r.value in tokens && Matches(r.value, term)
    {
      FirstMatch(tokens, term)
    }

    /** `getTokenById`: the row with that id, or `None`. */
    function GetTokenById(id: int): (r: Option<TokenRow>)
      reads this
      ensures r.Some? <==> exists i :: 0 <= i < |tokens| && tokens[i].id == id
      ensures r.Some? ==> r.value in tokens && r.value.id == id
    {
      RowWithId(tokens, id)
    }

    /** `getAllTokens`: every row, each once (in no promised order). */
    function GetAllTokens(): (r: seq<TokenRow>)
      reads this
      ensures multiset(r) == multiset(tokens)
    {
      tokens
    }

    /** `createSniper`: registers the user for automatic buys with that amount. */
    method CreateSniper(userId: int, amount: int)
      requires Valid()
      modifies this`snipers
      ensures Valid()
      ensures snipers == Upsert(old(snipers), userId, amount)
    {
      snipers := Upsert(snipers, userId, amount);
    }

    /** `deleteSniperByUserId`: removes the user's registration. */
    method DeleteSniperByUserId(userId: int)
      requires Valid()
      modifies this`snipers
      ensures Valid()
      ensures snipers == WithoutUser(old(snipers), userId)
    {
      snipers := WithoutUser(snipers, userId);
    }

    /** `getAllSnipers`: every registration. */
    function GetAllSnipers(): (r: seq<SniperRow>)
      reads this
      ensures multiset(r) == multiset(snipers)
    {
      snipers
    }
  }
}
