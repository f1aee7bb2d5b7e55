/**
 * scripts/get-key.py: the bootstrap script that logs in with an email and a
 * password, finds or creates the `terraform-provider` service account, and
 * creates an API key for it. The server is a parameter that answers each
 * request; the prompts, the environment variable and the printing are the
 * inputs and outputs of one run. Python's own failures (an attribute error,
 * a key error, a type error, a connection error, a body that is not JSON)
 * end the run as a crash; the script's own `exit(1)` ends it with a message.
 */
module GetKey {
  import opened Wrappers

  const DefaultEndpoint := "https://canary-useast2-acc.risingwave.cloud/api/v1"
  const AccountName := "terraform-provider"
  const AccountDescription := "tf module service account, created by the started script for risingwavecloud provider"
  const KeyDescription := "tf module API key, created by the started script for risingwavecloud provider"
  const Banner := "\nAn API key has been created. Please note that your API secret is displayed only once, so make sure to remember it.\n"

  /** A decoded JSON value; numbers are integers here. */
  datatype Json = JNull | JBool(b: bool) | JNum(n: int) | JStr(s: string) | JArr(items: seq<Json>) | JObj(fields: map<string, Json>)

  /** Python truthiness of a decoded value, as `not x` tests it. */
  predicate Truthy(j: Json)
  {
    match j
    case JNull => false
    case JBool(b) => b
    case JNum(n) => n != 0
    case JStr(s) => s != ""
    case JArr(xs) => xs != []
    case JObj(m) => m != map[]
  }

  /** `j.get(key, default)`; None when `j` is not a dict (an attribute error). */
  function Get(j: Json, key: string, default: Json): Option<Json>
  {
    if !j.JObj? then None
    else if key in j.fields then Some(j.fields[key])
    else Some(default)
  }

  /** `j[key]`; None when `j` is not a dict holding `key` (a key or type error). */
  function Subscript(j: Json, key: string): Option<Json>
  {
    if j.JObj? && key in j.fields then Some(j.fields[key]) else None
  }

  /** `len(j)`; None when the value has no length (a type error). */
  function Len(j: Json): Option<nat>
  {
    match j
    case JStr(s) => Some(|s|)
    case JArr(xs) => Some(|xs|)
    case JObj(m) => Some(|m|)
    case _ => None
  }

  /** The requests the script sends, each with the endpoint it resolved and the bearer token it holds. */
  datatype Call =
    | Login(endpoint: string, email: string, password: string)
    | ListAccounts(endpoint: string, token: Json)
    | CreateAccount(endpoint: string, token: Json, name: string, description: string)
    | CreateKey(endpoint: string, token: Json, principal: Json, description: string)

  /** An HTTP response (its status, its text and its body when that decodes as JSON), or no connection. */
  datatype Reply = Response(status: int, text: string, body: Option<Json>) | NoConnection

  /** How a run ends: `exit(1)` after a message, an uncaught exception, or the key and secret printed. */
  datatype Ending = Exit(message: string) | Crash | Printed(key: Json, secret: Json)

  /** A run: the requests in the order they were sent, and how it ended. */
  datatype Outcome = Outcome(calls: seq<Call>, end: Ending)

  /** RWC_ENDPOINT when it is set and non-empty, else the default. */
  function Endpoint(env: Option<string>): (e: string)
    ensures env.Some? && env.value != "" ==> e == env.value
    ensures env.None? || env.value == "" ==> e == DefaultEndpoint
  {
    match env
    case Some(v) => if |v| == 0 then DefaultEndpoint else v
    case None => DefaultEndpoint
  }

  /** A reply the script accepts: status 200. */
  predicate Accepted(reply: Reply)
  {
    reply.Response? && reply.status == 200
  }

  /** `tokens.jwt` of the login body, with `{}` and None as the defaults; None when the lookups raise. */
  function Token(body: Option<Json>): Option<Json>
  {
    match body
    case None => None
    case Some(b) =>
      match Get(b, "tokens", JObj(map[]))
      case None => None
      case Some(t) => Get(t, "jwt", JNull)
  }

  /** The service account the loop matches: a dict whose `name` is exactly the script's account name. */
  predicate Named(sa: Json)
  {
    Subscript(sa, "name") == Some(JStr(AccountName))
  }

  /** An entry the loop can pass over: a dict with a `name` that is not the account name. */
  predicate Skippable(sa: Json)
  {
    Subscript(sa, "name").Some? && !Named(sa)
  }

  datatype Scan = ScanCrash | Found(index: nat, id: Json) | NotFound

  /** The loop over the service accounts, stopping at the first match. */
  function ScanAccounts(items: seq<Json>): (r: Scan)
    ensures r.NotFound? <==> forall j :: 0 <= j < |items| ==> Skippable(items[j])
    ensures r.Found? ==>
      r.index < |items| && Named(items[r.index]) && Subscript(items[r.index], "id") == Some(r.id)
      && forall j :: 0 <= j < r.index ==> Skippable(items[j])
    ensures r.ScanCrash? ==>
      exists k :: 0 <= k < |items| && (forall j :: 0 <= j < k ==> Skippable(items[j]))
        && (Subscript(items[k], "name").None? || (Named(items[k]) && Subscript(items[k], "id").None?))
    decreases |items|
  {
    if |items| == 0 then NotFound
    else if Subscript(items[0], "name").None? then ScanCrash
    else if Named(items[0]) then
      (match Subscript(items[0], "id")
       case None => ScanCrash
       case Some(id) => Found(0, id))
    else
      match ScanAccounts(items[1..])
      case ScanCrash => ScanCrash
      case NotFound => NotFound
      case Found(k, id) => Found(k + 1, id)
  }

  /**
   * `for sa in body.get('service_accounts', [])`: a list is walked; an empty
   * dict or string gives no entries, a non-empty one gives string entries
   * whose subscript raises, and anything else is not iterable.
   */
  function Lookup(body: Option<Json>): Scan
  {
    match body
    case None => ScanCrash
    case Some(b) =>
      match Get(b, "service_accounts", JArr([]))
      case None => ScanCrash
      case Some(JArr(xs)) => ScanAccounts(xs)
      case Some(JObj(m)) => if m == map[] then NotFound else ScanCrash
      case Some(JStr(s)) => if s == "" then NotFound else ScanCrash
      case Some(_) => ScanCrash
  }

  /** The principal once the loop is done: "" unless an account matched. */
  function Principal(s: Scan): Json
  {
    if s.Found? then s.id else JStr("")
  }

  /**
   * Where the script stands: about to send one of its four requests (with
   * the token and principal it holds by then), or finished.
   */
  datatype Phase =
    | LoggingIn
    | ListingAccounts(token: Json)
    | CreatingAccount(token: Json)
    | CreatingKey(token: Json, principal: Json)
    | Ended(end: Ending)

  /** The position of each phase, and of each request, in the script's order. */
  function PhaseRank(p: Phase): nat
  {
    match p
    case LoggingIn => 0
    case ListingAccounts(_) => 1
    case CreatingAccount(_) => 2
    case CreatingKey(_, _) => 3
    case Ended(_) => 4
  }

  function Rank(c: Call): nat
  {
    match c
    case Login(_, _, _) => 0
    case ListAccounts(_, _) => 1
    case CreateAccount(_, _, _, _) => 2
    case CreateKey(_, _, _, _) => 3
  }

  /** The request a phase sends. */
  function Request(endpoint: string, email: string, password: string, p: Phase): (c: Call)
    requires !p.Ended?
    ensures Rank(c) == PhaseRank(p)
    ensures !c.Login? ==> c.token == p.token
  {
    match p
    case LoggingIn => Login(endpoint, email, password)
    case ListingAccounts(token) => ListAccounts(endpoint, token)
    case CreatingAccount(token) => CreateAccount(endpoint, token, AccountName, AccountDescription)
    case CreatingKey(token, principal) => CreateKey(endpoint, token, principal, KeyDescription)
  }

  /** The message printed before `exit(1)` when a request gets a status other than 200. */
  function Refusal(p: Phase): string
  {
    match p
    case LoggingIn => "Failed to log in: "
    case ListingAccounts(_) => "Failed to get service accounts: "
    case CreatingAccount(_) => "Failed to create service account: "
    case _ => "Failed to create API key: "
  }

  /** After the listing: an empty principal (by `len`) means the account is created, a non-empty one is used. */
  function Settle(token: Json, principal: Json): (next: Phase)
    ensures Len(principal).None? <==> next == Ended(Crash)
    ensures Len(principal) == Some(0) <==> next == CreatingAccount(token)
    ensures Len(principal).Some? && Len(principal).value > 0 <==> next == CreatingKey(token, principal)
  {
    match Len(principal)
    case None => Ended(Crash)
    case Some(n) => if n == 0 then CreatingAccount(token) else CreatingKey(token, principal)
  }

  /** What a phase does with a 200 reply's text and body. */
  function Accept(p: Phase, text: string, body: Option<Json>): (next: Phase)
    requires !p.Ended?
    ensures PhaseRank(next) > PhaseRank(p)
    ensures p.LoggingIn? && next.ListingAccounts? ==> Token(body) == Some(next.token) && Truthy(next.token)
    ensures p.LoggingIn? && Token(body).Some? && Truthy(Token(body).value) ==> next == ListingAccounts(Token(body).value)
    ensures p.ListingAccounts? ==>
      next == (if Lookup(body).ScanCrash? then Ended(Crash) else Settle(p.token, Principal(Lookup(body))))
    ensures p.CreatingAccount? && !next.Ended? ==>
      body.Some? && Get(body.value, "id", JNull).Some?
      && next == CreatingKey(p.token, Get(body.value, "id", JNull).value) && Truthy(next.principal)
    ensures !p.LoggingIn? && !next.Ended? ==> next.token == p.token
    ensures next.Ended? && next.end.Printed? ==>
      p.CreatingKey? && body.Some? && Get(body.value, "key", JNull) == Some(next.end.key)
      && Get(body.value, "secret", JNull) == Some(next.end.secret) && Truthy(next.end.key) && Truthy(next.end.secret)
    ensures p.CreatingKey? && body.Some? && body.value.JObj? ==>
      var key := Get(body.value, "key", JNull).value;
      var secret := Get(body.value, "secret", JNull).value;
      (!Truthy(key) ==> next == Ended(Exit("Failed to extract API key " + text)))
      && (Truthy(key) && !Truthy(secret) ==> next == Ended(Exit("Failed to extract API secret " + text)))
      && (Truthy(key) && Truthy(secret) ==> next == Ended(Printed(key, secret)))
  {
    match p
    case LoggingIn =>
      (match Token(body)
       case None => Ended(Crash)
       case Some(token) => if !Truthy(token) then Ended(Exit("Failed to extract JWT token: " + text)) else ListingAccounts(token))
    case ListingAccounts(token) =>
      var s := Lookup(body);
      if s.ScanCrash? then Ended(Crash) else Settle(token, Principal(s))
    case CreatingAccount(token) =>
      (match body
       case None => Ended(Crash)
       case Some(b) =>
         match Get(b, "id", JNull)
         case None => Ended(Crash)
         case Some(id) => if !Truthy(id) then Ended(Exit("Failed to extract service account ID " + text)) else CreatingKey(token, id))
    case CreatingKey(_, _) =>
      match body
      case None => Ended(Crash)
      case Some(b) =>
        match Get(b, "key", JNull)
        case None => Ended(Crash)
        case Some(key) =>
          if !Truthy(key) then Ended(Exit("Failed to extract API key " + text))
          else
            var secret := Get(b, "secret", JNull).value;
            if !Truthy(secret) then Ended(Exit("Failed to extract API secret " + text))
            else Ended(Printed(key, secret))
  }

  /** One step: the reply to the phase's request decides the next phase; only a 200 lets the script go on. */
  function Advance(p: Phase, reply: Reply): (next: Phase)
    requires !p.Ended?
    ensures PhaseRank(next) > PhaseRank(p)
    ensures !Accepted(reply) ==> next.Ended? && !next.end.Printed?
    ensures reply.Response? && !Accepted(reply) ==> next == Ended(Exit(Refusal(p) + reply.text))
    ensures reply.NoConnection? ==> next == Ended(Crash)
    ensures Accepted(reply) ==> next == Accept(p, reply.text, reply.body)
  {
    match reply
    case NoConnection => Ended(Crash)
    case Response(status, text, body) =>
      if status != 200 then Ended(Exit(Refusal(p) + text)) else Accept(p, text, body)
  }

  /**
   * The script from phase `p` on, after the requests `calls`: each request
   * is sent, answered, and decides the next phase.
   */
  function Drive(endpoint: string, email: string, password: string, server: Call -> Reply, p: Phase, calls: seq<Call>): (r: Outcome)
    ensures |calls| <= |r.calls| <= |calls| + 4 - PhaseRank(p) && r.calls[..|calls|] == calls
    ensures p.Ended? ==> r == Outcome(calls, p.end)
    ensures !p.Ended? ==> |r.calls| > |calls| && r.calls[|calls|] == Request(endpoint, email, password, p)
    decreases 4 - PhaseRank(p)
  {
    if p.Ended? then Outcome(calls, p.end)
    else
      var c := Request(endpoint, email, password, p);
      var r := Drive(endpoint, email, password, server, Advance(p, server(c)), calls + [c]);
      assert r.calls[..|calls|] == (calls + [c])[..|calls|];
      r
  }

  /** The requests a run sends from phase `p` on come in strictly increasing order, from `p`'s own, with `p`'s token. */
  lemma {:induction false} DriveOrdered(endpoint: string, email: string, password: string, server: Call -> Reply, p: Phase, calls: seq<Call>)
    ensures var r := Drive(endpoint, email, password, server, p, calls);
      && (forall i :: |calls| <= i < |r.calls| ==> Rank(r.calls[i]) >= PhaseRank(p))
      && (forall i, j :: |calls| <= i < j < |r.calls| ==> Rank(r.calls[i]) < Rank(r.calls[j]))
      && (!p.LoggingIn? && !p.Ended? ==> forall i :: |calls| <= i < |r.calls| ==> r.calls[i].token == p.token)
    decreases 4 - PhaseRank(p)
  {
    if !p.Ended? {
      var c := Request(endpoint, email, password, p);
      var next := Advance(p, server(c));
      DriveOrdered(endpoint, email, password, server, next, calls + [c]);
      var r := Drive(endpoint, email, password, server, p, calls);
      assert r == Drive(endpoint, email, password, server, next, calls + [c]);
      assert r.calls[|calls|] == c;
    }
  }

  /** From phase `p` on, every reply but the last is a 200. */
  lemma {:induction false} DriveAccepted(endpoint: string, email: string, password: string, server: Call -> Reply, p: Phase, calls: seq<Call>)
    ensures var r := Drive(endpoint, email, password, server, p, calls);
      forall i :: |calls| <= i < |r.calls| - 1 ==> Accepted(server(r.calls[i]))
    decreases 4 - PhaseRank(p)
  {
    if !p.Ended? {
      var c := Request(endpoint, email, password, p);
      var next := Advance(p, server(c));
      DriveAccepted(endpoint, email, password, server, next, calls + [c]);
      var r := Drive(endpoint, email, password, server, p, calls);
      assert r == Drive(endpoint, email, password, server, next, calls + [c]);
      if next.Ended? {
        assert r.calls == calls + [c];
      } else {
        assert Accepted(server(c)) && r.calls[|calls|] == c;
      }
    }
  }

  /** The last reply of a run decides it: a key is printed only after a 200, and another status ends with `exit(1)`. */
  lemma {:induction false} DriveLastReply(endpoint: string, email: string, password: string, server: Call -> Reply, p: Phase, calls: seq<Call>)
    ensures var r := Drive(endpoint, email, password, server, p, calls);
      |r.calls| > |calls| ==>
        var last := server(r.calls[|r.calls| - 1]);
        (r.end.Printed? ==> Accepted(last)) && (last.Response? && !Accepted(last) ==> r.end.Exit?)
    decreases 4 - PhaseRank(p)
  {
    if !p.Ended? {
      var c := Request(endpoint, email, password, p);
      var next := Advance(p, server(c));
      DriveLastReply(endpoint, email, password, server, next, calls + [c]);
      var r := Drive(endpoint, email, password, server, p, calls);
      assert r == Drive(endpoint, email, password, server, next, calls + [c]);
      if next.Ended? {
        assert r.calls == calls + [c] && r.end == next.end;
      }
    }
  }

  /** One run of the script: login first, with the resolved endpoint. */
  function Session(env: Option<string>, email: string, password: string, server: Call -> Reply): (r: Outcome)
    ensures 1 <= |r.calls| <= 4 && r.calls[0] == Login(Endpoint(env), email, password)
  {
    Drive(Endpoint(env), email, password, server, LoggingIn, [])
  }

  /** What a successful run prints: the banner, then `print(label, value)` for the key and then the secret. */
  function Report(key: Json, secret: Json): (lines: seq<(string, Option<Json>)>)
    ensures |lines| == 3 && lines[1] == ("API key   :", Some(key)) && lines[2] == ("API secret:", Some(secret))
  {
    [(Banner, None), ("API key   :", Some(key)), ("API secret:", Some(secret))]
  }

  /**
   * The requests come in the script's order, at most one of each kind,
   * the login first and every later one with the login's token.
   */
  lemma SessionOrdered(env: Option<string>, email: string, password: string, server: Call -> Reply)
    ensures var r := Session(env, email, password, server);
      && r.calls[0].Login?
      && (forall i, j :: 0 <= i < j < |r.calls| ==> Rank(r.calls[i]) < Rank(r.calls[j]))
      && (forall i, j :: 1 <= i < |r.calls| && 1 <= j < |r.calls| ==> r.calls[i].token == r.calls[j].token)
  {
    var endpoint := Endpoint(env);
    var login := Login(endpoint, email, password);
    DriveOrdered(endpoint, email, password, server, LoggingIn, []);
    var p1 := Advance(LoggingIn, server(login));
    AfterLogin(env, email, password, server);
    DriveOrdered(endpoint, email, password, server, p1, [login]);
  }

  /**
   * Every reply but the last was a 200; a key is printed only after a 200,
   * and a last reply with another status ends the run with `exit(1)`.
   */
  lemma SessionFailsFast(env: Option<string>, email: string, password: string, server: Call -> Reply)
    ensures var r := Session(env, email, password, server);
      && (forall i :: 0 <= i < |r.calls| - 1 ==> Accepted(server(r.calls[i])))
      && (r.end.Printed? ==> Accepted(server(r.calls[|r.calls| - 1])))
      && (server(r.calls[|r.calls| - 1]).Response? && !Accepted(server(r.calls[|r.calls| - 1])) ==> r.end.Exit?)
  {
    var endpoint := Endpoint(env);
    DriveAccepted(endpoint, email, password, server, LoggingIn, []);
    DriveLastReply(endpoint, email, password, server, LoggingIn, []);
  }

  /** The login went through: a 200 whose `tokens.jwt` is truthy. */
  predicate LoggedIn(env: Option<string>, email: string, password: string, server: Call -> Reply)
  {
    var reply := server(Login(Endpoint(env), email, password));
    Accepted(reply) && Token(reply.body).Some? && Truthy(Token(reply.body).value)
  }

  function TokenOf(env: Option<string>, email: string, password: string, server: Call -> Reply): Json
    requires LoggedIn(env, email, password, server)
  {
    Token(server(Login(Endpoint(env), email, password)).body).value
  }

  /** The listing went through and the loop over it did not raise. */
  predicate Listed(env: Option<string>, email: string, password: string, server: Call -> Reply)
  {
    && LoggedIn(env, email, password, server)
    && var reply := server(ListAccounts(Endpoint(env), TokenOf(env, email, password, server)));
       Accepted(reply) && !Lookup(reply.body).ScanCrash?
  }

  /** What the loop over the listing settled. */
  function Listing(env: Option<string>, email: string, password: string, server: Call -> Reply): Scan
    requires Listed(env, email, password, server)
  {
    Lookup(server(ListAccounts(Endpoint(env), TokenOf(env, email, password, server))).body)
  }

  /** The phase after the login: the listing exactly when the login went through. */
  lemma AfterLogin(env: Option<string>, email: string, password: string, server: Call -> Reply)
    ensures [] + [Login(Endpoint(env), email, password)] == [Login(Endpoint(env), email, password)]
    ensures var p1 := Advance(LoggingIn, server(Login(Endpoint(env), email, password)));
      && Session(env, email, password, server) == Drive(Endpoint(env), email, password, server, p1, [Login(Endpoint(env), email, password)])
      && (LoggedIn(env, email, password, server) <==> p1.ListingAccounts?)
      && (LoggedIn(env, email, password, server) ==> p1 == ListingAccounts(TokenOf(env, email, password, server)))
  {
  }

  /** The phase after the listing, once logged in. */
  lemma AfterListing(env: Option<string>, email: string, password: string, server: Call -> Reply)
    requires LoggedIn(env, email, password, server)
    ensures var endpoint := Endpoint(env);
      var token := TokenOf(env, email, password, server);
      var calls := [Login(endpoint, email, password), ListAccounts(endpoint, token)];
      var p2 := Advance(ListingAccounts(token), server(ListAccounts(endpoint, token)));
      && Session(env, email, password, server) == Drive(endpoint, email, password, server, p2, calls)
      && (Listed(env, email, password, server) ==>
            var principal := Principal(Listing(env, email, password, server));
            && (Len(principal).None? ==> p2 == Ended(Crash))
            && (Len(principal) == Some(0) ==> p2 == CreatingAccount(token))
            && (Len(principal).Some? && Len(principal).value > 0 ==> p2 == CreatingKey(token, principal)))
      && (!Listed(env, email, password, server) ==> p2.Ended?)
  {
    AfterLogin(env, email, password, server);
    var endpoint := Endpoint(env);
    var login := Login(endpoint, email, password);
    var token := TokenOf(env, email, password, server);
    var list := ListAccounts(endpoint, token);
    var p2 := Advance(ListingAccounts(token), server(list));
    assert [login] + [list] == [login, list];
    assert Drive(endpoint, email, password, server, ListingAccounts(token), [login])
        == Drive(endpoint, email, password, server, p2, [login, list]);
    if Listed(env, email, password, server) {
      assert p2 == Settle(token, Principal(Listing(env, email, password, server)));
    }
  }

  /** The account is created exactly when the listing left the principal with length 0: no match, or a match whose id is "". */
  lemma AccountCreatedIff(env: Option<string>, email: string, password: string, server: Call -> Reply)
    ensures var r := Session(env, email, password, server);
      (exists i :: 0 <= i < |r.calls| && r.calls[i].CreateAccount?)
      <==> (Listed(env, email, password, server) && Len(Principal(Listing(env, email, password, server))) == Some(0))
  {
    var r := Session(env, email, password, server);
    AfterLogin(env, email, password, server);
    if LoggedIn(env, email, password, server) {
      AfterListing(env, email, password, server);
      var token := TokenOf(env, email, password, server);
      var p2 := Advance(ListingAccounts(token), server(ListAccounts(Endpoint(env), token)));
      if p2.CreatingAccount? {
        assert r.calls[2].CreateAccount?;
      } else {
        assert forall i :: 2 <= i < |r.calls| ==> Rank(r.calls[i]) == 3;
        assert Rank(r.calls[1]) == 1;
      }
    } else {
      assert |r.calls| == 1;
    }
  }

  /** An account named `terraform-provider` with a non-empty id is reused: the key is requested for it straight away. */
  lemma ExistingAccountReused(env: Option<string>, email: string, password: string, server: Call -> Reply)
    requires Listed(env, email, password, server)
    requires Listing(env, email, password, server).Found?
    requires Len(Listing(env, email, password, server).id).Some? && Len(Listing(env, email, password, server).id).value > 0
    ensures Session(env, email, password, server).calls
            == [Login(Endpoint(env), email, password),
                ListAccounts(Endpoint(env), TokenOf(env, email, password, server)),
                CreateKey(Endpoint(env), TokenOf(env, email, password, server), Listing(env, email, password, server).id, KeyDescription)]
  {
    AfterListing(env, email, password, server);
  }

  /** A missing `service_accounts` field reads as an empty list: nothing matches. */
  lemma MissingListIsEmpty(fields: map<string, Json>)
    requires "service_accounts" !in fields
    ensures Lookup(Some(JObj(fields))) == NotFound
  {
  }

  /** Later entries never change a match: the first account with the name wins. */
  lemma {:induction false} FirstMatchWins(items: seq<Json>, more: seq<Json>)
    requires ScanAccounts(items).Found?
    ensures ScanAccounts(items + more) == ScanAccounts(items)
    decreases |items|
  {
    if !Named(items[0]) {
      assert (items + more)[1..] == items[1..] + more;
      FirstMatchWins(items[1..], more);
    }
  }

  /**
   * A printed key was requested, last, for the principal the listing
   * settled or for the account just created, whose id was truthy.
   */
  lemma IssuedKeyForPrincipal(env: Option<string>, email: string, password: string, server: Call -> Reply)
    requires Session(env, email, password, server).end.Printed?
    ensures var r := Session(env, email, password, server);
      && Listed(env, email, password, server)
      && r.calls[|r.calls| - 1].CreateKey?
      && (Len(Principal(Listing(env, email, password, server))) == Some(0) ==>
            |r.calls| == 4 && Truthy(r.calls[3].principal))
      && (Len(Principal(Listing(env, email, password, server))) != Some(0) ==>
            r.calls[|r.calls| - 1].principal == Principal(Listing(env, email, password, server)))
  {
    var r := Session(env, email, password, server);
    AfterLogin(env, email, password, server);
    AfterListing(env, email, password, server);
    var endpoint := Endpoint(env);
    var token := TokenOf(env, email, password, server);
    var p2 := Advance(ListingAccounts(token), server(ListAccounts(endpoint, token)));
    if p2.CreatingAccount? {
      var create := CreateAccount(endpoint, token, AccountName, AccountDescription);
      var p3 := Advance(p2, server(create));
      assert r == Drive(endpoint, email, password, server, p3, [Login(endpoint, email, password), ListAccounts(endpoint, token), create]);
    }
  }
}
