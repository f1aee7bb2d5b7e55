/**
 * pkg/httpx: the request builder the pkg SDK sends its calls through. A
 * client holds a base URL and default headers; each request starts from a
 * copy of those headers, collects query parameters, a body and any errors
 * met while building it, and refuses to send while it holds an error.
 */
module Httpx {
  import opened Wrappers
  import opened GoErrors
  import opened Bytes
  import Text

  /** A header field name character: the token characters of section 3.2.6 of RFC 7230. */
  predicate IsTokenChar(c: char)
  {
    || 'a' <= c <= 'z' || 'A' <= c <= 'Z' || '0' <= c <= '9'
    || c == '!' || c == '#' || c == '$' || c == '%' || c == '&' || c == '\'' || c == '*' || c == '+'
    || c == '-' || c == '.' || c == '^' || c == '_' || c == '`' || c == '|' || c == '~'
  }

  predicate IsToken(s: string)
  {
    forall i :: 0 <= i < |s| ==> IsTokenChar(s[i])
  }

  /** The case a canonical key gives position i of s: upper at the start and after '-', lower elsewhere. */
  function CanonicalChar(s: string, i: nat): char
    requires i < |s|
  {
    if i == 0 || s[i - 1] == '-' then Text.UpperAscii(s[i]) else Text.LowerAscii(s[i])
  }

  /** The recasing loop: upper tells whether the previous character was '-' (or there was none). */
  function Recase(s: string, upper: bool): (r: string)
    ensures |r| == |s|
    decreases |s|
  {
    if |s| == 0 then ""
    else
      var c := if upper then Text.UpperAscii(s[0]) else Text.LowerAscii(s[0]);
      [c] + Recase(s[1..], c == '-')
  }

  lemma {:induction false} RecaseAt(s: string, upper: bool, i: nat)
    requires i < |s|
    ensures Recase(s, upper)[i] == if i == 0 && !upper then Text.LowerAscii(s[0]) else CanonicalChar(s, i)
    decreases |s|
  {
    if i > 0 {
      var c := if upper then Text.UpperAscii(s[0]) else Text.LowerAscii(s[0]);
      assert (c == '-') == (s[0] == '-');
      RecaseAt(s[1..], c == '-', i - 1);
      assert s[1..][i - 1] == s[i];
      if i > 1 {
        assert s[1..][i - 2] == s[i - 1];
      }
    }
  }

  /** Recasing keeps every character up to the case of its letters. */
  lemma {:induction false} RecaseFolds(s: string, upper: bool)
    ensures forall i :: 0 <= i < |s| ==> Text.LowerAscii(Recase(s, upper)[i]) == Text.LowerAscii(s[i])
    decreases |s|
  {
    if |s| > 0 {
      var c := if upper then Text.UpperAscii(s[0]) else Text.LowerAscii(s[0]);
      RecaseFolds(s[1..], c == '-');
      forall i | 1 <= i < |s|
        ensures Text.LowerAscii(Recase(s, upper)[i]) == Text.LowerAscii(s[i])
      {
        assert Recase(s, upper)[i] == Recase(s[1..], c == '-')[i - 1];
        assert s[1..][i - 1] == s[i];
      }
    }
  }

  /**
   * textproto.CanonicalMIMEHeaderKey, which http.Header applies to every
   * key: a key made of token characters gets its letters upper-cased at the
   * start and after each '-', lower-cased elsewhere (CanonicalKeyAt); any
   * other key (one with a space or a non-ASCII character, say) is kept as
   * it is.
   */
  function CanonicalKey(key: string): (r: string)
    ensures |r| == |key|
    ensures forall i :: 0 <= i < |key| ==> Text.LowerAscii(r[i]) == Text.LowerAscii(key[i])
    ensures !IsToken(key) ==> r == key
  {
    if IsToken(key) then
      RecaseFolds(key, true);
      Recase(key, true)
    else key
  }

  /** Position i of a token key's canonical form. */
  lemma CanonicalKeyAt(key: string, i: nat)
    requires IsToken(key) && i < |key|
    ensures CanonicalKey(key)[i] == CanonicalChar(key, i)
  {
    RecaseAt(key, true, i);
  }

  /** A token key already cased as CanonicalChar says is its own canonical form. */
  lemma CanonicalKeyFixed(key: string)
    requires IsToken(key)
    requires forall i :: 0 <= i < |key| ==> key[i] == CanonicalChar(key, i)
    ensures CanonicalKey(key) == key
  {
    forall i | 0 <= i < |key|
      ensures CanonicalKey(key)[i] == key[i]
    {
      CanonicalKeyAt(key, i);
    }
  }

  /** A canonical key is its own canonical form. */
  lemma CanonicalKeyIdempotent(key: string)
    ensures CanonicalKey(CanonicalKey(key)) == CanonicalKey(key)
  {
    var r := CanonicalKey(key);
    if IsToken(key) {
      assert IsToken(r) by {
        forall i | 0 <= i < |r|
          ensures IsTokenChar(r[i])
        {
          CanonicalKeyAt(key, i);
        }
      }
      forall i | 0 <= i < |r|
        ensures CanonicalKey(r)[i] == r[i]
      {
        CanonicalKeyAt(key, i);
        CanonicalKeyAt(r, i);
        if i > 0 {
          CanonicalKeyAt(key, i - 1);
        }
      }
    }
  }

  /** Keys that differ only in the case of their letters name the same header. */
  lemma CanonicalKeyIgnoresCase(a: string, b: string)
    requires |a| == |b| && IsToken(a)
    requires forall i :: 0 <= i < |a| ==> Text.LowerAscii(a[i]) == Text.LowerAscii(b[i])
    ensures CanonicalKey(a) == CanonicalKey(b)
  {
    assert IsToken(b) by {
      forall i | 0 <= i < |b|
        ensures IsTokenChar(b[i])
      {
        assert Text.LowerAscii(a[i]) == Text.LowerAscii(b[i]);
      }
    }
    forall i | 0 <= i < |a|
      ensures CanonicalKey(a)[i] == CanonicalKey(b)[i]
    {
      CanonicalKeyAt(a, i);
      CanonicalKeyAt(b, i);
      assert Text.LowerAscii(a[i]) == Text.LowerAscii(b[i]);
      if i > 0 {
        assert Text.LowerAscii(a[i - 1]) == Text.LowerAscii(b[i - 1]);
      }
    }
  }

  /** The headers Add and Del build: every key is canonical and holds at least one value. */
  predicate WellFormed(h: map<string, seq<string>>)
  {
    forall k :: k in h ==> |h[k]| > 0 && CanonicalKey(k) == k
  }

  /** http.Header, as Add and Del build it from an empty one. */
  type Header = h: map<string, seq<string>> | WellFormed(h) witness map[]

  /** Header.Values: the values held under the key's canonical form, empty when there are none. */
  function Values(h: Header, key: string): seq<string>
  {
    var k := CanonicalKey(key);
    if k in h then h[k] else []
  }

  /** Header.Add: appends val after the values already held under the key's canonical form. */
  function Add(h: Header, key: string, val: string): (r: Header)
    ensures Values(r, key) == Values(h, key) + [val]
    ensures forall k :: CanonicalKey(k) != CanonicalKey(key) ==> Values(r, k) == Values(h, k)
    ensures r.Keys == h.Keys + {CanonicalKey(key)}
  {
    CanonicalKeyIdempotent(key);
    var k := CanonicalKey(key);
    h[k := Values(h, key) + [val]]
  }

  /** Header.Del: drops every value held under the key's canonical form. */
  function Del(h: Header, key: string): (r: Header)
    ensures CanonicalKey(key) !in r && Values(r, key) == []
    ensures forall k :: CanonicalKey(k) != CanonicalKey(key) ==> Values(r, k) == Values(h, k)
    ensures r.Keys == h.Keys - {CanonicalKey(key)}
  {
    h - {CanonicalKey(key)}
  }

  /** A key and its canonical form read the same values. */
  lemma ValuesByCanonicalKey(h: Header, key: string)
    ensures Values(h, CanonicalKey(key)) == Values(h, key)
  {
    CanonicalKeyIdempotent(key);
  }

  /** Add extends exactly the entry of the key's canonical form. */
  lemma AddEntry(h: Header, key: string, val: string)
    ensures Add(h, key, val) == h[CanonicalKey(key) := Values(h, key) + [val]]
  {
  }

  /** "x-api-key" is all token characters, and its canonical form is "X-Api-Key". */
  lemma ApiKeyCanonical(key: string)
    requires key == "x-api-key"
    ensures CanonicalKey(key) == "X-Api-Key"
  {
    assert IsToken(key) by {
      forall i | 0 <= i < |key|
        ensures IsTokenChar(key[i])
      {
        assert 'a' <= key[i] <= 'z' || key[i] == '-';
      }
    }
    CanonicalKeyAt(key, 0);
    CanonicalKeyAt(key, 1);
    CanonicalKeyAt(key, 2);
    CanonicalKeyAt(key, 3);
    CanonicalKeyAt(key, 4);
    CanonicalKeyAt(key, 5);
    CanonicalKeyAt(key, 6);
    CanonicalKeyAt(key, 7);
    CanonicalKeyAt(key, 8);
  }

  /** Adding under a lower-case key files the value under the canonical key. */
  lemma AddCanonicalises(val: string)
    ensures Add(map[], "x-api-key", val) == map["X-Api-Key" := [val]]
  {
    var key := "x-api-key";
    ApiKeyCanonical(key);
    var empty: Header := map[];
    AddEntry(empty, key, val);
    assert Values(empty, key) + [val] == [val];
  }

  /** The client: a base without trailing slashes and its default headers (the delegate is not modelled). */
  datatype HttpClient = HttpClient(base: string, headers: Header)

  /**
   * NewHTTPClient: every trailing '/' of the base goes, not just one; a
   * base without one is kept as given. The client starts without headers.
   */
  function NewHTTPClient(base: string): (c: HttpClient)
    ensures !Text.EndsWith(c.base, '/')
    ensures |c.base| <= |base| && base == c.base + base[|c.base|..]
    ensures forall i :: |c.base| <= i < |base| ==> base[i] == '/'
    ensures !Text.EndsWith(base, '/') ==> c.base == base
    ensures c.headers == map[]
  {
    var pathBase := if Text.EndsWith(base, '/') then Text.TrimRight(base, '/') else base;
    HttpClient(pathBase, map[])
  }

  /** Normalising an already normalised base changes nothing. */
  lemma NewHTTPClientIdempotent(base: string)
    ensures NewHTTPClient(NewHTTPClient(base).base) == NewHTTPClient(base)
  {
  }

  /** SetHeader: adds a value and keeps the earlier ones for the key. */
  function SetHeader(c: HttpClient, key: string, val: string): (r: HttpClient)
    ensures r.base == c.base
    ensures Values(r.headers, key) == Values(c.headers, key) + [val]
    ensures forall k :: CanonicalKey(k) != CanonicalKey(key) ==> Values(r.headers, k) == Values(c.headers, k)
    ensures r.headers.Keys == c.headers.Keys + {CanonicalKey(key)}
  {
    c.(headers := Add(c.headers, key, val))
  }

  /** UnsetHeader: removes all values of the key and nothing else. */
  function UnsetHeader(c: HttpClient, key: string): (r: HttpClient)
    ensures r.base == c.base
    ensures Values(r.headers, key) == []
    ensures forall k :: CanonicalKey(k) != CanonicalKey(key) ==> Values(r.headers, k) == Values(c.headers, k)
    ensures r.headers.Keys == c.headers.Keys - {CanonicalKey(key)}
  {
    c.(headers := Del(c.headers, key))
  }

  /** A request being built; the body is the marshalled JSON, when one was set. */
  datatype RequestContext = RequestContext(
    client: HttpClient,
    verb: string,
    path: string,
    body: Option<seq<Byte>>,
    headers: Header,
    query: map<string, string>,
    errors: seq<Error>)

  /** The inner loop of the copy: adds the values one by one, in order, under the key. */
  function AddAll(h: Header, key: string, vals: seq<string>): (r: Header)
    ensures |vals| == 0 ==> r == h
    ensures |vals| > 0 ==> r == h[CanonicalKey(key) := Values(h, key) + vals]
    decreases |vals|
  {
    if |vals| == 0 then h
    else
      var next := Add(h, key, vals[0]);
      AddEntry(h, key, vals[0]);
      assert Values(next, key) == Values(h, key) + [vals[0]];
      assert Values(h, key) + [vals[0]] + vals[1..] == Values(h, key) + vals;
      var c := CanonicalKey(key);
      assert next[c := Values(h, key) + vals] == h[c := Values(h, key) + vals];
      assert |vals| == 1 ==> vals == [vals[0]];
      AddAll(next, key, vals[1..])
  }

  /**
   * The header copy at the start of a request: each value of each key is
   * added again, in order, to a fresh header. The keys are canonical
   * already, so the copy holds the same values under the same keys.
   */
  method CopyHeader(h: Header) returns (r: Header)
    ensures r.Keys == h.Keys
    ensures forall k :: k in r ==> r[k] == h[k]
  {
    r := map[];
    var keys := h.Keys;
    while keys != {}
      invariant keys <= h.Keys
      invariant forall k :: k in r <==> k in h && k !in keys
      invariant forall k :: k in r ==> r[k] == h[k]
      decreases keys
    {
      var k :| k in keys;
      assert CanonicalKey(k) == k && k !in r;
      r := AddAll(r, k, h[k]);
      keys := keys - {k};
    }
  }

  /** startRequest: the given method (verb) and path, a copy of the client's headers, no query, no errors. */
  method StartRequest(c: HttpClient, verb: string, path: string) returns (rc: RequestContext)
    ensures rc.client == c && rc.verb == verb && rc.path == path
    ensures rc.query == map[] && rc.errors == [] && rc.body.None?
    ensures rc.headers == c.headers
  {
    var headers := CopyHeader(c.headers);
    rc := RequestContext(c, verb, path, None, headers, map[], []);
  }

  /**
   * Get, Post, Put and Delete: startRequest with their method. The path
   * arrives already formatted, as fmt.Sprintf(path, args...) gives it.
   */
  method Get(c: HttpClient, path: string) returns (rc: RequestContext)
    ensures rc.verb == "GET" && rc.path == path && rc.query == map[] && rc.errors == []
    ensures forall k :: Values(rc.headers, k) == Values(c.headers, k)
  {
    rc := StartRequest(c, "GET", path);
  }

  method Post(c: HttpClient, path: string) returns (rc: RequestContext)
    ensures rc.verb == "POST" && rc.path == path && rc.query == map[] && rc.errors == []
    ensures forall k :: Values(rc.headers, k) == Values(c.headers, k)
  {
    rc := StartRequest(c, "POST", path);
  }

  method Put(c: HttpClient, path: string) returns (rc: RequestContext)
    ensures rc.verb == "PUT" && rc.path == path && rc.query == map[] && rc.errors == []
    ensures forall k :: Values(rc.headers, k) == Values(c.headers, k)
  {
    rc := StartRequest(c, "PUT", path);
  }

  method Delete(c: HttpClient, path: string) returns (rc: RequestContext)
    ensures rc.verb == "DELETE" && rc.path == path && rc.query == map[] && rc.errors == []
    ensures forall k :: Values(rc.headers, k) == Values(c.headers, k)
  {
    rc := StartRequest(c, "DELETE", path);
  }

  /** handleErr: a nil error is ignored, any other is appended after the earlier ones. */
  function HandleErr(rc: RequestContext, err: Option<Error>): (r: RequestContext)
    ensures err.None? ==> r == rc
    ensures err.Some? ==> r.errors == rc.errors + [err.value] && r == rc.(errors := r.errors)
  {
    if err.None? then rc else rc.(errors := rc.errors + [err.value])
  }

  /** WithQuery: sets one parameter; a later value for the same key replaces the earlier. */
  function WithQuery(rc: RequestContext, key: string, val: string): (r: RequestContext)
    ensures key in r.query && r.query[key] == val
    ensures forall k :: k != key ==> (k in r.query <==> k in rc.query)
    ensures forall k :: k != key && k in rc.query ==> r.query[k] == rc.query[k]
    ensures r == rc.(query := r.query)
  {
    rc.(query := rc.query[key := val])
  }

  /** The last write to a query key wins. */
  lemma WithQueryLastWins(rc: RequestContext, key: string, v1: string, v2: string)
    ensures WithQuery(WithQuery(rc, key, v1), key, v2) == WithQuery(rc, key, v2)
  {
  }

  /**
   * WithJSON, with json.Marshal's outcome as a parameter: a marshalling
   * error is recorded and leaves the body alone; otherwise the bytes become
   * the body.
   */
  function WithJSON(rc: RequestContext, marshalled: Result<seq<Byte>, Error>): (r: RequestContext)
    ensures marshalled.Err? ==> r == rc.(errors := rc.errors + [marshalled.error])
    ensures marshalled.Ok? ==> r == rc.(body := Some(marshalled.value))
  {
    match marshalled
    case Err(e) => HandleErr(rc, Some(e))
    case Ok(raw) => HandleErr(rc, None).(body := Some(raw))
  }

  /** WithHeader: adds a value to the request's own headers; the client keeps its own. */
  function WithHeader(rc: RequestContext, key: string, val: string): (r: RequestContext)
    ensures Values(r.headers, key) == Values(rc.headers, key) + [val]
    ensures forall k :: CanonicalKey(k) != CanonicalKey(key) ==> Values(r.headers, k) == Values(rc.headers, k)
    ensures r.headers.Keys == rc.headers.Keys + {CanonicalKey(key)}
    ensures r.client == rc.client
  {
    rc.(headers := Add(rc.headers, key, val))
  }

  /** Each recorded error's text followed by ';', in the order they were recorded. */
  function ErrorList(errs: seq<Error>): (r: string)
    ensures |errs| > 0 ==> |r| > 0 && r[|r| - 1] == ';'
  {
    if |errs| == 0 then "" else ErrorList(errs[..|errs| - 1]) + ErrorText(errs[|errs| - 1]) + ";"
  }

  /** What Do reaches before the network: a construction error, or a request ready to send. */
  datatype Outcome = ConstructError(err: Error) | Ready(rc: RequestContext)

  const ConstructPrefix := "failed to construct request: "

  /**
   * Do, up to the point where the request leaves: with any recorded error
   * it fails before the delegate is called, with the prefix and each error
   * followed by ';'.
   */
  function Do(rc: RequestContext): (r: Outcome)
    ensures r.ConstructError? <==> |rc.errors| > 0
    ensures r.ConstructError? ==> r.err == Plain(ConstructPrefix + ErrorList(rc.errors))
    ensures r.Ready? ==> r.rc == rc
  {
    if |rc.errors| != 0 then ConstructError(Plain(ConstructPrefix + ErrorList(rc.errors)))
    else Ready(rc)
  }

  /** Recording an error means the request cannot be sent, and its text ends the message. */
  lemma HandledErrorStopsDo(rc: RequestContext, e: Error)
    ensures var r := Do(HandleErr(rc, Some(e)));
      r.ConstructError? && r.err.text == ConstructPrefix + ErrorList(rc.errors) + ErrorText(e) + ";"
  {
    var errs := rc.errors + [e];
    assert errs[..|errs| - 1] == rc.errors;
  }

  /** The error of a context whose timeout passed (context.DeadlineExceeded). */
  const DeadlineExceeded := Plain("context deadline exceeded")

  /**
   * What Poll returns, given what Do gave on each tick that fired before the
   * deadline (an error, or the response's status code): the first send
   * error or callback error ends the poll with it, the first callback true
   * ends it with nil, and running out of ticks gives the deadline error.
   */
  function PollResult(sends: seq<Result<int, Error>>, onResponse: int -> Result<bool, Error>): (r: Option<Error>)
    decreases |sends|
  {
    if |sends| == 0 then Some(DeadlineExceeded)
    else match sends[0]
      case Err(e) => Some(e)
      case Ok(status) =>
        match onResponse(status)
        case Err(e) => Some(e)
        case Ok(true) => None
        case Ok(false) => PollResult(sends[1..], onResponse)
  }

  /** Tick i was answered and the callback asked to keep waiting. */
  predicate KeptWaiting(sends: seq<Result<int, Error>>, onResponse: int -> Result<bool, Error>, i: nat)
    requires i < |sends|
  {
    sends[i].Ok? && onResponse(sends[i].value) == Ok(false)
  }

  /**
   * Poll: one Do per tick, in order, until a tick decides. The number of
   * requests sent is returned with the outcome; a success means every
   * earlier tick kept waiting and the last one was answered with true.
   */
  method Poll(sends: seq<Result<int, Error>>, onResponse: int -> Result<bool, Error>) returns (r: Option<Error>, sent: nat)
    ensures r == PollResult(sends, onResponse)
    ensures sent <= |sends|
    ensures forall j :: 0 <= j < sent - 1 ==> KeptWaiting(sends, onResponse, j)
    ensures r.None? ==> sent >= 1 && sends[sent - 1].Ok? && onResponse(sends[sent - 1].value) == Ok(true)
    ensures (forall j :: 0 <= j < |sends| ==> KeptWaiting(sends, onResponse, j)) ==> r == Some(DeadlineExceeded) && sent == |sends|
  {
    var i := 0;
    while i < |sends|
      invariant 0 <= i <= |sends|
      invariant forall j :: 0 <= j < i ==> KeptWaiting(sends, onResponse, j)
      invariant PollResult(sends, onResponse) == PollResult(sends[i..], onResponse)
    {
      assert sends[i..][1..] == sends[i + 1..];
      if !KeptWaiting(sends, onResponse, i) {
        match sends[i]
        case Err(e) =>
          return Some(e), i + 1;
        case Ok(status) =>
          match onResponse(status)
          case Err(e) =>
            return Some(e), i + 1;
          case Ok(b) =>
            return None, i + 1;
      }
      i := i + 1;
    }
    return Some(DeadlineExceeded), |sends|;
  }

  /** The ", expecting: %v" rendering of the accepted codes: "[200 202]". */
  function FormatCodes(codes: seq<int>): (r: string)
    ensures |r| >= 2 && r[0] == '[' && r[|r| - 1] == ']'
  {
    "[" + SpaceSeparated(codes) + "]"
  }

  function SpaceSeparated(codes: seq<int>): string
  {
    if |codes| == 0 then ""
    else if |codes| == 1 then Text.Decimal(codes[0])
    else SpaceSeparated(codes[..|codes| - 1]) + " " + Text.Decimal(codes[|codes| - 1])
  }

  /** The failure text of ExpectStatusWithMessage; the message, when there is one, goes in front. */
  function StatusText(msg: string, status: int, codes: seq<int>): (r: string)
  {
    var tail := "unexpected status code: " + Text.Decimal(status) + ", expecting: " + FormatCodes(codes);
    if |msg| == 0 then tail else msg + ", " + tail
  }

  /**
   * ExpectStatusWithMessage: nil exactly when the status is among the
   * accepted codes; the codes are tried in order until one matches.
   */
  method ExpectStatusWithMessage(status: int, msg: string, codes: seq<int>) returns (r: Option<Error>)
    ensures r.None? <==> status in codes
    ensures r.Some? ==> r.value == Plain(StatusText(msg, status, codes))
  {
    for i := 0 to |codes|
      invariant status !in codes[..i]
    {
      if status == codes[i] {
        return None;
      }
      assert codes[..i + 1] == codes[..i] + [codes[i]];
    }
    assert codes[..|codes|] == codes;
    r := Some(Plain(StatusText(msg, status, codes)));
  }

  /** ExpectStatus: the same check without a message; with no codes it always fails. */
  method ExpectStatus(status: int, codes: seq<int>) returns (r: Option<Error>)
    ensures r.None? <==> status in codes
    ensures r.Some? ==> r.value == Plain("unexpected status code: " + Text.Decimal(status) + ", expecting: " + FormatCodes(codes))
    ensures codes == [] ==> r.Some?
  {
    r := ExpectStatusWithMessage(status, "", codes);
  }

  /** A non-empty message is kept at the very front of the failure text. */
  lemma MessageLeadsStatusText(msg: string, status: int, codes: seq<int>)
    requires |msg| > 0
    ensures var t := StatusText(msg, status, codes); |t| > |msg| && t[..|msg|] == msg
  {
  }
}
