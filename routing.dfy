/**
 * The request parsing both cloud functions share: the path and method taken
 * from the event, the query string cut off, the `path` query override for
 * GET, and the dispatch of a path and method to a route.
 */
module Routing {
  import opened Wrappers
  import opened Json

  /** The first index of `c` in `s`, if there is one. */
  function IndexOf(s: string, c: char): (r: Option<nat>)
    ensures r.Some? ==> r.value < |s| && s[r.value] == c && c !in s[..r.value]
    ensures r.None? <==> c !in s
  {
    if |s| == 0 then None
    else if s[0] == c then Some(0)
    else
      match IndexOf(s[1..], c)
      case None => None
      case Some(i) =>
        assert s[..i + 1] == [s[0]] + s[1..][..i];
        Some(i + 1)
  }

  /** The index the scan finds is the first occurrence. */
  lemma IndexOfFirst(s: string, c: char, j: nat)
    requires j < |s| && s[j] == c
    requires forall i :: 0 <= i < j ==> s[i] != c
    ensures IndexOf(s, c) == Some(j)
  {
    assert c in s by { assert s[j] in s; }
    var k := IndexOf(s, c).value;
    forall i | 0 <= i < k ensures s[i] != c {
      assert s[..k][i] == s[i];
    }
  }

  /** Splitting at a first separator: the piece before it, then the split of the rest. */
  lemma SplitAt(a: string, c: char, b: string)
    requires c !in a
    ensures Split(a + [c] + b, c) == [a] + Split(b, c)
  {
    var s := a + [c] + b;
    forall i | 0 <= i < |a| ensures s[i] != c {
      assert s[i] == a[i];
    }
    IndexOfFirst(s, c, |a|);
    assert s[..|a|] == a;
    assert s[|a| + 1..] == b;
  }

  /** JavaScript `s.split(c)` for a one-character separator. */
  function Split(s: string, c: char): (parts: seq<string>)
    ensures |parts| >= 1
    ensures forall i :: 0 <= i < |parts| ==> c !in parts[i]
    ensures c !in s ==> parts == [s]
    decreases |s|
  {
    match IndexOf(s, c)
    case None => [s]
    case Some(i) => [s[..i]] + Split(s[i + 1..], c)
  }

  /** `parts.join(c)`. */
  function Join(parts: seq<string>, c: char): string
    requires |parts| >= 1
  {
    if |parts| == 1 then parts[0] else parts[0] + [c] + Join(parts[1..], c)
  }

  /** Splitting loses nothing: joining the pieces with the separator gives the
      string back. */
  lemma {:induction false} SplitJoin(s: string, c: char)
    ensures Join(Split(s, c), c) == s
    decreases |s|
  {
    match IndexOf(s, c)
    case None =>
    case Some(i) =>
      var a, b := s[..i], s[i + 1..];
      assert s == a + [c] + b;
      SplitAt(a, c, b);
      SplitJoin(b, c);
      JoinCons(a, Split(b, c), c);
  }

  /** Joining a piece in front of at least one more puts the separator between. */
  lemma JoinCons(a: string, rest: seq<string>, c: char)
    requires |rest| >= 1
    ensures Join([a] + rest, c) == a + [c] + Join(rest, c)
  {
    assert ([a] + rest)[1..] == rest;
  }

  /** `if (path.includes('?')) path = path.split('?')[0]`. */
  function StripQuery(p: string): (r: string)
    ensures '?' !in r
    ensures |r| <= |p| && r == p[..|r|]
    ensures r == p <==> '?' !in p
    ensures r != p ==> p[|r|] == '?'
  {
    if '?' in p then
      var i := IndexOf(p, '?').value;
      assert Split(p, '?')[0] == p[..i];
      Split(p, '?')[0]
    else p
  }

  /** A query string after a path without `?` is cut off exactly: what is
      left is the path. */
  lemma StripQueryCut(p: string, q: string)
    requires '?' !in p
    ensures StripQuery(p + "?" + q) == p
  {
    var x := p + "?" + q;
    assert x[|p|] == '?' && x[..|p|] == p;
    assert forall i :: 0 <= i < |p| ==> x[i] == p[i];
  }

  /** `event.body`: absent (read as `'{}'`), the text `null`, the JSON text of
      an object, or text `JSON.parse` rejects. */
  datatype RawBody = NoBody | NullText | Text(parsed: Payload) | Garbled(error: string)

  /** The fields of an invocation event the handlers read. A string field that
      is absent, or is the empty string, is `""`: `||` treats both alike. */
  datatype Event = Event(path: string, url: string, httpMethod: string, methodName: string,
                         queryPath: string, body: RawBody)

  /** `a || b || fallback` over strings. */
  function FirstGiven(a: string, b: string, fallback: string): (r: string)
    ensures r == a || r == b || r == fallback
    ensures r == "" <==> a == "" && b == "" && fallback == ""
    ensures r == fallback <==> (a == "" || a == fallback) && (a != "" || b == "" || b == fallback)
  {
    if a != "" then a else if b != "" then b else fallback
  }

  /** `event.httpMethod || event.method || 'GET'`: never empty, and `GET`
      when the event names no method. */
  function MethodOf(e: Event): (m: string)
    ensures m != ""
    ensures m == e.httpMethod || m == e.methodName || m == "GET"
    ensures e.httpMethod == "" && e.methodName == "" ==> m == "GET"
  {
    FirstGiven(e.httpMethod, e.methodName, "GET")
  }

  /** The path a request is routed on: `event.path || event.url || '/'` with
      the query cut off, unless a GET carries a `path` query parameter, which
      then replaces it as it is. */
  function PathOf(e: Event): (p: string)
    ensures MethodOf(e) == "GET" && e.queryPath != "" ==> p == e.queryPath
    ensures !(MethodOf(e) == "GET" && e.queryPath != "") ==>
              p == StripQuery(FirstGiven(e.path, e.url, "/")) && '?' !in p
  {
    var p := StripQuery(FirstGiven(e.path, e.url, "/"));
    if MethodOf(e) == "GET" && e.queryPath != "" then e.queryPath else p
  }

  /** A query string never changes the route: short of the GET `path`
      override, `p?q` is routed as `p`. */
  lemma QueryIgnored(e: Event, p: string, q: string)
    requires '?' !in p && e.path == p + "?" + q
    requires !(MethodOf(e) == "GET" && e.queryPath != "")
    ensures PathOf(e) == p
    ensures Dispatch(PathOf(e), MethodOf(e)) == Dispatch(p, MethodOf(e))
  {
    StripQueryCut(p, q);
  }

  /** The TypeError V8 throws when a handler reads `origin` off a `null` body. */
  const NULL_BODY_READ: string := "Cannot read properties of null (reading 'origin')"

  /** `JSON.parse(event.body || '{}')` whose fields the handler then reads
      (`data.origin`, ...): rejected text fails with the parse error, and a
      `null` body fails at the first field read. An absent body reads as `{}`,
      on which every field is `undefined`. */
  function ParseBody(b: RawBody): (r: Result<Payload>)
    ensures r.Err? <==> b.NullText? || b.Garbled?
    ensures b.Garbled? ==> r == Err(b.error)
    ensures b.NullText? ==> r == Err(NULL_BODY_READ)
    ensures b.NoBody? ==> r.Ok? && forall k :: Field(r.value, k) == Undefined
    ensures b.Text? ==> r == Ok(b.parsed)
  {
    match b
    case NoBody => Ok(map[])
    case NullText => Err(NULL_BODY_READ)
    case Text(p) => Ok(p)
    case Garbled(err) => Err(err)
  }

  /** `{ ...JSON.parse(event.body || '{}'), ... }`: spreading `null` adds no
      field, so only rejected text fails. */
  function SpreadBody(b: RawBody): (r: Result<Payload>)
    ensures r.Err? <==> b.Garbled?
    ensures b.Garbled? ==> r == Err(b.error)
    ensures b.NullText? || b.NoBody? ==> r.Ok? && forall k :: Field(r.value, k) == Undefined
    ensures b.Text? ==> r == Ok(b.parsed)
  {
    match b
    case NoBody => Ok(map[])
    case NullText => Ok(map[])
    case Text(p) => Ok(p)
    case Garbled(err) => Err(err)
  }

  /** The two readings of a body agree except on `null`, which fails when its
      fields are read and spreads as the absent body does. */
  lemma BodyReadings(b: RawBody)
    ensures !b.NullText? ==> SpreadBody(b) == ParseBody(b)
    ensures ParseBody(NullText).Err? && SpreadBody(NullText) == ParseBody(NoBody)
  {
  }

  const SHIPMENTS_PREFIX: string := "/shipments/"

  /** `/^\/shipments\/[^/]+$/`: one non-empty segment after `/shipments/`. An
      item path is none of the fixed routes. */
  predicate IsItemPath(p: string)
    ensures IsItemPath(p) ==> p != "/health" && p != "/shipments" && p != "/statistics"
  {
    |p| > |SHIPMENTS_PREFIX| && p[..|SHIPMENTS_PREFIX|] == SHIPMENTS_PREFIX && '/' !in p[|SHIPMENTS_PREFIX|..]
  }

  /** `path.split('/')[2]` on an item path: the segment after `/shipments/`. */
  function ItemId(p: string): (id: string)
    requires IsItemPath(p)
    ensures id == p[|SHIPMENTS_PREFIX|..] && id != "" && '/' !in id
  {
    var seg := p[|SHIPMENTS_PREFIX|..];
    assert p == SHIPMENTS_PREFIX + seg;
    SplitItemPath(seg);
    var parts := Split(p, '/');
    if |parts| > 2 then parts[2] else ""
  }

  /** The pieces of an item path: nothing before the first `/`, then
      `shipments`, then the segment. */
  lemma SplitItemPath(seg: string)
    requires '/' !in seg
    ensures Split(SHIPMENTS_PREFIX + seg, '/') == ["", "shipments", seg]
  {
    var word := "shipments";
    var rest := word + ['/'] + seg;
    assert SHIPMENTS_PREFIX + seg == [] + ['/'] + rest;
    assert '/' !in word;
    SplitAt([], '/', rest);
    SplitAt(word, '/', seg);
    calc {
      Split(SHIPMENTS_PREFIX + seg, '/');
      [[]] + Split(rest, '/');
      [[]] + ([word] + Split(seg, '/'));
      [[], word, seg];
    }
  }

  /** An item path is exactly `/shipments/` followed by a non-empty segment
      without `/`, and the id the handler extracts is that segment. */
  lemma ItemPathShape(seg: string)
    ensures IsItemPath(SHIPMENTS_PREFIX + seg) <==> seg != "" && '/' !in seg
    ensures seg != "" && '/' !in seg ==> ItemId(SHIPMENTS_PREFIX + seg) == seg
  {
    var p := SHIPMENTS_PREFIX + seg;
    assert p[..|SHIPMENTS_PREFIX|] == SHIPMENTS_PREFIX;
    assert p[|SHIPMENTS_PREFIX|..] == seg;
  }

  /** Every item path is `/shipments/` followed by its id. */
  lemma ItemPathId(p: string)
    requires IsItemPath(p)
    ensures p == SHIPMENTS_PREFIX + ItemId(p) && ItemId(p) != "" && '/' !in ItemId(p)
  {
    assert p == SHIPMENTS_PREFIX + p[|SHIPMENTS_PREFIX|..];
  }

  /** Where a request goes. */
  datatype Route = HealthRoute | ListRoute | CreateRoute | GetRoute(id: string) | UpdateRoute(id: string) |
                   DeleteRoute(id: string) | StatisticsRoute | NoRoute

  /** The handlers' chain of tests, in their order. */
  function Dispatch(path: string, verb: string): (r: Route)
    ensures r == HealthRoute <==> path == "/health"
    ensures r == NoRoute <==>
              path != "/health"
              && !(path == "/shipments" && (verb == "GET" || verb == "POST"))
              && !(IsItemPath(path) && (verb == "GET" || verb == "PUT" || verb == "DELETE"))
              && !(path == "/statistics" && verb == "GET")
    ensures (r.GetRoute? || r.UpdateRoute? || r.DeleteRoute?) ==>
              IsItemPath(path) && path == SHIPMENTS_PREFIX + r.id
  {
    if path == "/health" then HealthRoute
    else if path == "/shipments" && verb == "GET" then ListRoute
    else if path == "/shipments" && verb == "POST" then CreateRoute
    else if IsItemPath(path) && verb == "GET" then (ItemPathId(path); GetRoute(ItemId(path)))
    else if IsItemPath(path) && verb == "PUT" then (ItemPathId(path); UpdateRoute(ItemId(path)))
    else if IsItemPath(path) && verb == "DELETE" then (ItemPathId(path); DeleteRoute(ItemId(path)))
    else if path == "/statistics" && verb == "GET" then StatisticsRoute
    else NoRoute
  }

  /** `/health` answers whatever the method; an item route carries the segment
      of the path as its id; an empty or nested segment finds no route. */
  lemma DispatchItems(seg: string, verb: string)
    ensures Dispatch("/health", verb) == HealthRoute
    ensures seg != "" && '/' !in seg ==>
              (verb == "GET" ==> Dispatch(SHIPMENTS_PREFIX + seg, verb) == GetRoute(seg))
              && (verb == "PUT" ==> Dispatch(SHIPMENTS_PREFIX + seg, verb) == UpdateRoute(seg))
              && (verb == "DELETE" ==> Dispatch(SHIPMENTS_PREFIX + seg, verb) == DeleteRoute(seg))
    ensures (seg == "" || '/' in seg) ==> Dispatch(SHIPMENTS_PREFIX + seg, verb) == NoRoute
  {
    ItemPathShape(seg);
    var p := SHIPMENTS_PREFIX + seg;
    assert p != "/health" && p != "/shipments" && p != "/statistics" by {
      assert |p| >= |SHIPMENTS_PREFIX|;
      assert p[..|SHIPMENTS_PREFIX|] == SHIPMENTS_PREFIX;
      assert p[2] == 'h';
    }
  }
}
