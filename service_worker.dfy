/**
 * The service worker's cache policy: install fills the application cache
 * with the app shell, fetch answers cache-first and stores only complete
 * same-origin responses, activate evicts every cache but the current one,
 * and a background-sync event with the shipment tag asks the server to sync.
 *
 * Cache storage is a table of named caches in creation order; each cache maps
 * a request URL to its response.
 */
module ServiceWorker {
  import opened Wrappers
  import opened Tables

  /** A response: its status and its `type` (`basic`, `cors`, `opaque`, ...). */
  datatype Resp = Resp(status: nat, kind: string, body: string)

  type Cache = map<string, Resp>

  type Storage = Table<string, Cache>

  const CACHE_NAME: string := "cargotracker-v1"

  const URLS_TO_CACHE: seq<string> := ["/", "/index.html", "/src/main.js", "/src/App.vue", "/src/style.css"]

  const OFFLINE_PAGE: string := "/index.html"

  const SYNC_TAG: string := "sync-shipments"

  /** A request the worker sends. */
  datatype Request = Request(verb: string, url: string)

  /** `response.ok`. */
  predicate IsOk(r: Resp) {
    200 <= r.status <= 299
  }

  /** The responses fetch stores: status 200 and type `basic`. */
  predicate Cacheable(r: Resp) {
    r.status == 200 && r.kind == "basic"
  }

  /** `caches.match(url)`: the entry of the first cache, in creation order,
      holding the URL. */
  function MatchAll(t: Storage, url: string): (r: Option<Resp>)
    ensures r.Some? ==> exists i :: 0 <= i < |t| && url in t[i].row && t[i].row[url] == r.value
                                   && forall j :: 0 <= j < i ==> url !in t[j].row
    ensures r.None? <==> forall i :: 0 <= i < |t| ==> url !in t[i].row
  {
    if |t| == 0 then None
    else if url in t[0].row then Some(t[0].row[url])
    else
      var rest := MatchAll(t[1..], url);
      assert forall i :: 1 <= i < |t| ==> t[i] == t[1..][i - 1];
      if rest.Some? then
        var k :| 0 <= k < |t[1..]| && url in t[1..][k].row && t[1..][k].row[url] == rest.value
                 && forall j :: 0 <= j < k ==> url !in t[1..][j].row;
        assert url in t[k + 1].row && t[k + 1].row[url] == rest.value;
        rest
      else rest
  }

  /** `caches.open(CACHE_NAME)`: the cache is created, empty, when missing. */
  function Open(t: Storage): (r: Storage)
    ensures HasKey(r, CACHE_NAME)
    ensures forall j :: j != CACHE_NAME ==> Lookup(r, j) == Lookup(t, j)
    ensures HasKey(t, CACHE_NAME) ==> r == t
    ensures !HasKey(t, CACHE_NAME) ==> Lookup(r, CACHE_NAME) == Some(map[])
    ensures UniqueKeys(t) ==> UniqueKeys(r)
  {
    if HasKey(t, CACHE_NAME) then t else Upsert(t, CACHE_NAME, map[])
  }

  /** The fetch of `url` answered, with an ok status. */
  predicate FetchedOk(network: string -> Option<Resp>, url: string) {
    network(url).Some? && IsOk(network(url).value)
  }

  /** `cache.addAll(urls)`: every URL with its response, or `None` when a
      fetch failed or a response is not ok, in which case nothing is stored. */
  function AddAll(c: Cache, urls: seq<string>, network: string -> Option<Resp>): (r: Option<Cache>)
    ensures r.Some? && |urls| > 0 ==> FetchedOk(network, urls[|urls| - 1])
  {
    if |urls| == 0 then Some(c)
    else
      var last := urls[|urls| - 1];
      match AddAll(c, urls[..|urls| - 1], network)
      case None => None
      case Some(d) => if FetchedOk(network, last) then Some(d[last := network(last).value]) else None
  }

  /** `addAll` succeeds exactly when every fetch answered ok. */
  lemma {:induction false} AddAllSucceeds(c: Cache, urls: seq<string>, network: string -> Option<Resp>)
    ensures AddAll(c, urls, network).Some? <==> forall i :: 0 <= i < |urls| ==> FetchedOk(network, urls[i])
  {
    if |urls| > 0 {
      var front := urls[..|urls| - 1];
      AddAllSucceeds(c, front, network);
      assert forall i :: 0 <= i < |front| ==> urls[i] == front[i];
    }
  }

  /** A successful `addAll` stores every URL with the network's response and
      leaves every other entry alone. */
  lemma {:induction false} AddAllStores(c: Cache, urls: seq<string>, network: string -> Option<Resp>)
    requires AddAll(c, urls, network).Some?
    ensures forall i :: 0 <= i < |urls| ==>
              urls[i] in AddAll(c, urls, network).value && Some(AddAll(c, urls, network).value[urls[i]]) == network(urls[i])
    ensures forall u :: u !in urls ==> (u in AddAll(c, urls, network).value <==> u in c)
    ensures forall u :: u !in urls && u in c ==> AddAll(c, urls, network).value[u] == c[u]
  {
    if |urls| > 0 {
      var last := urls[|urls| - 1];
      var front := urls[..|urls| - 1];
      AddAllStores(c, front, network);
      var d := AddAll(c, front, network).value;
      var r := AddAll(c, urls, network).value;
      assert r == d[last := network(last).value];
      forall i | 0 <= i < |urls| ensures urls[i] in r && Some(r[urls[i]]) == network(urls[i]) {
        if i < |front| {
          assert urls[i] == front[i];
        }
      }
      forall u | u !in urls ensures u !in front {
        forall k | 0 <= k < |front| ensures front[k] != u {
          assert front[k] == urls[k];
        }
      }
    }
  }

  /** `cache.put(url, response)` into the current cache, opening it first. */
  function Store(t: Storage, url: string, resp: Resp): (r: Storage)
    ensures HasKey(r, CACHE_NAME) && Lookup(r, CACHE_NAME) == Some(Lookup(Open(t), CACHE_NAME).value[url := resp])
    ensures forall j :: j != CACHE_NAME ==> Lookup(r, j) == Lookup(t, j)
    ensures UniqueKeys(t) ==> UniqueKeys(r)
  {
    Modify(Open(t), CACHE_NAME, (c: Cache) => c[url := resp])
  }

  /** When no cache but the `k`-th can hold the URL, the match is that cache's entry. */
  lemma {:induction false} MatchOnly(t: Storage, url: string, k: nat)
    requires k < |t| && url in t[k].row
    requires forall i :: 0 <= i < |t| && i != k ==> url !in t[i].row
    ensures MatchAll(t, url) == Some(t[k].row[url])
  {
    if k > 0 {
      assert url !in t[0].row;
      forall i | 0 <= i < |t[1..]| && i != k - 1 ensures url !in t[1..][i].row {
        assert t[1..][i] == t[i + 1];
      }
      assert t[1..][k - 1] == t[k];
      MatchOnly(t[1..], url, k - 1);
    }
  }

  /** A cache of a storage with unique names, other than the current one, is
      one the storage held before the current cache was written. */
  lemma OtherCacheKept(t: Storage, r: Storage, i: nat)
    requires UniqueKeys(r) && i < |r| && r[i].key != CACHE_NAME
    requires forall j :: j != CACHE_NAME ==> Lookup(r, j) == Lookup(t, j)
    ensures Entry(r[i].key, r[i].row) in t
  {
    LookupMember(r, r[i]);
    assert Lookup(t, r[i].key) == Some(r[i].row);
    LookupFound(t, r[i].key);
  }

  /** A response stored after a miss is a hit for the next request. */
  lemma StoreThenHit(t: Storage, url: string, resp: Resp)
    requires UniqueKeys(t)
    requires MatchAll(t, url).None?
    ensures MatchAll(Store(t, url, resp), url) == Some(resp)
  {
    var r := Store(t, url, resp);
    var c := Lookup(r, CACHE_NAME).value;
    assert url in c && c[url] == resp;
    LookupFound(r, CACHE_NAME);
    var k :| 0 <= k < |r| && r[k] == Entry(CACHE_NAME, c);
    forall i | 0 <= i < |r| && i != k ensures url !in r[i].row {
      assert r[i].key != CACHE_NAME;
      OtherCacheKept(t, r, i);
      var m :| 0 <= m < |t| && t[m] == Entry(r[i].key, r[i].row);
    }
    MatchOnly(r, url, k);
  }

  /** `caches.keys()` then `caches.delete` of every name not on the keep list
      leaves at most the current cache. */
  function Evicted(t: Storage): (r: Storage)
    ensures forall j :: Lookup(r, j) == if j == CACHE_NAME then Lookup(t, j) else None
    ensures |r| <= 1
  {
    match Lookup(t, CACHE_NAME)
    case None => []
    case Some(c) => [Entry(CACHE_NAME, c)]
  }

  /** `sync` with the shipment tag sends `POST /api/sync/force`; any other tag
      sends nothing. A failure of that request is logged and swallowed. */
  function SyncRequests(tag: string): (r: seq<Request>)
    ensures tag == SYNC_TAG ==> r == [Request("POST", "/api/sync/force")]
    ensures tag != SYNC_TAG ==> r == []
  {
    if tag == SYNC_TAG then [Request("POST", "/api/sync/force")] else []
  }

  /** The worker's cache storage. */
  class Worker {
    var caches: Storage

    ghost predicate Valid()
      reads this
    {
      UniqueKeys(caches)
    }

    constructor(initial: Storage)
      requires UniqueKeys(initial)
      ensures Valid() && caches == initial
    {
      caches := initial;
    }

    /** `install`: the current cache is opened and, when every shell URL
        answers ok, filled with all of them; otherwise nothing is added. */
    method Install(network: string -> Option<Resp>) returns (installed: bool)
      requires Valid()
      modifies this
      ensures Valid() && HasKey(caches, CACHE_NAME)
      ensures forall j :: j != CACHE_NAME ==> Lookup(caches, j) == Lookup(old(caches), j)
      ensures installed <==> forall i :: 0 <= i < |URLS_TO_CACHE| ==> FetchedOk(network, URLS_TO_CACHE[i])
      ensures installed ==> forall i :: 0 <= i < |URLS_TO_CACHE| ==>
                URLS_TO_CACHE[i] in Lookup(caches, CACHE_NAME).value
                && Some(Lookup(caches, CACHE_NAME).value[URLS_TO_CACHE[i]]) == network(URLS_TO_CACHE[i])
      ensures !installed ==> caches == Open(old(caches))
    {
      caches := Open(caches);
      var c := Lookup(caches, CACHE_NAME).value;
      AddAllSucceeds(c, URLS_TO_CACHE, network);
      match AddAll(c, URLS_TO_CACHE, network) {
        case None =>
          installed := false;
        case Some(d) =>
          AddAllStores(c, URLS_TO_CACHE, network);
          caches := Modify(caches, CACHE_NAME, (_: Cache) => d);
          installed := true;
      }
    }

    /** `fetch`, cache-first. `network` is what the network answers, `None`
        when the fetch rejects. `online` tells whether the network was asked. */
    method Fetch(url: string, network: Option<Resp>) returns (answer: Option<Resp>, online: bool)
      requires Valid()
      modifies this
      ensures Valid()
      ensures MatchAll(old(caches), url).Some? ==>
                answer == MatchAll(old(caches), url) && !online && caches == old(caches)
      ensures MatchAll(old(caches), url).None? ==> online
      ensures MatchAll(old(caches), url).None? && network.None? ==>
                answer == MatchAll(old(caches), OFFLINE_PAGE) && caches == old(caches)
      ensures MatchAll(old(caches), url).None? && network.Some? ==> answer == network
      ensures MatchAll(old(caches), url).None? && network.Some? && !Cacheable(network.value) ==> caches == old(caches)
      ensures MatchAll(old(caches), url).None? && network.Some? && Cacheable(network.value) ==>
                caches == Store(old(caches), url, network.value)
    {
      var hit := MatchAll(caches, url);
      if hit.Some? {
        return hit, false;
      }
      online := true;
      match network {
        case None =>
          answer := MatchAll(caches, OFFLINE_PAGE);
        case Some(resp) =>
          if Cacheable(resp) {
            caches := Store(caches, url, resp);
          }
          answer := network;
      }
    }

    /** `activate`: every cache whose name is not `CACHE_NAME` is deleted, one
        name of `caches.keys()` at a time. */
    method Activate()
      requires Valid()
      modifies this
      ensures Valid()
      ensures forall j :: Lookup(caches, j) == Lookup(Evicted(old(caches)), j)
    {
      var names := Keys(caches);
      ghost var c0 := caches;
      for i := 0 to |names|
        invariant UniqueKeys(caches)
        invariant forall j :: Lookup(caches, j) == if j != CACHE_NAME && j in names[..i] then None else Lookup(c0, j)
      {
        if names[i] != CACHE_NAME {
          caches := Delete(caches, names[i]);
        }
        assert names[..i + 1] == names[..i] + [names[i]];
      }
      forall j ensures Lookup(caches, j) == Lookup(Evicted(c0), j) {
        if j != CACHE_NAME && Lookup(c0, j).Some? {
          var e := Entry(j, Lookup(c0, j).value);
          LookupFound(c0, j);
          var k :| 0 <= k < |c0| && c0[k] == e;
          assert names[k] == j;
          assert names[..|names|] == names;
        }
      }
    }
  }
}
