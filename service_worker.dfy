/**
 * The offline cache policy of the Fun Wheel service worker (service-worker.js).
 *
 * The browser's CacheStorage is modelled as an ordered list of cache names
 * (CacheStorage keeps its caches in creation order, and `caches.match`
 * searches them in that order) together with a map from each name to its
 * cache, a map from requests to responses. The network is an oracle that
 * either answers a request or fails (`None`).
 *
 * The decisions are pure functions over the value `Storage`; the class
 * `CacheStorage` holds the same state in two fields and its handlers are
 * proved to compute exactly those functions.
 */
module ServiceWorker {
  import opened Wrappers

  /** A request as a cache keys it: its HTTP method and its URL. */
  datatype Request = Request(verb: string, url: string)

  /** A response, an immutable value (so a clone is the same value). */
  datatype Response = Response(status: int, body: string)

  /** One cache: requests to responses. */
  type Store = map<Request, Response>

  /** The whole CacheStorage: cache names in creation order, and the caches. */
  datatype Storage = Storage(names: seq<string>, caches: map<string, Store>)

  /** How a fetch event is resolved. */
  datatype Reply =
    | Hit(response: Response)       // served from a cache, no network call
    | Network(response: Response)   // the network's answer
    | Fallback(response: Response)  // network failed: the cached main page
    | Failed                        // network failed and no page is cached
  {
    /** What the page receives: a response, or a rejected fetch. */
    function Body(): Option<Response> {
      if Failed? then None else Some(response)
    }
  }

  /** The current cache generation. */
  const CACHE: string := "funwheel-v1"

  /** The asset manifest that install pre-caches. */
  const ASSETS: seq<string> := [
    "./",
    "./index.html",
    "./style.css",
    "./app.js",
    "./manifest.json",
    "./icon-192.png",
    "./icon-512.png",
    "./tick.wav",
    "./celebration.wav"
  ]

  /** The page served when the network fails. */
  const FALLBACK: string := "./index.html"

  /** A URL string given to the Cache API stands for a GET request. */
  function Get(url: string): Request {
    Request("GET", url)
  }

  ghost predicate Distinct(names: seq<string>) {
    forall i, j :: 0 <= i < j < |names| ==> names[i] != names[j]
  }

  /** CacheStorage lists every cache exactly once. */
  ghost predicate WellFormed(s: Storage) {
    && Distinct(s.names)
    && forall n :: n in s.names <==> n in s.caches
  }

  /** Every stored request is a GET: `put` and `addAll` refuse any other method. */
  ghost predicate OnlyGets(s: Storage) {
    forall n, q :: n in s.caches && q in s.caches[n] ==> q.verb == "GET"
  }

  predicate Holds(caches: map<string, Store>, name: string, req: Request) {
    name in caches && req in caches[name]
  }

  // ---------------------------------------------------------------------
  // The Cache API operations the handlers use
  // ---------------------------------------------------------------------

  /**
   * `caches.match(req)`: the response stored for `req` in the first cache,
   * in creation order, that holds it. A non-GET request never matches.
   */
  function MatchIn(names: seq<string>, caches: map<string, Store>, req: Request): (r: Option<Response>)
    ensures r.Some? <==> req.verb == "GET" && exists i :: 0 <= i < |names| && Holds(caches, names[i], req)
    ensures r.Some? ==> exists i :: 0 <= i < |names| && Holds(caches, names[i], req) && r.value == caches[names[i]][req]
                                    && forall j :: 0 <= j < i ==> !Holds(caches, names[j], req)
    decreases |names|
  {
    if req.verb != "GET" || names == [] then None
    else if Holds(caches, names[0], req) then Some(caches[names[0]][req])
    else
      var r := MatchIn(names[1..], caches, req);
      assert forall i :: 0 < i < |names| ==> names[i] == names[1..][i - 1];
      r
  }

  /** `caches.open(name)`: the cache `name`, created empty at the end of the order if absent. */
  function Opened(s: Storage, name: string): (t: Storage)
    requires WellFormed(s)
    ensures WellFormed(t) && name in t.caches
    ensures name in s.caches ==> t == s
    ensures name !in s.caches ==> t.names == s.names + [name] && t.caches[name] == map[]
    ensures forall n :: n != name ==> (n in t.caches <==> n in s.caches)
    ensures forall n :: n != name && n in s.caches ==> t.caches[n] == s.caches[n]
  {
    if name in s.caches then s
    else Storage(s.names + [name], s.caches[name := map[]])
  }

  /**
   * `cache.put(req, resp)` on the open cache `name`: it rejects (and stores
   * nothing) when the method is not GET or the status is 206.
   */
  function Stored(s: Storage, name: string, req: Request, resp: Response): (t: Storage)
    requires WellFormed(s) && name in s.caches
    ensures WellFormed(t) && t.names == s.names && t.caches.Keys == s.caches.Keys
    ensures req.verb == "GET" && resp.status != 206 ==> t.caches[name] == s.caches[name][req := resp]
    ensures req.verb != "GET" || resp.status == 206 ==> t == s
    ensures forall n :: n in s.caches && n != name ==> t.caches[n] == s.caches[n]
  {
    if req.verb != "GET" || resp.status == 206 then s
    else Storage(s.names, s.caches[name := s.caches[name][req := resp]])
  }

  /** Every occurrence of `x` removed from `names`. */
  function Without(names: seq<string>, x: string): (r: seq<string>)
    ensures forall n :: n in r <==> n in names && n != x
    decreases |names|
  {
    if names == [] then []
    else if names[0] == x then Without(names[1..], x)
    else [names[0]] + Without(names[1..], x)
  }

  lemma {:induction false} WithoutAbsent(names: seq<string>, x: string)
    requires x !in names
    ensures Without(names, x) == names
    decreases |names|
  {
    if names != [] {
      WithoutAbsent(names[1..], x);
    }
  }

  lemma {:induction false} WithoutConcat(a: seq<string>, b: seq<string>, x: string)
    ensures Without(a + b, x) == Without(a, x) + Without(b, x)
    decreases |a|
  {
    if a != [] {
      assert (a + b)[1..] == a[1..] + b;
      WithoutConcat(a[1..], b, x);
    } else {
      assert a + b == b;
    }
  }

  lemma {:induction false} WithoutKeepsDistinct(names: seq<string>, x: string)
    requires Distinct(names)
    ensures Distinct(Without(names, x))
    decreases |names|
  {
    if names != [] {
      assert Distinct(names[1..]);
      assert names[0] !in names[1..];
      WithoutKeepsDistinct(names[1..], x);
    }
  }

  /** `caches.delete(name)`: the cache and its name are gone. */
  function Deleted(s: Storage, name: string): (t: Storage)
    requires WellFormed(s)
    ensures WellFormed(t) && name !in t.caches
    ensures forall n :: n != name ==> (n in t.caches <==> n in s.caches)
    ensures forall n :: n in t.caches ==> t.caches[n] == s.caches[n]
  {
    WithoutKeepsDistinct(s.names, name);
    Storage(Without(s.names, name), s.caches - {name})
  }

  /** The fetch phase of `cache.addAll`: every response must be ok (200-299) and not 206. */
  predicate Addable(r: Option<Response>) {
    r.Some? && 200 <= r.value.status <= 299 && r.value.status != 206
  }

  /**
   * The batch `cache.addAll(urls)` would write: `Some` exactly when every
   * URL is fetched with an acceptable response, and then it maps each URL's
   * GET request to that response and holds nothing else.
   */
  function FetchAll(urls: seq<string>, network: Request -> Option<Response>): (r: Option<Store>)
    ensures r.Some? <==> forall u :: u in urls ==> Addable(network(Get(u)))
    ensures r.Some? ==> forall u :: u in urls ==> Get(u) in r.value && Some(r.value[Get(u)]) == network(Get(u))
    ensures r.Some? ==> forall q :: q in r.value ==> q.verb == "GET" && q.url in urls
    decreases |urls|
  {
    if urls == [] then Some(map[])
    else
      var init, last := urls[..|urls| - 1], urls[|urls| - 1];
      assert forall u :: u in urls <==> u in init || u == last;
      match FetchAll(init, network)
      case None => None
      case Some(batch) =>
        var resp := network(Get(last));
        if Addable(resp) then Some(batch[Get(last) := resp.value]) else None
  }

  // ---------------------------------------------------------------------
  // The three event handlers, as functions of the storage
  // ---------------------------------------------------------------------

  /** install: open `CACHE`, then `addAll(ASSETS)`, which writes all of them or none. */
  function Installed(s: Storage, network: Request -> Option<Response>): (t: Storage)
    requires WellFormed(s)
    ensures WellFormed(t) && CACHE in t.caches
    ensures forall n :: n in s.caches ==> n in t.caches
  {
    var base := Opened(s, CACHE);
    match FetchAll(ASSETS, network)
    case None => base
    case Some(batch) => Storage(base.names, base.caches[CACHE := base.caches[CACHE] + batch])
  }

  /** activate: delete every cache whose name is not `CACHE`. */
  function Activated(s: Storage): (t: Storage)
    requires WellFormed(s)
    ensures WellFormed(t)
    ensures forall n :: n in t.caches <==> n == CACHE && n in s.caches
    ensures CACHE in s.caches ==> t.caches[CACHE] == s.caches[CACHE]
  {
    if CACHE in s.caches then Storage([CACHE], map[CACHE := s.caches[CACHE]])
    else Storage([], map[])
  }

  /**
   * fetch, the reply: a cached response if any cache holds the request;
   * otherwise the network's answer; if the network fails, whatever is cached
   * for the fallback page, or failure.
   */
  function Respond(s: Storage, req: Request, network: Request -> Option<Response>): (r: Reply)
    ensures r.Hit? ==> req.verb == "GET"
    ensures MatchIn(s.names, s.caches, req).Some? ==> r == Hit(MatchIn(s.names, s.caches, req).value)
    ensures r.Network? ==> network(req) == Some(r.response)
    ensures r.Fallback? || r.Failed? ==> network(req).None?
    ensures r.Fallback? ==> exists n :: Holds(s.caches, n, Get(FALLBACK)) && r.response == s.caches[n][Get(FALLBACK)]
    ensures MatchIn(s.names, s.caches, req).None? && network(req).Some? ==> r == Network(network(req).value)
  {
    match MatchIn(s.names, s.caches, req)
    case Some(cached) => Hit(cached)
    case None =>
      match network(req)
      case Some(net) => Network(net)
      case None =>
        match MatchIn(s.names, s.caches, Get(FALLBACK))
        case Some(page) => Fallback(page)
        case None => Failed
  }

  /** fetch, the new storage: on a miss answered by the network, a GET is put into `CACHE`. */
  function Fetched(s: Storage, req: Request, network: Request -> Option<Response>): (t: Storage)
    requires WellFormed(s)
    ensures WellFormed(t)
    ensures forall n :: n in s.caches ==> n in t.caches
    ensures req.verb != "GET" || network(req).None? ==> t == s
  {
    if MatchIn(s.names, s.caches, req).None? && network(req).Some? && req.verb == "GET"
    then Stored(Opened(s, CACHE), CACHE, req, network(req).value)
    else s
  }

  // ---------------------------------------------------------------------
  // Properties of the policy
  // ---------------------------------------------------------------------

  /** After a successful install `CACHE` holds the network's response for every asset. */
  lemma InstallCachesEveryAsset(s: Storage, network: Request -> Option<Response>)
    requires WellFormed(s)
    requires forall u :: u in ASSETS ==> Addable(network(Get(u)))
    ensures var t := Installed(s, network);
            CACHE in t.caches &&
            forall u :: u in ASSETS ==> Get(u) in t.caches[CACHE] && Some(t.caches[CACHE][Get(u)]) == network(Get(u))
    ensures FetchAll(ASSETS, network).Some?
    ensures var t := Installed(s, network);
            t.caches[CACHE] == (if CACHE in s.caches then s.caches[CACHE] else map[]) + FetchAll(ASSETS, network).value
  {
  }

  /** If any asset fails, install leaves `CACHE` exactly as it was (or empty if it was created). */
  lemma InstallAllOrNothing(s: Storage, network: Request -> Option<Response>)
    requires WellFormed(s)
    requires exists u :: u in ASSETS && !Addable(network(Get(u)))
    ensures var t := Installed(s, network);
            CACHE in t.caches && t.caches[CACHE] == (if CACHE in s.caches then s.caches[CACHE] else map[])
  {
  }

  /** Install creates or fills only `CACHE`; every other cache is untouched. */
  lemma InstallTouchesOnlyCurrent(s: Storage, network: Request -> Option<Response>)
    requires WellFormed(s)
    ensures var t := Installed(s, network);
            && (t.names == s.names || t.names == s.names + [CACHE])
            && (forall n :: n != CACHE ==> (n in t.caches <==> n in s.caches))
            && (forall n :: n != CACHE && n in s.caches ==> t.caches[n] == s.caches[n])
  {
  }

  /** Activating twice is activating once. */
  lemma ActivateIdempotent(s: Storage)
    requires WellFormed(s)
    ensures Activated(Activated(s)) == Activated(s)
  {
  }

  /** A hit is served from the store, and nothing changes. */
  lemma FetchHitServesStore(s: Storage, req: Request, network: Request -> Option<Response>)
    requires WellFormed(s)
    requires exists n :: n in s.names && Holds(s.caches, n, req)
    requires req.verb == "GET"
    ensures Respond(s, req, network).Hit?
    ensures Fetched(s, req, network) == s
    ensures exists n :: Holds(s.caches, n, req) && Respond(s, req, network).response == s.caches[n][req]
    ensures Respond(s, req, network) == Hit(MatchIn(s.names, s.caches, req).value)
  {
    var n :| n in s.names && Holds(s.caches, n, req);
    var i :| 0 <= i < |s.names| && s.names[i] == n;
  }

  /**
   * A GET miss answered by the network returns that response, and `CACHE`
   * then maps the request to it, whatever its status (404 and 500 too), save
   * 206 which `put` refuses.
   */
  lemma FetchMissCachesGet(s: Storage, req: Request, network: Request -> Option<Response>)
    requires WellFormed(s)
    requires MatchIn(s.names, s.caches, req).None?
    requires req.verb == "GET" && network(req).Some?
    ensures Respond(s, req, network) == Network(network(req).value)
    ensures var t := Fetched(s, req, network);
            network(req).value.status != 206 ==>
              CACHE in t.caches && req in t.caches[CACHE] && t.caches[CACHE][req] == network(req).value
    ensures network(req).value.status == 206 ==> Fetched(s, req, network) == Opened(s, CACHE)
  {
  }

  /** A non-GET request goes to the network and never changes the storage. */
  lemma FetchNonGetUntouched(s: Storage, req: Request, network: Request -> Option<Response>)
    requires WellFormed(s)
    requires req.verb != "GET" && network(req).Some?
    ensures Respond(s, req, network) == Network(network(req).value)
    ensures Fetched(s, req, network) == s
  {
  }

  /**
   * On a miss with the network down, any request (not only page loads) is
   * answered by what is cached for the fallback page, or fails; nothing changes.
   */
  lemma FetchOfflineFallsBack(s: Storage, req: Request, network: Request -> Option<Response>)
    requires WellFormed(s)
    requires MatchIn(s.names, s.caches, req).None? && network(req).None?
    ensures Respond(s, req, network).Body() == MatchIn(s.names, s.caches, Get(FALLBACK))
    ensures Respond(s, req, network).Failed? <==> forall n :: n in s.caches ==> Get(FALLBACK) !in s.caches[n]
    ensures Fetched(s, req, network) == s
  {
    if Respond(s, req, network).Failed? {
      forall n | n in s.caches ensures Get(FALLBACK) !in s.caches[n] {
        var i :| 0 <= i < |s.names| && s.names[i] == n;
      }
    }
  }

  /** A fetch changes at most one entry: the request's, in `CACHE`. */
  lemma FetchChangesAtMostOneEntry(s: Storage, req: Request, network: Request -> Option<Response>)
    requires WellFormed(s)
    ensures var t := Fetched(s, req, network);
            && (t.names == s.names || t.names == s.names + [CACHE])
            && (forall n :: n != CACHE ==> (n in t.caches <==> n in s.caches))
            && (forall n, q :: n in s.caches && (n != CACHE || q != req) ==>
                  n in t.caches && (q in t.caches[n] <==> q in s.caches[n]) &&
                  (q in s.caches[n] ==> t.caches[n][q] == s.caches[n][q]))
  {
  }

  /** Install stores only GET requests, as `addAll` builds them from URLs. */
  lemma InstallStoresOnlyGets(s: Storage, network: Request -> Option<Response>)
    requires WellFormed(s) && OnlyGets(s)
    ensures OnlyGets(Installed(s, network))
  {
    var t := Installed(s, network);
    forall n, q | n in t.caches && q in t.caches[n] ensures q.verb == "GET" {
      if n != CACHE || (CACHE in s.caches && q in s.caches[CACHE]) {
      } else {
        assert FetchAll(ASSETS, network).Some?;
      }
    }
  }

  /** Activate only deletes, so it keeps every stored request a GET. */
  lemma ActivateStoresOnlyGets(s: Storage)
    requires WellFormed(s) && OnlyGets(s)
    ensures OnlyGets(Activated(s))
  {
  }

  /** A fetch stores only GET requests: a non-GET is never put. */
  lemma FetchStoresOnlyGets(s: Storage, req: Request, network: Request -> Option<Response>)
    requires WellFormed(s) && OnlyGets(s)
    ensures OnlyGets(Fetched(s, req, network))
  {
  }

  /**
   * After a successful install and an activate, every asset is served from
   * `CACHE` with no network call, whatever the network does.
   */
  lemma {:induction false} AssetsServedOffline(s: Storage, install: Request -> Option<Response>,
                                               later: Request -> Option<Response>, u: string)
    requires WellFormed(s)
    requires forall v :: v in ASSETS ==> Addable(install(Get(v)))
    requires u in ASSETS
    ensures Respond(Activated(Installed(s, install)), Get(u), later) == Hit(install(Get(u)).value)
  {
    InstallCachesEveryAsset(s, install);
    var t := Activated(Installed(s, install));
    assert t.names == [CACHE] && Holds(t.caches, t.names[0], Get(u));
  }

  /** After activate, only `CACHE` can answer: every older generation is gone. */
  lemma ActivatedServesOnlyCurrent(s: Storage, req: Request)
    requires WellFormed(s)
    ensures var t := Activated(s);
            MatchIn(t.names, t.caches, req) ==
              if req.verb == "GET" && Holds(s.caches, CACHE, req) then Some(s.caches[CACHE][req]) else None
  {
    var t := Activated(s);
    if req.verb == "GET" && Holds(s.caches, CACHE, req) {
      assert Holds(t.caches, t.names[0], req);
    }
  }


  /**
   * The storage after activate has visited the first `i` names of `s`, in
   * order, deleting each one not named `CACHE`.
   */
  ghost function Pruned(s: Storage, i: nat): (t: Storage)
    requires WellFormed(s) && i <= |s.names|
    ensures WellFormed(t)
    ensures forall n :: n in t.caches ==> n in s.caches && t.caches[n] == s.caches[n]
    ensures CACHE in s.caches ==> CACHE in t.caches
    decreases i
  {
    if i == 0 then s else DeletedUnlessCurrent(Pruned(s, i - 1), s.names[i - 1])
  }

  /** One key of the activate loop: `k !== CACHE && caches.delete(k)`. */
  function DeletedUnlessCurrent(s: Storage, k: string): (t: Storage)
    requires WellFormed(s)
    ensures WellFormed(t)
    ensures k == CACHE ==> t == s
    ensures k != CACHE ==> k !in t.caches
    ensures forall n :: n != k ==> (n in t.caches <==> n in s.caches)
    ensures forall n :: n in t.caches ==> t.caches[n] == s.caches[n]
  {
    if k == CACHE then s else Deleted(s, k)
  }

  lemma PrunedNext(s: Storage, i: nat)
    requires WellFormed(s) && i < |s.names|
    ensures Pruned(s, i + 1) == DeletedUnlessCurrent(Pruned(s, i), s.names[i])
  {
    assert i + 1 - 1 == i;
  }

  /** The same storage in closed form: of the visited names only `CACHE` is left. */
  ghost function Remaining(s: Storage, i: nat): (t: Storage)
    requires i <= |s.names|
    ensures forall n :: n in t.caches ==> n in s.caches && t.caches[n] == s.caches[n]
    ensures CACHE in s.caches ==> CACHE in t.caches
    ensures forall n :: n in s.caches && n !in t.caches ==> n != CACHE && n !in s.names[i..]
  {
    var kept := if CACHE in s.names[..i] then [CACHE] else [];
    Storage(kept + s.names[i..], map n | n in s.caches && (n == CACHE || n in s.names[i..]) :: s.caches[n])
  }

  lemma RemainingWellFormed(s: Storage, i: nat)
    requires WellFormed(s) && i <= |s.names|
    ensures WellFormed(Remaining(s, i))
  {
    var t := Remaining(s, i);
    var kept := if CACHE in s.names[..i] then [CACHE] else [];
    assert Distinct(t.names) by {
      forall a, b | 0 <= a < b < |t.names| ensures t.names[a] != t.names[b] {
        if |kept| == 1 && a == 0 {
          assert t.names[b] == s.names[i + b - 1];
        } else {
          assert t.names[a] == s.names[i + a - |kept|] && t.names[b] == s.names[i + b - |kept|];
        }
      }
    }
  }

  lemma {:induction false} PrunedIsRemaining(s: Storage, i: nat)
    requires WellFormed(s) && i <= |s.names|
    ensures Pruned(s, i) == Remaining(s, i)
    decreases i
  {
    if i == 0 {
      PrunedNone(s);
    } else {
      var j := i - 1;
      PrunedIsRemaining(s, j);
      PrunedNext(s, j);
      RemainingStep(s, j);
      assert j + 1 == i;
    }
  }

  lemma PrunedNone(s: Storage)
    requires WellFormed(s)
    ensures Pruned(s, 0) == Remaining(s, 0)
  {
    assert s.names[0..] == s.names;
  }

  lemma RemainingAll(s: Storage)
    requires WellFormed(s)
    ensures Remaining(s, |s.names|) == Activated(s)
  {
    assert s.names[..|s.names|] == s.names;
  }

  /** One step of activate: the `i`-th name is deleted unless it is `CACHE`. */
  lemma RemainingStep(s: Storage, i: nat)
    requires WellFormed(s) && i < |s.names|
    ensures WellFormed(Remaining(s, i))
    ensures DeletedUnlessCurrent(Remaining(s, i), s.names[i]) == Remaining(s, i + 1)
  {
    var k := s.names[i];
    RemainingWellFormed(s, i);
    assert s.names[..i + 1] == s.names[..i] + [k];
    assert s.names[i..] == [k] + s.names[i + 1..];
    assert k !in s.names[i + 1..] by {
      forall j | i + 1 <= j < |s.names| ensures s.names[j] != k { }
    }
    if k != CACHE {
      RemainingStepNames(s, i);
      RemainingStepCaches(s, i);
    } else {
      assert CACHE !in s.names[..i] by {
        forall j | 0 <= j < i ensures s.names[j] != k { }
      }
      RemainingStepCaches(s, i);
    }
  }

  lemma RemainingStepNames(s: Storage, i: nat)
    requires WellFormed(s) && i < |s.names| && s.names[i] != CACHE
    requires s.names[i..] == [s.names[i]] + s.names[i + 1..]
    requires s.names[..i + 1] == s.names[..i] + [s.names[i]]
    requires s.names[i] !in s.names[i + 1..]
    ensures Without(Remaining(s, i).names, s.names[i]) == Remaining(s, i + 1).names
  {
    var k := s.names[i];
    var kept := if CACHE in s.names[..i] then [CACHE] else [];
    WithoutConcat(kept, s.names[i..], k);
    WithoutAbsent(kept, k);
    WithoutConcat([k], s.names[i + 1..], k);
    WithoutAbsent(s.names[i + 1..], k);
  }

  lemma RemainingStepCaches(s: Storage, i: nat)
    requires WellFormed(s) && i < |s.names|
    requires s.names[i..] == [s.names[i]] + s.names[i + 1..]
    requires s.names[i] !in s.names[i + 1..]
    ensures s.names[i] != CACHE ==> Remaining(s, i).caches - {s.names[i]} == Remaining(s, i + 1).caches
    ensures s.names[i] == CACHE ==> Remaining(s, i).caches == Remaining(s, i + 1).caches
  {
  }

  // ---------------------------------------------------------------------
  // The service worker's storage, changed in place by its handlers
  // ---------------------------------------------------------------------

  class CacheStorage {
    var names: seq<string>
    var caches: map<string, Store>

    ghost function State(): Storage
      reads this
    {
      Storage(names, caches)
    }

    ghost predicate Valid()
      reads this
    {
      WellFormed(State())
    }

    constructor ()
      ensures Valid() && State() == Storage([], map[])
    {
      names := [];
      caches := map[];
    }

    method Open(name: string)
      requires Valid()
      modifies this
      ensures Valid() && State() == Opened(old(State()), name)
    {
      if name !in caches {
        names := names + [name];
        caches := caches[name := map[]];
      }
    }

    method Put(name: string, req: Request, resp: Response)
      requires Valid() && name in caches
      modifies this
      ensures Valid() && State() == Stored(old(State()), name, req, resp)
    {
      if req.verb == "GET" && resp.status != 206 {
        caches := caches[name := caches[name][req := resp]];
      }
    }

    method Delete(name: string) returns (deleted: bool)
      requires Valid()
      modifies this
      ensures Valid() && State() == Deleted(old(State()), name)
      ensures deleted <==> name in old(caches)
    {
      deleted := name in caches;
      WithoutKeepsDistinct(names, name);
      names := Without(names, name);
      caches := caches - {name};
    }

    /** `caches.match(req)`: search the caches in creation order. */
    method Match(req: Request) returns (r: Option<Response>)
      ensures r == MatchIn(names, caches, req)
    {
      if req.verb != "GET" {
        return None;
      }
      var i := 0;
      while i < |names|
        invariant 0 <= i <= |names|
        invariant MatchIn(names, caches, req) == MatchIn(names[i..], caches, req)
      {
        if Holds(caches, names[i], req) {
          return Some(caches[names[i]][req]);
        }
        assert names[i..][1..] == names[i + 1..];
        i := i + 1;
      }
      return None;
    }

    /** The install handler: open `CACHE`, then `addAll(ASSETS)`. */
    method Install(network: Request -> Option<Response>) returns (ok: bool)
      requires Valid()
      modifies this
      ensures Valid() && State() == Installed(old(State()), network)
      ensures ok <==> forall u :: u in ASSETS ==> Addable(network(Get(u)))
    {
      Open(CACHE);
      ghost var base := State();
      var fetched: Option<Store> := Some(map[]);
      var i := 0;
      while i < |ASSETS|
        invariant 0 <= i <= |ASSETS|
        invariant State() == base
        invariant fetched == FetchAll(ASSETS[..i], network)
      {
        var resp := network(Get(ASSETS[i]));
        if fetched.Some? && Addable(resp) {
          fetched := Some(fetched.value[Get(ASSETS[i]) := resp.value]);
        } else {
          fetched := None;
        }
        assert ASSETS[..i + 1][..i] == ASSETS[..i];
        i := i + 1;
      }
      assert ASSETS[..i] == ASSETS;
      if fetched.Some? {
        caches := caches[CACHE := caches[CACHE] + fetched.value];
      }
      ok := fetched.Some?;
    }

    /** One key of the activate loop, in place. */
    method DeleteUnlessCurrent(k: string)
      requires Valid()
      modifies this
      ensures Valid()
      ensures State() == DeletedUnlessCurrent(old(State()), k)
    {
      if k != CACHE {
        var _ := Delete(k);
      }
    }

    /** The activate handler: delete every cache not named `CACHE`. */
    method Activate()
      requires Valid()
      modifies this
      ensures Valid() && State() == Activated(old(State()))
    {
      var keys := names;
      ghost var initial := State();
      var i := 0;
      while i < |keys|
        invariant 0 <= i <= |keys| == |initial.names|
        invariant keys == initial.names
        invariant State() == Pruned(initial, i)
      {
        PrunedNext(initial, i);
        DeleteUnlessCurrent(keys[i]);
        i := i + 1;
      }
      PrunedIsRemaining(initial, i);
      RemainingAll(initial);
    }

    /** The fetch handler. `network` answers the request if it is asked. */
    method HandleFetch(req: Request, network: Request -> Option<Response>) returns (reply: Reply)
      requires Valid()
      modifies this
      ensures Valid()
      ensures reply == Respond(old(State()), req, network)
      ensures State() == Fetched(old(State()), req, network)
    {
      var cached := Match(req);
      if cached.Some? {
        return Hit(cached.value);
      }
      var net := network(req);
      if net.Some? {
        if req.verb == "GET" {
          Open(CACHE);
          Put(CACHE, req, net.value);
        }
        return Network(net.value);
      }
      var page := Match(Get(FALLBACK));
      if page.Some? {
        return Fallback(page.value);
      }
      return Failed;
    }
  }
}
