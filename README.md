# Spin the Fun Wheel — a Dafny model of its offline cache policy and its wheel logic

This project models two parts of the "Spin the Fun Wheel" progressive web app and proves
properties of them.

* **The service worker** (`service-worker.js`). On install it pre-caches a fixed list of nine
  assets into the cache generation `"funwheel-v1"`, all or nothing. On activate it deletes every
  other generation. Each fetch is answered from any cache first. A miss goes to the network, and a
  successful GET response is put into the current cache. When the network fails, the cached
  `./index.html` is returned. Module `ServiceWorker` (service_worker.dfy) models the browser's
  CacheStorage as a value `Storage`. It holds the cache names in creation order and a map from each
  name to its cache, and each cache maps a request (method, URL) to a response. The network is an
  oracle `Request -> Option<Response>` (`None` is a network error). Pure functions (`Installed`,
  `Activated`, `Respond`, `Fetched`) state the policy, and lemmas prove its properties. Class
  `CacheStorage` holds the same state in two fields. Its handlers `Install`, `Activate` and
  `HandleFetch` change those fields step by step (open, `addAll`, delete in a loop, match, put) and
  are proved to compute exactly the pure functions.
* **The page logic** (`app.js`). Module `App` (app.dfy) covers the editor's list operations
  (move up, move down, edit, delete, add, reset) and JavaScript's `trim`. It also covers the slice
  arithmetic that picks the winner from the final angle, and the `spinning`/`lastTick` state. Class
  `Wheel` holds the page's module-level variables. Its methods are the button handlers, the spin
  guard, `tickOnSlice` and the last animation frame, each proved against a pure function
  (`MovedUp`, `Edited`, `RemovedAt`, `Added`, `SliceIndex`, `Selection`, ...).
* wrappers.dfy holds the `Option` type. `None` plays the part of JavaScript's `undefined`.

Cache API behaviour that the service worker relies on is taken from the Service Worker standard
(W3C, "Cache" and "CacheStorage" interfaces):
* `caches.match` searches the caches in creation order and returns the first entry found.
* A request whose method is not GET never matches, because `ignoreMethod` defaults to false.
* `addAll` rejects, writing nothing, if any response is not ok (status 200-299) or has status 206.
* `put` rejects a non-GET request and a 206 response.
* `caches.open` creates the cache when it is absent. So a failed install still leaves an empty
  `"funwheel-v1"` behind.

Three details of the code worth noting:
* A fetch is looked up in every cache (service-worker.js:28), so before activate an older generation can still answer.
* The fallback is the cached `./index.html` (service-worker.js:35); the root `./` is a different key.
* The fallback applies to every failed request, whatever it asks for, page or asset.

In app.js, `%` is JavaScript's truncating remainder. `Rem360` and `JsRemInt` model it exactly,
negative angles included. A frame whose timestamp is earlier than the spin's start produces a
negative angle, and then `SliceIndex` is at most 0. `showResult` with an empty list (every option
deleted while the wheel spins) shows `undefined`, which is `None` here. A stored empty list is kept
at load, because an empty array is truthy in JavaScript.

## Model

| member | source | states |
|---|---|---|
| ServiceWorker.MatchIn | service-worker.js:28 | `caches.match`: finds a response iff the request is a GET and some cache holds it; the response is the entry of the first cache, in creation order, that holds it |
| ServiceWorker.Opened | service-worker.js:15 | `caches.open`: the named cache exists afterwards, is created empty at the end of the order when absent, and no other cache changes |
| ServiceWorker.Stored | service-worker.js:32 | `cache.put`: the named cache maps the request to the response (unless non-GET or 206, when nothing changes); other caches unchanged |
| ServiceWorker.Deleted | service-worker.js:21 | `caches.delete`: the named cache is gone, every other cache and its contents stays |
| ServiceWorker.FetchAll | service-worker.js:15 | the `addAll` fetch phase succeeds iff every asset's response is ok and not 206, and the batch then maps exactly the asset GET requests to their responses |
| ServiceWorker.Respond | service-worker.js:28-35 | a hit is only ever for a GET, and is exactly the entry `caches.match` finds in the first cache, in creation order, that holds the request; a miss the network answers is replied with that answer, whatever its method or status (a 206 included); fallback or failure only when the network failed; a fallback is the stored `./index.html` |
| ServiceWorker.Installed | service-worker.js:14-15 | install (open, then `addAll`) always leaves `CACHE` in the storage, even when the batch fails, and removes no cache |
| ServiceWorker.Fetched | service-worker.js:28-33 | the storage after a fetch removes no cache, and is unchanged for a non-GET or when the network fails |
| ServiceWorker.Activated | service-worker.js:19-22 | after activate only `CACHE` can remain, and it keeps its contents |
| ServiceWorker.DeletedUnlessCurrent | service-worker.js:21 | one key of the activate loop: `CACHE` leaves the storage as it is; any other key is no longer a cache afterwards, while every other cache keeps its presence and contents |
| ServiceWorker.Pruned | service-worker.js:21 | the storage after the loop has visited the first i keys stays well formed, holds only caches of the start with their contents, and still holds `CACHE` if it was there |
| ServiceWorker.Remaining | service-worker.js:21 | the closed form of the same state: only caches of the start with their contents, `CACHE` kept, and a cache is gone only if it is not `CACHE` and its name was visited |
| ServiceWorker.PrunedIsRemaining | service-worker.js:21 | after visiting the first i keys, the storage holds `CACHE` (if it was among them) followed by the unvisited keys, with their caches unchanged |
| ServiceWorker.InstallCachesEveryAsset | service-worker.js:2-15 | after a successful install `CACHE` holds each of the 9 assets with the network's response, and is exactly its earlier entries (none if just created) overwritten by the batch: entries a fetch put earlier survive, nothing else enters |
| ServiceWorker.InstallAllOrNothing | service-worker.js:15 | if any asset fails, `CACHE` is exactly what it was (empty if just created): no partial batch |
| ServiceWorker.InstallTouchesOnlyCurrent | service-worker.js:15 | install changes no cache other than `CACHE` and at most appends `CACHE` to the order |
| ServiceWorker.ActivateIdempotent | service-worker.js:21 | activating twice equals activating once |
| ServiceWorker.ActivatedServesOnlyCurrent | service-worker.js:19-28 | after activate a lookup is answered by `CACHE` alone: older generations can no longer serve |
| ServiceWorker.FetchHitServesStore | service-worker.js:28 | a GET held by any cache is a `Hit` with the first holding cache's entry (an older generation before activate answers first), with no network call and no change to storage |
| ServiceWorker.FetchMissCachesGet | service-worker.js:28-34 | a GET miss answered by the network returns that response, whatever its status; `CACHE` then maps the request to it, except for a 206, which `put` refuses, leaving only the opened `CACHE` |
| ServiceWorker.FetchNonGetUntouched | service-worker.js:30-34 | a non-GET answered by the network is returned as is and storage is unchanged |
| ServiceWorker.FetchOfflineFallsBack | service-worker.js:35 | with the network down, any missed request gets what is stored for `./index.html`, fails iff no cache holds it, and storage is unchanged |
| ServiceWorker.FetchChangesAtMostOneEntry | service-worker.js:30-33 | a fetch changes no entry except the request's in `CACHE`, and at most appends `CACHE` |
| ServiceWorker.InstallStoresOnlyGets | service-worker.js:15 | install preserves "every stored request is a GET": `addAll` stores only the GET requests of the assets |
| ServiceWorker.ActivateStoresOnlyGets | service-worker.js:21 | activate preserves "every stored request is a GET" |
| ServiceWorker.FetchStoresOnlyGets | service-worker.js:30-33 | a fetch preserves "every stored request is a GET": a non-GET is never put |
| ServiceWorker.AssetsServedOffline | service-worker.js:1-35 | after a successful install and an activate every asset is a cache hit, whatever the network then does |
| ServiceWorker.CacheStorage.constructor | service-worker.js:14-15 | storage starts with no caches |
| ServiceWorker.CacheStorage.Open | service-worker.js:15 | `caches.open` on the storage fields equals `Opened` |
| ServiceWorker.CacheStorage.Put | service-worker.js:32 | `cache.put` on the storage fields equals `Stored` |
| ServiceWorker.CacheStorage.Delete | service-worker.js:21 | `caches.delete` on the storage fields equals `Deleted`; reports whether the cache existed |
| ServiceWorker.CacheStorage.Match | service-worker.js:28 | the loop over the caches in order returns `MatchIn` |
| ServiceWorker.CacheStorage.Install | service-worker.js:14-17 | open then `addAll` leaves the storage `Installed`; succeeds iff every asset is fetched acceptably |
| ServiceWorker.CacheStorage.DeleteUnlessCurrent | service-worker.js:21 | one key of the delete loop, in place, equals `DeletedUnlessCurrent` |
| ServiceWorker.CacheStorage.Activate | service-worker.js:19-24 | the delete loop over `caches.keys()` leaves the storage `Activated` |
| ServiceWorker.CacheStorage.HandleFetch | service-worker.js:26-37 | replies `Respond` and leaves the storage `Fetched` |
| App.Trim | app.js:168 | `trim` returns the slice of the text left after removing leading and trailing JavaScript white space, and it neither starts nor ends with white space |
| App.TrimIdempotent | app.js:186 | trimming twice equals trimming once |
| App.TrimEmptyIff | app.js:186-187 | the trimmed text is empty iff the text is all white space (the add and edit "blank" test) |
| App.MovedUp | app.js:155 | move up swaps rows i-1 and i for i > 0, keeps length, multiset and every other row; row 0 does nothing |
| App.MovedDown | app.js:160 | move down swaps rows i and i+1 below the last row, keeps length, multiset and every other row; the last row does nothing |
| App.MoveDownUndoesMoveUp | app.js:155-160 | moving the row down again restores the list |
| App.MoveUpUndoesMoveDown | app.js:155-160 | moving the row up again restores the list |
| App.Edited | app.js:165-171 | cancel or blank keeps the list; otherwise row i becomes the trimmed answer; length and other rows unchanged |
| App.RemovedAt | app.js:176 | delete removes exactly row i: length drops by one, the others keep their order |
| App.Added | app.js:185-191 | blank input changes nothing; otherwise the trimmed text is appended at the end |
| App.DeleteUndoesAdd | app.js:176-191 | deleting the row just added restores the list |
| App.Rem360 | app.js:119 | JavaScript's `% 360`: differs from the angle by a whole number of turns, equals the angle within (-360, 360), and is in [0, 360) for a non-negative angle, in (-360, 0] for a negative one |
| App.Slices | app.js:118 | `Math.max(1, n)` is at least 1 and equals n for a non-empty list |
| App.SliceIndex | app.js:117-119 | `Math.floor((angle % 360) / (360 / max(1, n)))`, written as in the code, is in [0, slices) for a non-negative angle and in [-slices, 0] for a negative one |
| App.JsRemInt | app.js:130 | JavaScript's integer `%`: in [0, b) for a non-negative dividend, in (-b, 0] for a negative one, and a - b on [b, 2b) |
| App.SelectedIndex | app.js:127-130 | the winning index is always in [0, n), and for a non-negative angle it is n-1-k where k is the slice index |
| App.Selection | app.js:127-131 | the announced option is the row at the winning index; `undefined` iff the list is empty |
| App.SelectedIffInArc | app.js:127-130 | row i wins iff angle mod 360 lies in the (n-1-i)-th arc of 360/n degrees |
| App.FullTurnSameResult | app.js:127-130 | one more full turn selects the same row |
| App.BaseTurnsDoNotMatter | app.js:80-83 | the 3 base turns of a spin do not change the winner; only the random extra angle does |
| App.Wheel.constructor | app.js:16-33 | load uses the stored list if present (even empty), else the six defaults; not spinning, `lastTick` -1 |
| App.Wheel.MoveUp | app.js:155 | the up button leaves `options` as `MovedUp` |
| App.Wheel.MoveDown | app.js:160 | the down button leaves `options` as `MovedDown` |
| App.Wheel.Edit | app.js:165-171 | the edit button leaves `options` as `Edited` |
| App.Wheel.Delete | app.js:176 | the delete button leaves `options` as `RemovedAt` |
| App.Wheel.Add | app.js:185-191 | the add button leaves `options` as `Added`, clearing the field only when something was added |
| App.Wheel.TypeNewOption | app.js:9 | typing into the new-option field (`newOptionInput.value`) sets it to exactly the typed text and changes nothing else |
| App.Wheel.Reset | app.js:199-202 | reset sets the list to the six defaults used at load |
| App.Wheel.Spin | app.js:74-83 | ignored while spinning or with no options; otherwise sets `spinning`, resets `lastTick` to -1 and aims at 3 turns plus the extra angle |
| App.Wheel.TickOnSlice | app.js:117-124 | ticks iff the slice index differs from `lastTick`, and `lastTick` is then that index |
| App.Wheel.Frame | app.js:89-110 | a frame sets the angle and ticks; the final frame clears `spinning` and shows `Selection` |

## Left out

- Canvas drawing (`drawWheel`), the easing curve and the `requestAnimationFrame` loop: rendering over floating point. `Frame` takes each frame's angle and whether time is up as inputs.
- `Math.random`, `performance.now`, sound and confetti: nondeterministic or foreign. `Spin` takes the random extra angle as an input.
- Floating-point rounding: angles are Dafny `real`s, so the arithmetic is exact.
- `localStorage` and JSON in `save` and at load: I/O through the browser. The constructor takes the stored list as a parameter, and saving after each change is not modelled.
- DOM building in `refreshList`, `prompt`, event wiring and the result modal. Each button is a method taking the row index or the prompt's answer. The input field is the field `newOption`.
- Service-worker registration, `skipWaiting` and `clients.claim`: host lifecycle with no state the model observes.
- Concurrency between fetch events, and the un-awaited `put`: each fetch is atomic, with the put applied at once.
- The deletes of activate run together under `Promise.all`; the model deletes them one after the other in key order, which gives the same final storage because each touches a different name.
- Response cloning: responses are immutable values, so the copy is the same value.
- Requests are keyed by method and URL only. Headers, URL resolution against the scope, `Vary` matching and the query options of `match` are not modelled. `./` and `./index.html` are distinct keys.
- Failures of the Cache API itself (a rejected open or delete), and reporting an install failure to the host: the model returns `ok` and otherwise assumes the store works.
