# In-memory key-value server: the store

A model of the store behind a small HTTP key-value server written in Go.
The server keeps a map from string keys to string values and a counter of
requests. Four handlers work on them, each under one lock:

- POST `/data` merges a decoded JSON object into the map;
- GET `/data` returns the whole map;
- `/data/{key}` deletes one key;
- `/stats` reports the counter and the map's size.

A dispatcher registered for `/data` sends POST and GET to their handlers
and answers 405 to every other verb.

The project has three modules:

- `Http` (`http.dfy`) holds the pure pieces: the verbs and the `/data/`
  prefix, how the delete handler takes the key out of the path (`KeyOf`),
  the outcome of a handler and its status code (`StatusOf`), and the error
  texts.
- `KvStore` (`store.dfy`) gives each handler as a pure function from the
  store's state (`State(data, requests)`) to the next state and a `Reply`.
  `Serve` dispatches one `Request` and `Run` serves a sequence of them in
  the order the lock lets them through. The lemmas state what the handlers
  promise.
- `KvServer` (`server.dfy`) holds the `Server` class with the two fields
  the Go handlers update in place. Each method is proved to take exactly
  the step its `KvStore` function describes. `PostData` keeps the source's
  loop that writes the payload pairs one at a time, in any order.

Because every handler holds the lock for all of its work on the fields,
each method call is one atomic step. That is why a sequential class is a
faithful model of the store.

Details of the code a reader might not expect:

- The POST handler answers a wrong verb with 405.
- The handler for the `/data/` subtree deletes whatever the verb is. A
  `GET /data/x` removes `x` just as `DELETE /data/x` does. So
  `KeyRequest` carries no verb.
- `/stats` answers every verb.
- The counter is not bumped once per completed operation. A delete that
  answers 400 or 404 leaves it alone. `ServeCountsAccepted` states the exact
  rule: the counter goes up by one exactly on a 2xx reply.

## Model

| member | source | states |
|---|---|---|
| Http.KeyOf | main.go:74 | the key is what follows `/data/`: the prefix followed by the key gives back the path, and the key is shorter than the path by the prefix's length |
| Http.KeyOfPrefixed | main.go:74 | extracting the key from `/data/` + k gives back k (round trip) |
| Http.KeyOfEmpty | main.go:74-79 | the key is empty exactly when the path is `/data/` itself |
| Http.StatusOf | main.go:30-90 | accepted outcomes get a 2xx code and rejected ones a 4xx code; 201 only for a stored payload, 404 only for a missing key, 405 only for a wrong verb, 400 exactly for a bad payload or an empty key, 200 exactly for get, stats and delete |
| Http.ErrorText | main.go:31-85 | every rejected request is answered with a non-empty message |
| KvStore.Merge | main.go:42-44 | the merged map has the keys of both maps; a payload value wins on every payload key, and every other key keeps its old value |
| KvStore.PostMerges | main.go:41-48 | an accepted POST answers 201, overrides the map by the payload and adds exactly one to the counter, whatever the payload's size |
| KvStore.PostEmptyPayload | main.go:41-46 | a POST of an empty object leaves the map alone, still counts one request and answers 201 |
| KvStore.PostRejected | main.go:30-39 | a wrong verb (405) or a body that fails to decode (400) leaves the map and the counter unchanged |
| KvStore.PostTwice | main.go:41-46 | posting the same payload twice leaves the same map as posting it once and counts two requests |
| KvStore.DisjointPostsCommute | main.go:41-46 | two POSTs with disjoint keys reach the same state in either order |
| KvStore.MergeSize | main.go:42-44 | a merge never shrinks the map and grows it by at most the payload's size |
| KvStore.GetIsSnapshot | main.go:51-58 | GET answers 200 with exactly the current map, keeps the map and adds one to the counter |
| KvStore.StatsReportsPriorCount | main.go:60-71 | `/stats` answers 200 with the counter from before its own request and the true size of the map, keeps the map, then adds one to the counter |
| KvStore.ServeDataOtherVerb | main.go:119-127 | any verb other than POST and GET on `/data` is answered 405 and changes nothing |
| KvStore.DeleteEmptyKey | main.go:74-79 | the path `/data/` is answered 400 and changes neither the map nor the counter |
| KvStore.DeleteMissingKey | main.go:81-87 | a key that is not stored is answered 404 and changes neither the map nor the counter |
| KvStore.DeletePresentKey | main.go:84-90 | a stored key is answered 200; exactly that key is removed, every other entry is unchanged, the map shrinks by one and the counter goes up by one |
| KvStore.ServeCountsAccepted | main.go:29-91 | for every request the counter goes up by one exactly when the reply is 2xx, and a 4xx reply leaves map and counter unchanged |
| KvStore.RunCounter | main.go:45-89 | over any sequence of requests the counter never decreases and grows by at most one per request |
| KvStore.DisjointPostsUnion | main.go:41-46 | N POSTs of pairwise disjoint payloads leave the union of all their pairs over the old entries, and the counter grows by exactly N |
| KvStore.ScenarioPostGetDeleteStats | main.go:29-91 | from an empty store: POST {x:1,y:2} is 201; GET returns {x:1,y:2} with 2 requests counted; DELETE /data/x is 200; GET returns {y:2}; stats reports 4 requests and size 1 |
| KvStore.ScenarioDeleteRejections | main.go:73-87 | DELETE `/data/` is 400; DELETE `/data/missing` is 404 and leaves the counter unchanged |
| KvServer.Server.constructor | main.go:22-27 | a new server has an empty map and a zero counter |
| KvServer.Server.PostData | main.go:29-49 | the in-place merge loop and counter increment take exactly the `Post` step |
| KvServer.Server.GetData | main.go:51-58 | takes exactly the `Get` step |
| KvServer.Server.GetStats | main.go:60-71 | reads the counters before incrementing; takes exactly the `Stats` step |
| KvServer.Server.DeleteData | main.go:73-91 | the empty-key check, the missing-key check and the removal take exactly the `Delete` step |
| KvServer.Server.HandleData | main.go:119-127 | the `/data` dispatch takes exactly the `ServeData` step |
| KvServer.Server.Handle | main.go:119-130 | a request handed to its registered handler takes exactly the `Serve` step |

## Left out

- The mutex is not modelled. It only makes each handler atomic, and a sequential method call already is. Threads and interleavings are not modelled; `Run` stands for the order in which the lock admits requests.
- JSON decoding and encoding are library calls. A body is given already decoded (`Decoded`) or as a decode failure (`Malformed`). A JSON `null` body decodes to a nil map without error; it behaves as `Decoded(map[])`.
- HTTP serving, response writing and the router are left out. A `Request` names the registered handler that receives it. The router's path cleaning, redirects and 404 for unregistered paths are not modelled. `Routed` assumes the router hands the delete handler only paths that start with `/data/`. A reply is an outcome with its status code and body. The trailing newline that Go's error helper adds to the message is not modelled.
- The background worker that logs the counters every five seconds is left out. It is timer-driven, writes only to the log and never changes the state.
- The shutdown channel, the shutdown method and OS signal handling are concurrency and process plumbing. They are left out. A second close of the channel would panic.
- The Go map's iteration order in the merge loop is not fixed. `PostData` picks the next key arbitrarily, and its result does not depend on the order.
- The counter is an unbounded integer. Go's `int` is 32 or 64 bits wide; its overflow is not modelled.
- Strings are modelled as sequences of characters. Go strings are byte strings, and the delete handler slices bytes; since the `/data/` prefix is ASCII, the extracted key is the same.
