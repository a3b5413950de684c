/** The store's behaviour as pure functions on its state: the key-value map
    and the request counter. Each handler is one function from the state
    before the request to the state after it and the reply; the class in
    KvServer is proved to follow them, and the lemmas here state what the
    handlers promise, one request at a time and over sequences of requests. */
module KvStore {
  import opened Http

  /** A request body after JSON decoding: the decoded object of string
      pairs, or a body that failed to decode. */
  datatype Payload = Decoded(entries: map<string, string>) | Malformed

  /** The store: the key-value map and the number of counted requests. */
  datatype State = State(data: map<string, string>, requests: int)

  /** What a reply carries besides its status. */
  datatype Body =
    | NoBody
    | Text(message: string)
    | Entries(entries: map<string, string>)
    | Counters(requests: int, databaseSize: int)

  datatype Reply = Reply(outcome: Outcome, body: Body) {
    function Status(): int {
      StatusOf(outcome)
    }
  }

  /** A fresh server: no entries, no requests counted. */
  const Initial: State := State(map[], 0)

  /** The reply to a request turned away with outcome o. */
  function Rejection(o: Outcome): Reply
    requires !o.Accepted()
  {
    Reply(o, Text(ErrorText(o)))
  }

  /** The map after writing every payload pair into data: payload values
      win over existing ones, every other key keeps its value. */
  function Merge(data: map<string, string>, payload: map<string, string>): (r: map<string, string>)
    ensures r.Keys == data.Keys + payload.Keys
    ensures forall k :: k in payload ==> r[k] == payload[k]
    ensures forall k :: k in data && k !in payload ==> r[k] == data[k]
  {
    data + payload
  }

  /** POST /data: merge the decoded payload and count the request. */
  function Post(s: State, verb: string, body: Payload): (State, Reply)
  {
    if verb != MethodPost then (s, Rejection(MethodNotAllowed))
    else match body
      case Malformed => (s, Rejection(BadPayload))
      case Decoded(payload) =>
        (State(Merge(s.data, payload), s.requests + 1), Reply(Created, NoBody))
  }

  /** GET /data: answer with the whole map and count the request. */
  function Get(s: State): (State, Reply)
  {
    (State(s.data, s.requests + 1), Reply(Listed, Entries(s.data)))
  }

  /** /stats: answer with the counter and the map size, then count the
      request. */
  function Stats(s: State): (State, Reply)
  {
    (State(s.data, s.requests + 1), Reply(Reported, Counters(s.requests, |s.data|)))
  }

  /** /data/{key}: remove the key; only a removal is counted. */
  function Delete(s: State, path: string): (State, Reply)
    requires DataPrefix <= path
  {
    var key := KeyOf(path);
    if key == "" then (s, Rejection(KeyRequired))
    else if key !in s.data then (s, Rejection(KeyNotFound))
    else (State(s.data - {key}, s.requests + 1), Reply(Deleted, NoBody))
  }

  /** The handler registered for "/data": POST and GET go to their
      handlers, every other verb is turned away. */
  function ServeData(s: State, verb: string, body: Payload): (State, Reply)
  {
    if verb == MethodPost then Post(s, verb, body)
    else if verb == MethodGet then Get(s)
    else (s, Rejection(MethodNotAllowed))
  }

  /** A request, by the registered handler that receives it. The delete and
      stats handlers never look at the verb, so those requests carry none. */
  datatype Request =
    | DataRequest(verb: string, body: Payload)  // "/data"
    | KeyRequest(path: string)                  // the "/data/" subtree
    | StatsRequest                              // "/stats"

  /** The router hands the delete handler only paths under "/data/". */
  predicate Routed(r: Request) {
    r.KeyRequest? ==> DataPrefix <= r.path
  }

  predicate AllRouted(reqs: seq<Request>) {
    forall i :: 0 <= i < |reqs| ==> Routed(reqs[i])
  }

  function Serve(s: State, r: Request): (State, Reply)
    requires Routed(r)
  {
    match r
    case DataRequest(verb, body) => ServeData(s, verb, body)
    case KeyRequest(path) => Delete(s, path)
    case StatsRequest => Stats(s)
  }

  /** The state after serving reqs one after another, as the lock orders
      them. */
  function Run(s: State, reqs: seq<Request>): State
    requires AllRouted(reqs)
    decreases |reqs|
  {
    if reqs == [] then s else Run(Serve(s, reqs[0]).0, reqs[1..])
  }

  // ---------------------------------------------------------------- POST

  /** An accepted POST overrides the map by the payload and counts exactly
      one request, whatever the payload's size. */
  lemma PostMerges(s: State, payload: map<string, string>)
    ensures Post(s, MethodPost, Decoded(payload)).1.Status() == StatusCreated
    ensures var t := Post(s, MethodPost, Decoded(payload)).0;
      && t.requests == s.requests + 1
      && t.data.Keys == s.data.Keys + payload.Keys
      && (forall k :: k in payload ==> t.data[k] == payload[k])
      && (forall k :: k in s.data && k !in payload ==> t.data[k] == s.data[k])
  {
  }

  /** An empty payload leaves the map alone but is still counted. */
  lemma PostEmptyPayload(s: State)
    ensures Post(s, MethodPost, Decoded(map[])) == (State(s.data, s.requests + 1), Reply(Created, NoBody))
  {
    assert Merge(s.data, map[]) == s.data;
  }

  /** A POST turned away before the store is touched leaves the state alone:
      405 for a wrong verb, 400 for a body that does not decode. */
  lemma PostRejected(s: State, verb: string, body: Payload)
    requires verb != MethodPost || body.Malformed?
    ensures Post(s, verb, body).0 == s
    ensures Post(s, verb, body).1.Status() ==
      if verb != MethodPost then StatusMethodNotAllowed else StatusBadRequest
  {
  }

  /** Posting the same payload twice leaves the map as posting it once, and
      counts two requests. */
  lemma PostTwice(s: State, payload: map<string, string>)
    ensures var once := Post(s, MethodPost, Decoded(payload)).0;
      var twice := Post(once, MethodPost, Decoded(payload)).0;
      twice.data == once.data && twice.requests == s.requests + 2
  {
  }

  /** Two POSTs with disjoint keys give the same state in either order. */
  lemma DisjointPostsCommute(s: State, p: map<string, string>, q: map<string, string>)
    requires p.Keys !! q.Keys
    ensures Post(Post(s, MethodPost, Decoded(p)).0, MethodPost, Decoded(q)).0
         == Post(Post(s, MethodPost, Decoded(q)).0, MethodPost, Decoded(p)).0
  {
  }

  /** The map grows by at most the payload's size and never shrinks. */
  lemma {:induction false} MergeSize(data: map<string, string>, payload: map<string, string>)
    ensures |data| <= |Merge(data, payload)| <= |data| + |payload|
  {
    var r := Merge(data, payload);
    assert r.Keys == data.Keys + (payload.Keys - data.Keys);
    assert |r.Keys| == |data.Keys| + |payload.Keys - data.Keys|;
    assert |payload.Keys - data.Keys| <= |payload.Keys| by {
      assert payload.Keys - data.Keys <= payload.Keys;
      SubsetSize(payload.Keys - data.Keys, payload.Keys);
    }
  }

  lemma {:induction false} SubsetSize<T>(a: set<T>, b: set<T>)
    requires a <= b
    ensures |a| <= |b|
  {
    if a != {} {
      var x :| x in a;
      SubsetSize(a - {x}, b - {x});
    }
  }

  // ----------------------------------------------------------- GET, stats

  /** GET answers with exactly the current map, keeps the map and counts the
      request. */
  lemma GetIsSnapshot(s: State)
    ensures Get(s).1 == Reply(Listed, Entries(s.data)) && Get(s).1.Status() == StatusOK
    ensures Get(s).0.data == s.data && Get(s).0.requests == s.requests + 1
  {
  }

  /** /stats reports the counter from before its own request and the true
      size of the map, keeps the map and then counts itself. */
  lemma StatsReportsPriorCount(s: State)
    ensures Stats(s).1.Status() == StatusOK
    ensures Stats(s).1.body.Counters?
    ensures Stats(s).1.body.requests == s.requests
    ensures Stats(s).1.body.databaseSize == |s.data|
    ensures Stats(s).0.data == s.data && Stats(s).0.requests == s.requests + 1
  {
  }

  /** Any verb other than POST and GET on "/data" is answered 405 and
      changes nothing. */
  lemma ServeDataOtherVerb(s: State, verb: string, body: Payload)
    requires verb != MethodPost && verb != MethodGet
    ensures ServeData(s, verb, body) == (s, Rejection(MethodNotAllowed))
    ensures ServeData(s, verb, body).1.Status() == StatusMethodNotAllowed
  {
  }

  // --------------------------------------------------------------- DELETE

  /** The path "/data/" names no key: 400, nothing changes. */
  lemma DeleteEmptyKey(s: State)
    ensures Delete(s, DataPrefix) == (s, Rejection(KeyRequired))
    ensures Delete(s, DataPrefix).1.Status() == StatusBadRequest
  {
  }

  /** A key that is not stored: 404, and neither the map nor the counter
      changes. */
  lemma DeleteMissingKey(s: State, key: string)
    requires key != "" && key !in s.data
    ensures Delete(s, DataPrefix + key) == (s, Rejection(KeyNotFound))
    ensures Delete(s, DataPrefix + key).1.Status() == StatusNotFound
  {
  }

  /** A stored key: 200, exactly that key goes, every other entry stays,
      the map shrinks by one and the request is counted. */
  lemma DeletePresentKey(s: State, key: string)
    requires key != "" && key in s.data
    ensures var (t, reply) := Delete(s, DataPrefix + key);
      && reply.Status() == StatusOK
      && key !in t.data
      && (forall k :: k != key ==> (k in t.data <==> k in s.data))
      && (forall k :: k in t.data ==> t.data[k] == s.data[k])
      && |t.data| == |s.data| - 1
      && t.requests == s.requests + 1
  {
  }

  // ------------------------------------------------------ every request

  /** A request changes the state only when it is carried out: the counter
      goes up by one exactly for the 2xx replies, and a 4xx reply leaves
      map and counter as they were. */
  lemma ServeCountsAccepted(s: State, r: Request)
    requires Routed(r)
    ensures var (t, reply) := Serve(s, r);
      && t.requests == (if reply.outcome.Accepted() then s.requests + 1 else s.requests)
      && (reply.Status() >= 400 ==> t == s)
  {
  }

  /** The counter never goes down, and goes up by at most one per request. */
  lemma {:induction false} RunCounter(s: State, reqs: seq<Request>)
    requires AllRouted(reqs)
    ensures s.requests <= Run(s, reqs).requests <= s.requests + |reqs|
    decreases |reqs|
  {
    if reqs != [] {
      ServeCountsAccepted(s, reqs[0]);
      RunCounter(Serve(s, reqs[0]).0, reqs[1..]);
    }
  }

  /** Posts of the given payloads, in order. */
  function Posts(ps: seq<map<string, string>>): (reqs: seq<Request>)
    ensures |reqs| == |ps|
    ensures forall i :: 0 <= i < |ps| ==> reqs[i] == DataRequest(MethodPost, Decoded(ps[i]))
  {
    if ps == [] then [] else [DataRequest(MethodPost, Decoded(ps[0]))] + Posts(ps[1..])
  }

  /** The keys of all the payloads. */
  function Keys(ps: seq<map<string, string>>): (ks: set<string>)
    ensures forall i, k :: 0 <= i < |ps| && k in ps[i] ==> k in ks
    ensures forall k :: k in ks ==> exists i :: 0 <= i < |ps| && k in ps[i]
  {
    if ps == [] then {} else ps[0].Keys + Keys(ps[1..])
  }

  /** Payloads whose key sets do not overlap. */
  predicate Disjoint(ps: seq<map<string, string>>) {
    forall i, j :: 0 <= i < j < |ps| ==> ps[i].Keys !! ps[j].Keys
  }

  /** N posts of pairwise disjoint payloads, in whatever order the lock
      lets them through: the map holds the union of all their pairs over the
      old entries, and the counter went up by exactly N. */
  lemma {:induction false} DisjointPostsUnion(s: State, ps: seq<map<string, string>>)
    requires Disjoint(ps)
    ensures AllRouted(Posts(ps))
    ensures var t := Run(s, Posts(ps));
      && t.requests == s.requests + |ps|
      && t.data.Keys == s.data.Keys + Keys(ps)
      && (forall i, k :: 0 <= i < |ps| && k in ps[i] ==> t.data[k] == ps[i][k])
      && (forall k :: k in s.data && k !in Keys(ps) ==> t.data[k] == s.data[k])
    decreases |ps|
  {
    if ps != [] {
      var reqs := Posts(ps);
      var s1 := Serve(s, reqs[0]).0;
      assert s1 == State(Merge(s.data, ps[0]), s.requests + 1);
      assert reqs[1..] == Posts(ps[1..]);
      assert Disjoint(ps[1..]) by {
        forall i, j | 0 <= i < j < |ps| - 1 ensures ps[1..][i].Keys !! ps[1..][j].Keys {
          assert ps[1..][i] == ps[i + 1] && ps[1..][j] == ps[j + 1];
        }
      }
      DisjointPostsUnion(s1, ps[1..]);
      var t := Run(s, reqs);
      assert t == Run(s1, Posts(ps[1..]));
      forall i, k | 0 <= i < |ps| && k in ps[i] ensures t.data[k] == ps[i][k] {
        if i == 0 {
          assert k !in Keys(ps[1..]);
        } else {
          assert ps[1..][i - 1] == ps[i];
        }
      }
    }
  }

  // ------------------------------------------------------------ scenarios

  /** Starting empty: POST {"x":"1","y":"2"}, GET, DELETE /data/x, GET,
      GET /stats. */
  lemma ScenarioPostGetDeleteStats()
    ensures var (s1, r1) := Post(Initial, MethodPost, Decoded(map["x" := "1", "y" := "2"]));
      var (s2, r2) := Get(s1);
      var (s3, r3) := Delete(s2, "/data/x");
      var (s4, r4) := Get(s3);
      var (s5, r5) := Stats(s4);
      && r1.Status() == 201
      && r2 == Reply(Listed, Entries(map["x" := "1", "y" := "2"])) && s2.requests == 2
      && r3.Status() == 200
      && r4 == Reply(Listed, Entries(map["y" := "2"]))
      && r5.body == Counters(4, 1)
  {
    var m := map["x" := "1", "y" := "2"];
    assert Merge(map[], m) == m;
    assert "/data/x" == DataPrefix + "x";
    KeyOfPrefixed("x");
    assert m - {"x"} == map["y" := "2"];
  }

  /** DELETE /data/ is a 400; deleting an unknown key is a 404 that does
      not move the counter. */
  lemma ScenarioDeleteRejections(s: State)
    requires "missing" !in s.data
    ensures Delete(s, "/data/").1.Status() == 400
    ensures Delete(s, "/data/missing").1.Status() == 404
    ensures Delete(s, "/data/missing").0.requests == s.requests
  {
  }
}
