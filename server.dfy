/** The server object: the key-value map and the request counter that the
    handlers update in place. Each handler holds the server's lock for all
    of its work on the fields, so one call here is one atomic step; every
    method is proved to take exactly the step the pure function of the same
    name in KvStore describes. */
module KvServer {
  import opened Http
  import opened KvStore

  class Server {
    var data: map<string, string>
    var requests: int

    /** The store as a value, for stating what each handler does. */
    function Current(): State
      reads this
    {
      State(data, requests)
    }

    /** A server starts with no entries and no requests counted. */
    constructor ()
      ensures Current() == Initial
    {
      data := map[];
      requests := 0;
    }

    /** POST /data. The decoded pairs are written into the map one at a
        time, in whatever order the payload yields them. */
    method PostData(verb: string, body: Payload) returns (reply: Reply)
      modifies this
      ensures (Current(), reply) == Post(old(Current()), verb, body)
    {
      if verb != MethodPost {
        return Rejection(MethodNotAllowed);
      }
      if body.Malformed? {
        return Rejection(BadPayload);
      }
      var payload := body.entries;
      var pending := payload.Keys;
      while pending != {}
        invariant pending <= payload.Keys
        invariant data == Merge(old(data), payload - pending)
        invariant requests == old(requests)
        decreases pending
      {
        var key :| key in pending;
        data := data[key := payload[key]];
        pending := pending - {key};
      }
      assert payload - pending == payload;
      requests := requests + 1;
      reply := Reply(Created, NoBody);
    }

    /** GET /data. */
    method GetData() returns (reply: Reply)
      modifies this
      ensures (Current(), reply) == Get(old(Current()))
    {
      reply := Reply(Listed, Entries(data));
      requests := requests + 1;
    }

    /** /stats: the counters are read before the request counts itself. */
    method GetStats() returns (reply: Reply)
      modifies this
      ensures (Current(), reply) == Stats(old(Current()))
    {
      reply := Reply(Reported, Counters(requests, |data|));
      requests := requests + 1;
    }

    /** /data/{key}. The empty key is turned away before the store is
        looked at; only a removal is counted. */
    method DeleteData(path: string) returns (reply: Reply)
      requires DataPrefix <= path
      modifies this
      ensures (Current(), reply) == Delete(old(Current()), path)
    {
      var key := KeyOf(path);
      if key == "" {
        return Rejection(KeyRequired);
      }
      if key !in data {
        return Rejection(KeyNotFound);
      }
      data := data - {key};
      requests := requests + 1;
      reply := Reply(Deleted, NoBody);
    }

    /** The handler registered for "/data": dispatch on the verb. */
    method HandleData(verb: string, body: Payload) returns (reply: Reply)
      modifies this
      ensures (Current(), reply) == ServeData(old(Current()), verb, body)
    {
      if verb == MethodPost {
        reply := PostData(verb, body);
      } else if verb == MethodGet {
        reply := GetData();
      } else {
        reply := Rejection(MethodNotAllowed);
      }
    }

    /** One request, handed to the handler registered for its path. */
    method Handle(r: Request) returns (reply: Reply)
      requires Routed(r)
      modifies this
      ensures (Current(), reply) == Serve(old(Current()), r)
    {
      match r
      case DataRequest(verb, body) =>
        reply := HandleData(verb, body);
      case KeyRequest(path) =>
        reply := DeleteData(path);
      case StatsRequest =>
        reply := GetStats();
    }
  }
}
