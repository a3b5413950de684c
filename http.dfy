/** The pure, HTTP-facing pieces of the key-value server: the verbs and
    paths the handlers look at, how the delete handler takes the key out of
    the URL path, and which status code each handler outcome is answered
    with. */
module Http {

  const MethodGet: string := "GET"
  const MethodPost: string := "POST"

  const StatusOK: int := 200
  const StatusCreated: int := 201
  const StatusBadRequest: int := 400
  const StatusNotFound: int := 404
  const StatusMethodNotAllowed: int := 405

  /** The subtree pattern the delete handler is registered under. */
  const DataPrefix: string := "/data/"

  /** The key a delete request names: everything after "/data/". The router
      only hands the delete handler paths in that subtree, so a shorter path
      (on which the slice would panic) never reaches it. */
  function KeyOf(path: string): (key: string)
    requires DataPrefix <= path
    ensures DataPrefix + key == path
    ensures |key| == |path| - |DataPrefix|
  {
    path[|DataPrefix|..]
  }

  /** Taking the key out of "/data/" + key gives back the key. */
  lemma KeyOfPrefixed(key: string)
    ensures DataPrefix <= DataPrefix + key
    ensures KeyOf(DataPrefix + key) == key
  {
  }

  /** The key is empty exactly when the path is "/data/" itself. */
  lemma KeyOfEmpty(path: string)
    requires DataPrefix <= path
    ensures KeyOf(path) == "" <==> path == DataPrefix
  {
  }

  /** What a handler did with one request. */
  datatype Outcome =
    | Created           // POST /data merged its payload
    | Listed            // GET /data returned the map
    | Reported          // /stats returned the counters
    | Deleted           // /data/{key} removed the key
    | MethodNotAllowed  // a verb other than POST or GET on /data
    | BadPayload        // the POST body did not decode
    | KeyRequired       // the path was exactly "/data/"
    | KeyNotFound       // the key is not in the store
  {
    /** The request reached the store and was carried out. */
    predicate Accepted() {
      Created? || Listed? || Reported? || Deleted?
    }
  }

  /** The status code each outcome is answered with. */
  function StatusOf(o: Outcome): (code: int)
    ensures o.Accepted() <==> 200 <= code < 300
    ensures !o.Accepted() <==> 400 <= code < 500
    ensures code == StatusCreated <==> o == Created
    ensures code == StatusNotFound <==> o == KeyNotFound
    ensures code == StatusMethodNotAllowed <==> o == MethodNotAllowed
    ensures code == StatusBadRequest <==> o == BadPayload || o == KeyRequired
    ensures code == StatusOK <==> o == Listed || o == Reported || o == Deleted
  {
    match o
    case Created => StatusCreated
    case Listed => StatusOK
    case Reported => StatusOK
    case Deleted => StatusOK
    case MethodNotAllowed => StatusMethodNotAllowed
    case BadPayload => StatusBadRequest
    case KeyRequired => StatusBadRequest
    case KeyNotFound => StatusNotFound
  }

  /** The text a rejected request is answered with. */
  function ErrorText(o: Outcome): (text: string)
    requires !o.Accepted()
    ensures text != ""
  {
    match o
    case MethodNotAllowed => "Invalid request method"
    case BadPayload => "Bad request"
    case KeyRequired => "Key is required"
    case KeyNotFound => "Key not found"
  }
}
