/**
 * The request layer: the route table built by `SetUpRoutes`, the content-type
 * middleware, and the handlers that parse the `id` segment, call the record store,
 * and shape every result into a status and a JSON payload.
 */
module TransportHttp {
  import opened Wrappers
  import opened Strconv
  import opened TweetService

  const STATUS_OK: int := 200
  const STATUS_INTERNAL_SERVER_ERROR: int := 500

  /** The header `LogMiddleware` sets on every routed response. */
  const JSON_CONTENT_TYPE: string := "application/json; charset=UTF-8"

  const HEALTHY: string := "Healthy"
  const POSTED: string := "Your tweet has been posted"
  const DELETED: string := "The tweet has been deleted"

  const RETRIEVE_ALL_FAILED: string := "Failed to retrieve all tweets"
  const PARSE_ID_FAILED: string := "Failed to parse ID to uint"
  const RETRIEVE_BY_ID_FAILED: string := "Failed to retrieve tweet by ID"
  const PARSE_BODY_FAILED: string := "Failed to parse tweet from body"
  const CREATE_FAILED: string := "Failed to create tweet"

  /** The shape of the request path, with the `{id}` segment already extracted. */
  datatype Path = TweetsPath | TweetPath(id: string) | HealthPath | OtherPath(path: string)

  /** The request body, after the JSON decoder has run on it. */
  datatype Body = Decoded(tweet: Tweet) | Undecodable(error: string)

  /**
   * What the handlers read from an `*http.Request`: `forwardedFor` is the first
   * `X-Forwarded-For` header value, or "" when there is none.
   */
  datatype Request = Request(httpMethod: string, path: Path, forwardedFor: string, remoteAddr: string, body: Body)

  /** The JSON value a handler encodes: the `Response` struct, a list of tweets, or one tweet. */
  datatype Payload = Message(message: string, error: string) | TweetList(tweets: seq<Tweet>) | OneTweet(tweet: Tweet)

  /** What a handler writes: the status passed to `WriteHeader` and the encoded payload. */
  datatype Reply = Reply(status: int, payload: Payload)

  /** A routed response: the middleware's Content-Type header and the handler's reply. */
  datatype Response = Response(contentType: string, reply: Reply)

  /** The handlers registered by `SetUpRoutes`. */
  datatype Endpoint = ListRoute | CreateRoute | GetRoute(id: string) | DeleteRoute(id: string) | HealthRoute

  /** The response to one request (None when no route matches) and the collection after it. */
  datatype Exchange = Exchange(response: Option<Response>, db: seq<Tweet>)

  /** A handler's reply and the collection after it. */
  datatype Step = Step(reply: Reply, db: seq<Tweet>)

  /** The author recorded for a new tweet: the forwarding header if set, else the peer address. */
  function GetIP(r: Request): (ip: string)
    ensures r.forwardedFor != "" ==> ip == r.forwardedFor
    ensures r.forwardedFor == "" ==> ip == r.remoteAddr
  {
    if r.forwardedFor != "" then r.forwardedFor else r.remoteAddr
  }

  /** The route table of `SetUpRoutes`; the health route is registered for every method. */
  function Route(httpMethod: string, path: Path): (e: Option<Endpoint>)
    ensures e.Some? <==>
      || path == HealthPath
      || (path == TweetsPath && httpMethod in {"GET", "POST"})
      || (path.TweetPath? && httpMethod in {"GET", "DELETE"})
  {
    match path
    case TweetsPath =>
      if httpMethod == "GET" then Some(ListRoute)
      else if httpMethod == "POST" then Some(CreateRoute)
      else None
    case TweetPath(id) =>
      if httpMethod == "GET" then Some(GetRoute(id))
      else if httpMethod == "DELETE" then Some(DeleteRoute(id))
      else None
    case HealthPath => Some(HealthRoute)
    case OtherPath(_) => None
  }

  /** `SendErrorResponse`: status 500 with the handler's text and the error's text. */
  function ErrorReply(msg: string, err: string): (reply: Reply)
    ensures reply.status == STATUS_INTERNAL_SERVER_ERROR
    ensures reply.payload.Message? && reply.payload.message == msg && reply.payload.error == err
  {
    Reply(STATUS_INTERNAL_SERVER_ERROR, Message(msg, err))
  }

  /** A success reply carrying the `Response` struct with an empty `Error`. */
  function OkMessage(msg: string): Reply {
    Reply(STATUS_OK, Message(msg, ""))
  }

  /** The tweet `CreateTweet` stores for a decoded body. */
  function Stamped(t: Tweet, r: Request): (stored: Tweet)
    ensures stored.message == t.message && stored.likes == 0 && stored.author == GetIP(r)
  {
    t.(likes := 0, author := GetIP(r))
  }

  // Specification of each handler over the collection as a value.

  function ListSpec(db: seq<Tweet>): Reply {
    Reply(STATUS_OK, TweetList(db))
  }

  function GetByIdSpec(id: string, db: seq<Tweet>): Reply {
    match ParseUint(id)
    case Failed(kind) => ErrorReply(PARSE_ID_FAILED, NumErrorText(id, kind))
    case Parsed(n) =>
      if n < |db| then Reply(STATUS_OK, OneTweet(db[n]))
      else ErrorReply(RETRIEVE_BY_ID_FAILED, RECORD_NOT_FOUND)
  }

  function CreateSpec(r: Request, db: seq<Tweet>): Step {
    match r.body
    case Undecodable(e) => Step(ErrorReply(PARSE_BODY_FAILED, e), db)
    case Decoded(t) => Step(OkMessage(POSTED), db + [Stamped(t, r)])
  }

  function DeleteSpec(id: string, db: seq<Tweet>): Step {
    match ParseUint(id)
    case Failed(kind) => Step(ErrorReply(PARSE_ID_FAILED, NumErrorText(id, kind)), db)
    case Parsed(n) =>
      if n < |db| then Step(OkMessage(DELETED), Swap(db, n, |db| - 1))
      else Step(ErrorReply(RETRIEVE_BY_ID_FAILED, RECORD_NOT_FOUND), db)
  }

  /** One request through the router, the middleware and the matched handler. */
  function Serve(r: Request, db: seq<Tweet>): (ex: Exchange)
    ensures ex.response.Some? <==> Route(r.httpMethod, r.path).Some?
    ensures ex.response.Some? ==> ex.response.value.contentType == JSON_CONTENT_TYPE
    ensures Route(r.httpMethod, r.path).None? ==> ex.db == db
    ensures ex.db != db ==>
      || Route(r.httpMethod, r.path) == Some(CreateRoute)
      || (r.path.TweetPath? && Route(r.httpMethod, r.path) == Some(DeleteRoute(r.path.id)))
    ensures Route(r.httpMethod, r.path) != Some(CreateRoute) ==> |ex.db| == |db|
  {
    match Route(r.httpMethod, r.path)
    case None => Exchange(None, db)
    case Some(e) =>
      var step :=
        match e
        case ListRoute => Step(ListSpec(db), db)
        case CreateRoute => CreateSpec(r, db)
        case GetRoute(id) => Step(GetByIdSpec(id, db), db)
        case DeleteRoute(id) => DeleteSpec(id, db)
        case HealthRoute => Step(OkMessage(HEALTHY), db);
      Exchange(Some(Response(JSON_CONTENT_TYPE, step.reply)), step.db)
  }

  /** `Handler`, built around the store it is given (`NewHandler`). */
  class Handler {
    const service: Service

    constructor (s: Service)
      ensures service == s
    {
      service := s;
    }

    method GetAllTweet() returns (reply: Reply)
      ensures reply == ListSpec(service.tweetDB)
    {
      var tweets := service.GetAllTweet();
      match tweets
      case Err(e) =>
        reply := ErrorReply(RETRIEVE_ALL_FAILED, e);
      case Ok(ts) =>
        reply := Reply(STATUS_OK, TweetList(ts));
    }

    method GetTweetByID(id: string) returns (reply: Reply)
      requires service.Valid()
      ensures reply == GetByIdSpec(id, service.tweetDB)
    {
      var parsed := ParseUint(id);
      match parsed
      case Failed(kind) =>
        reply := ErrorReply(PARSE_ID_FAILED, NumErrorText(id, kind));
      case Parsed(n) =>
        var found := service.GetTweetByID(n);
        match found
        case Err(e) =>
          reply := ErrorReply(RETRIEVE_BY_ID_FAILED, e);
        case Ok(t) =>
          reply := Reply(STATUS_OK, OneTweet(t));
    }

    method CreateTweet(r: Request) returns (reply: Reply)
      requires service.Valid() && service.HasRoom()
      modifies service
      ensures service.Valid()
      ensures Step(reply, service.tweetDB) == CreateSpec(r, old(service.tweetDB))
    {
      match r.body
      case Undecodable(e) =>
        reply := ErrorReply(PARSE_BODY_FAILED, e);
      case Decoded(t) =>
        var created := service.CreateTweet(Stamped(t, r));
        match created
        case Err(e) =>
          reply := ErrorReply(CREATE_FAILED, e);
        case Ok(_) =>
          reply := OkMessage(POSTED);
    }

    method DeleteTweetByID(id: string) returns (reply: Reply)
      requires service.Valid()
      modifies service
      ensures service.Valid()
      ensures Step(reply, service.tweetDB) == DeleteSpec(id, old(service.tweetDB))
    {
      var parsed := ParseUint(id);
      match parsed
      case Failed(kind) =>
        reply := ErrorReply(PARSE_ID_FAILED, NumErrorText(id, kind));
      case Parsed(n) =>
        var deleted := service.DeleteTweetByID(n);
        match deleted
        case Err(e) =>
          reply := ErrorReply(RETRIEVE_BY_ID_FAILED, e);
        case Ok(_) =>
          reply := OkMessage(DELETED);
    }

    /** The health route: always 200 "Healthy", the store is not touched. */
    method Health() returns (reply: Reply)
      ensures reply == Reply(STATUS_OK, Message(HEALTHY, ""))
    {
      reply := OkMessage(HEALTHY);
    }

    /** The router with `LogMiddleware` in front: route, tag the content type, dispatch. */
    method ServeHTTP(r: Request) returns (resp: Option<Response>)
      requires service.Valid()
      requires Route(r.httpMethod, r.path) == Some(CreateRoute) ==> service.HasRoom()
      modifies service
      ensures service.Valid()
      ensures Exchange(resp, service.tweetDB) == Serve(r, old(service.tweetDB))
    {
      var route := Route(r.httpMethod, r.path);
      match route
      case None =>
        resp := None;
      case Some(e) =>
        var reply;
        match e {
          case ListRoute =>
            reply := GetAllTweet();
          case CreateRoute =>
            reply := CreateTweet(r);
          case GetRoute(id) =>
            reply := GetTweetByID(id);
          case DeleteRoute(id) =>
            reply := DeleteTweetByID(id);
          case HealthRoute =>
            reply := Health();
        }
        resp := Some(Response(JSON_CONTENT_TYPE, reply));
    }
  }

  // Properties of the request layer, stated over one request and the collection before it.

  /** The route table, read in both directions. */
  lemma RouteTable(m: string, p: Path)
    ensures Route(m, p) == Some(ListRoute) <==> m == "GET" && p == TweetsPath
    ensures Route(m, p) == Some(CreateRoute) <==> m == "POST" && p == TweetsPath
    ensures forall id :: Route(m, p) == Some(GetRoute(id)) <==> m == "GET" && p == TweetPath(id)
    ensures forall id :: Route(m, p) == Some(DeleteRoute(id)) <==> m == "DELETE" && p == TweetPath(id)
    ensures Route(m, p) == Some(HealthRoute) <==> p == HealthPath
  {
  }

  /** The health route answers 200 "Healthy" for any method and any store, and changes nothing. */
  lemma HealthIsAlwaysHealthy(r: Request, db: seq<Tweet>)
    requires r.path == HealthPath
    ensures Serve(r, db) == Exchange(Some(Response(JSON_CONTENT_TYPE, Reply(STATUS_OK, Message(HEALTHY, "")))), db)
  {
  }

  /** Listing returns the whole collection in order and changes nothing. */
  lemma ListReturnsCollection(r: Request, db: seq<Tweet>)
    requires r.httpMethod == "GET" && r.path == TweetsPath
    ensures Serve(r, db) == Exchange(Some(Response(JSON_CONTENT_TYPE, Reply(STATUS_OK, TweetList(db)))), db)
  {
  }

  /**
   * A decoded body is stored last with its own message, no likes and the caller's
   * address as author, whatever likes and author the body carried; the earlier
   * tweets keep their positions.
   */
  lemma CreateStampsTweet(r: Request, db: seq<Tweet>)
    requires r.httpMethod == "POST" && r.path == TweetsPath && r.body.Decoded?
    ensures var ex := Serve(r, db);
      && ex.response == Some(Response(JSON_CONTENT_TYPE, Reply(STATUS_OK, Message(POSTED, ""))))
      && |ex.db| == |db| + 1 && ex.db[..|db|] == db
      && ex.db[|db|] == Tweet(r.body.tweet.message, GetIP(r), 0)
  {
    assert (db + [Stamped(r.body.tweet, r)])[..|db|] == db;
  }

  /** A body that does not decode gives 500 with the decoder's error, and nothing is stored. */
  lemma CreateRejectsUndecodable(r: Request, db: seq<Tweet>)
    requires r.httpMethod == "POST" && r.path == TweetsPath && r.body.Undecodable?
    ensures Serve(r, db) == Exchange(Some(Response(JSON_CONTENT_TYPE, ErrorReply(PARSE_BODY_FAILED, r.body.error))), db)
  {
  }

  /**
   * An `id` that is not a non-empty decimal string fitting in 64 bits gives 500
   * "Failed to parse ID to uint" with the parser's error, on both item routes, and
   * the store is left as it was.
   */
  lemma MalformedIdRejected(r: Request, db: seq<Tweet>)
    requires r.httpMethod in {"GET", "DELETE"} && r.path.TweetPath? && !IsUint64Literal(r.path.id)
    ensures ParseUint(r.path.id).Failed?
    ensures Serve(r, db) == Exchange(Some(Response(JSON_CONTENT_TYPE,
      ErrorReply(PARSE_ID_FAILED, NumErrorText(r.path.id, ParseUint(r.path.id).kind)))), db)
  {
    ParseUintCorrect(r.path.id);
  }

  /**
   * A well-formed `id` that is not a position of the collection gives 500 "Failed to
   * retrieve tweet by ID" with the store's error, for reads and deletes alike.
   */
  lemma MissingRecordRejected(r: Request, db: seq<Tweet>)
    requires r.httpMethod in {"GET", "DELETE"} && r.path.TweetPath?
    requires IsUint64Literal(r.path.id) && DecimalValue(r.path.id) >= |db|
    ensures Serve(r, db) == Exchange(Some(Response(JSON_CONTENT_TYPE,
      ErrorReply(RETRIEVE_BY_ID_FAILED, RECORD_NOT_FOUND))), db)
  {
    ParseUintCorrect(r.path.id);
  }

  /** Reading a position of the collection returns the tweet stored there and changes nothing. */
  lemma GetReturnsRecord(r: Request, db: seq<Tweet>)
    requires r.httpMethod == "GET" && r.path.TweetPath?
    requires IsUint64Literal(r.path.id) && DecimalValue(r.path.id) < |db|
    ensures Serve(r, db) == Exchange(Some(Response(JSON_CONTENT_TYPE,
      Reply(STATUS_OK, OneTweet(db[DecimalValue(r.path.id)])))), db)
  {
    ParseUintCorrect(r.path.id);
  }

  /**
   * Deleting a position of the collection answers 200 "The tweet has been deleted"
   * and only exchanges that slot with the last one: the length and the multiset of
   * tweets stay the same.
   */
  lemma DeleteSwapsWithLast(r: Request, db: seq<Tweet>)
    requires r.httpMethod == "DELETE" && r.path.TweetPath?
    requires IsUint64Literal(r.path.id) && DecimalValue(r.path.id) < |db|
    ensures var n := DecimalValue(r.path.id);
      var ex := Serve(r, db);
      && ex.response == Some(Response(JSON_CONTENT_TYPE, Reply(STATUS_OK, Message(DELETED, ""))))
      && ex.db == Swap(db, n, |db| - 1)
      && |ex.db| == |db| && multiset(ex.db) == multiset(db)
  {
    ParseUintCorrect(r.path.id);
    SwapPreservesMultiset(db, DecimalValue(r.path.id), |db| - 1);
  }

  /** The texts a failed request can carry in `Message`. */
  const ERROR_MESSAGES: set<string> := {PARSE_ID_FAILED, RETRIEVE_BY_ID_FAILED, PARSE_BODY_FAILED}

  /**
   * Every response is either a success (200) or the uniform error shape: 500, the
   * handler's text in `Message`, and a failed request never changes the store.
   * The list and create handlers' own error texts can never be sent, because the
   * store's list and append never fail.
   */
  lemma ErrorRepliesAreUniform(r: Request, db: seq<Tweet>)
    ensures var ex := Serve(r, db);
      ex.response.Some? && ex.response.value.reply.status != STATUS_OK ==>
        && ex.response.value.reply.status == STATUS_INTERNAL_SERVER_ERROR
        && ex.response.value.reply.payload.Message?
        && ex.response.value.reply.payload.message in ERROR_MESSAGES
        && ex.db == db
    ensures var ex := Serve(r, db);
      ex.response.Some? && ex.response.value.reply.payload.Message? ==>
        ex.response.value.reply.payload.message !in {RETRIEVE_ALL_FAILED, CREATE_FAILED}
  {
  }

  /**
   * From the seeded collection: posting "hi" appends it, stamped with the caller's
   * address; deleting id 0 then swaps it to the front without dropping the seed, so
   * listing shows both tweets.
   */
  lemma {:induction false} SeedPostDeleteList(forwardedFor: string, remoteAddr: string, claimed: Tweet)
    ensures
      var post := Request("POST", TweetsPath, forwardedFor, remoteAddr, Decoded(claimed.(message := "hi")));
      var posted := Serve(post, [SEED]);
      var deleted := Serve(Request("DELETE", TweetPath("0"), "", remoteAddr, Undecodable("EOF")), posted.db);
      var listed := Serve(Request("GET", TweetsPath, "", remoteAddr, Undecodable("EOF")), deleted.db);
      && posted.db == [SEED, Tweet("hi", GetIP(post), 0)]
      && deleted.response == Some(Response(JSON_CONTENT_TYPE, Reply(STATUS_OK, Message(DELETED, ""))))
      && listed.response == Some(Response(JSON_CONTENT_TYPE,
           Reply(STATUS_OK, TweetList([Tweet("hi", GetIP(post), 0), SEED]))))
  {
    var post := Request("POST", TweetsPath, forwardedFor, remoteAddr, Decoded(claimed.(message := "hi")));
    var hi := Tweet("hi", GetIP(post), 0);
    assert Stamped(post.body.tweet, post) == hi;
    assert Serve(post, [SEED]).db == [SEED, hi];
    assert ParseUint("0") == Parsed(0);
    assert Swap([SEED, hi], 0, 1) == [hi, SEED];
  }

  /** Asking for a non-numeric id or one past the end both fail with 500, as different errors. */
  lemma {:induction false} BadIdsOnSeed(remoteAddr: string)
    ensures Serve(Request("GET", TweetPath("abc"), "", remoteAddr, Undecodable("EOF")), [SEED]).response
      == Some(Response(JSON_CONTENT_TYPE,
           ErrorReply(PARSE_ID_FAILED, "strconv.ParseUint: parsing \"abc\": invalid syntax")))
    ensures Serve(Request("GET", TweetPath("99"), "", remoteAddr, Undecodable("EOF")), [SEED]).response
      == Some(Response(JSON_CONTENT_TYPE, ErrorReply(RETRIEVE_BY_ID_FAILED, RECORD_NOT_FOUND)))
  {
    assert ParseUint("abc") == Failed(InvalidSyntax);
    assert NumErrorText("abc", InvalidSyntax) == "strconv.ParseUint: parsing \"abc\": invalid syntax";
    assert ParseUint("99") == Parsed(99);
  }
}
