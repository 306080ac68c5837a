# twitter-simple-api, modelled in Dafny

A model of a tiny Go tweet service with two layers:

- **The record store** (`internal/tweet/tweet.go`). The collection `TweetDB` is an ordered slice of tweets. A tweet's identifier is its position. The model is the class `TweetService.Service` with a `seq<Tweet>` field. Its four methods (`GetAllTweet`, `GetTweetByID`, `CreateTweet`, `DeleteTweetByID`) read or change that field in place. The bounds guard `ID > uint(len-1) || len == 0` is written with Go's unsigned wrap-around (`GoInt.ToUint64`). A lemma proves that the guard is exactly `ID >= len`. Delete only swaps slot `ID` with the last slot, as the code does: the length stays the same and the multiset of tweets is kept.
- **The request layer** (`internal/transport/http/handler.go`). A request is an abstract value: HTTP method, path shape with the `{id}` segment already extracted, first `X-Forwarded-For` value, remote address, and a body that either decoded or failed to decode. The pure function `TransportHttp.Serve` says what one request does: it gives an optional response (content type, status, payload) and the collection afterwards. The class `TransportHttp.Handler` has one method per Go handler, plus `ServeHTTP`, which is the router with the content-type middleware in front. Each method calls the store object and is proved equal to `Serve`, or to the handler's own spec function. The lemmas beside them state what the service promises: the route table, the forced `Likes = 0` and `Author = GetIP(r)` on create, the parse rule for ids, the uniform 500 error shape, and the fixed success messages.
- **`strconv.ParseUint(id, 10, 64)`** (module `Strconv`). Go's digit loop is modelled with its cutoff and wrap-around tests. A lemma proves it accepts exactly the non-empty ASCII digit strings whose value is below 2^64, and returns that value.

Two consequences of the code as written:

- `DeleteTweetByID` swaps slot `ID` with the last slot and never truncates the slice. After a successful delete the collection keeps its length, and the deleted tweet sits in the last slot. Seed → post "hi" → delete id 0 → list therefore shows two tweets, `hi` then the seed (`SeedPostDeleteList`).
- gorilla/mux runs router middleware only on matched routes, so only routed requests get the JSON Content-Type header.

## Model

| member | source | states |
|---|---|---|
| `TweetService.Service.constructor` | internal/tweet/tweet.go:22-32 | a new service's collection is exactly the one seeded tweet: "1st Tweet" by "Pholawat Tangsatit" with 0 likes |
| `TweetService.RecordMissing` | internal/tweet/tweet.go:35 | the guard `ID > uint(len-1) \|\| len == 0`, with `len-1` converted to `uint` by wrap-around; for any length Go allows, it holds exactly when `ID >= len` |
| `TweetService.EmptyCollectionNeedsLengthTest` | internal/tweet/tweet.go:47 | on an empty collection `uint(len-1)` wraps to 2^64-1, so `ID > uint(len-1)` alone would reject no identifier; the `len == 0` test is what rejects them |
| `TweetService.Service.GetAllTweet` | internal/tweet/tweet.go:42-44 | returns the whole collection in order, never an error, and changes nothing |
| `TweetService.Service.GetTweetByID` | internal/tweet/tweet.go:46-51 | error "record doesn't exist" iff `ID >= len`, including the empty collection; otherwise returns the tweet at `ID`; never changes the collection |
| `TweetService.Service.CreateTweet` | internal/tweet/tweet.go:53-56 | never errors, returns the tweet unchanged, and the new collection is the old one with the tweet appended (length + 1, earlier slots unchanged) |
| `TweetService.Service.DeleteTweetByID` | internal/tweet/tweet.go:34-40 | error "record doesn't exist" iff `ID >= len`, collection unchanged then; otherwise slots `ID` and `len-1` exchange; always the same length and the same multiset of tweets |
| `TweetService.Swap` | internal/tweet/tweet.go:38 | the parallel assignment puts each of the two slots' element in the other slot and leaves every other slot as it was |
| `TweetService.SwapPreservesMultiset` | internal/tweet/tweet.go:38 | the swap neither loses nor duplicates a tweet |
| `TweetService.SwapIsInvolution` | internal/tweet/tweet.go:38 | swapping the same two slots twice restores the sequence |
| `TweetService.SwapWithItself` | internal/tweet/tweet.go:38 | swapping a slot with itself changes nothing |
| `TweetService.DeleteLastKeepsContents` | internal/tweet/tweet.go:34-39 | calling `DeleteTweetByID` on the last index of a non-empty collection succeeds and leaves the collection identical |
| `TweetService.DeleteTwiceRestores` | internal/tweet/tweet.go:34-39 | calling `DeleteTweetByID` twice with the same valid index succeeds both times and gives back the original collection |
| `Strconv.ParseUint` | internal/transport/http/handler.go:74 | `strconv.ParseUint(id, 10, 64)`: an empty string or one starting with a non-digit is a syntax error, and a success means a non-empty all-digit string |
| `Strconv.Accumulate` | internal/transport/http/handler.go:124 | the digit loop with its cutoff and wrap-around tests: it succeeds only when every remaining character is a digit, and the accumulated value never decreases |
| `Strconv.AccumulateCorrect` | internal/transport/http/handler.go:74 | from a digit prefix and its value, the digit run that follows decides the outcome: a range error iff the run's value exceeds 2^64-1, a syntax error iff a non-digit follows a run that fits, success iff the run is the whole string and fits, returning its value |
| `Strconv.ParseUintCorrect` | internal/transport/http/handler.go:74 | succeeds exactly on non-empty ASCII digit strings whose value fits in 64 bits and returns their value; otherwise a range error iff the leading digit run exceeds 2^64-1, and a syntax error iff the string is empty or a non-digit follows a leading run that fits |
| `TransportHttp.GetIP` | internal/transport/http/handler.go:112-118 | the author is the `X-Forwarded-For` value when it is non-empty, otherwise the remote address |
| `TransportHttp.Route` | internal/transport/http/handler.go:45-50 | a route matches exactly GET/POST on the list path, GET/DELETE on the item path, and any method on the health path; anything else is unmatched |
| `TransportHttp.ErrorReply` | internal/transport/http/handler.go:141-145 | `SendErrorResponse`: status 500 with the handler's text in Message and the underlying error's text in Error |
| `TransportHttp.Stamped` | internal/transport/http/handler.go:98-99 | the tweet stored on create keeps the body's Message and gets Likes 0 and Author `GetIP(r)` |
| `TransportHttp.Serve` | internal/transport/http/handler.go:27-145 | one request through router, middleware and handler: a response exactly when a route matches, always with the JSON Content-Type; the store changes only on create or delete and its length only on create |
| `TransportHttp.RouteTable` | internal/transport/http/handler.go:45-50 | in both directions: GET/POST on `/api/tweet` are list/create, GET/DELETE on `/api/tweet/{id}` are get/delete, and `/api/health` matches every method |
| `TransportHttp.Handler.constructor` | internal/transport/http/handler.go:23-25 | the handler is built around the store it is given |
| `TransportHttp.Handler.GetAllTweet` | internal/transport/http/handler.go:58-68 | replies 200 with the collection as the store lists it |
| `TransportHttp.Handler.GetTweetByID` | internal/transport/http/handler.go:70-89 | parses the id, then asks the store; the reply matches the get-by-id specification and the store is not changed |
| `TransportHttp.Handler.CreateTweet` | internal/transport/http/handler.go:91-110 | reply and new collection match the create specification: an undecodable body stores nothing; otherwise the stamped tweet is appended |
| `TransportHttp.Handler.DeleteTweetByID` | internal/transport/http/handler.go:120-139 | reply and new collection match the delete specification: the store is called only with a parsed id, and its error becomes "Failed to retrieve tweet by ID" |
| `TransportHttp.Handler.Health` | internal/transport/http/handler.go:50-55 | always replies 200 with Message "Healthy" and an empty Error, without touching the store |
| `TransportHttp.Handler.ServeHTTP` | internal/transport/http/handler.go:27-56 | routing, the content-type middleware and the matched handler together give exactly the response and new collection `Serve` specifies |
| `TransportHttp.HealthIsAlwaysHealthy` | internal/transport/http/handler.go:50-55 | any request to `/api/health`, whatever its method and whatever the store holds, gets 200 "Healthy" and leaves the store unchanged |
| `TransportHttp.ListReturnsCollection` | internal/transport/http/handler.go:58-68 | GET `/api/tweet` returns 200 with the whole collection in order and changes nothing |
| `TransportHttp.CreateStampsTweet` | internal/transport/http/handler.go:98-107 | on a decoded body the new last tweet has the body's Message, Likes 0 and Author `GetIP(r)`, whatever the body claimed; earlier tweets stay in place; reply 200 "Your tweet has been posted" |
| `TransportHttp.CreateRejectsUndecodable` | internal/transport/http/handler.go:93-96 | a body that fails to decode gives 500 "Failed to parse tweet from body" with the decoder's error, and the store is unchanged |
| `TransportHttp.MalformedIdRejected` | internal/transport/http/handler.go:74-77 | on both item routes, an id that is not a non-empty decimal string below 2^64 gives 500 "Failed to parse ID to uint" with the parser's error text, and the store is unchanged |
| `TransportHttp.MissingRecordRejected` | internal/transport/http/handler.go:80-83 | on both item routes, a parsed id at or past the end gives 500 "Failed to retrieve tweet by ID" with "record doesn't exist"; the delete route reuses the "retrieve" text too |
| `TransportHttp.GetReturnsRecord` | internal/transport/http/handler.go:80-88 | a parsed id inside the collection gives 200 with the tweet at that position, and the store is unchanged |
| `TransportHttp.DeleteSwapsWithLast` | internal/transport/http/handler.go:130-136 | a parsed id inside the collection gives 200 "The tweet has been deleted"; the new collection swaps that slot with the last, so it has the same length and the same multiset |
| `TransportHttp.ErrorRepliesAreUniform` | internal/transport/http/handler.go:141-145 | every non-200 response is 500 with one handler text in Message, and a failed request never changes the store; "Failed to retrieve all tweets" and "Failed to create tweet" are never sent |
| `TransportHttp.SeedPostDeleteList` | internal/tweet/tweet.go:22-56 | from the seed, post "hi" stores it second with the caller's address and 0 likes; delete 0 swaps it to the front, and the list shows both tweets |
| `TransportHttp.BadIdsOnSeed` | internal/transport/http/handler.go:74-83 | on the seeded store, `GET /api/tweet/abc` fails with the invalid-syntax parse error and `GET /api/tweet/99` fails with "record doesn't exist", both as 500 |

## Left out

- `main.go`: process start, `http.ListenAndServe` on :8081, and fatal logging. Its call `NewHandler()` without an argument does not match `NewHandler(s *tweet.Service)`. The model builds the handler around a store it is given.
- JSON encoding and decoding. A request body is either already decoded or carries the decoder's error text. The `log.Panic` on a failed encode is not modelled.
- Logging: logrus output in `LogMiddleware`, `SetUpRoutes` and `SendErrorResponse` is not modelled. Only the Content-Type header the middleware sets is kept.
- gorilla/mux internals: path matching, path cleaning, `mux.Vars`, and the 404/405 answers for unmatched requests. `Route` works on an already-classified path. An unmatched request yields no response from the handlers. The `{id}` pattern matches only a non-empty segment without `/`, so a `TweetPath` whose id is empty or contains `/` never arises from the router. For such a path the router answers 404. The model, which does not restrict `TweetPath`, would answer it with the parse error.
- HTTP headers: header-name canonicalisation and multiple values. The request carries only the first `X-Forwarded-For` value.
- Concurrency: the shared `TweetDB` has no locking. Requests are modelled one at a time.
- Package-level sharing: in Go every `Service` works on the one package-level `TweetDB`, while the model gives each `Service` its own collection. The source builds at most one handler, so one collection per `Service` does the same job.
- Go `uint` is taken to be 64 bits wide, so `uint(uint_id)` is the identity. Go `int` (the `Likes` field) is a plain integer, because the service never computes with it.
- `Strconv.Quote`: does not model `strconv.Quote`'s escaping of quotes, backslashes and non-printable characters in the error text.
- `Strconv.ParseUint`: only base 10 and bit size 64 are modelled; the value returned together with a range error is dropped, because the handlers ignore it.
- `TweetService.Service.CreateTweet`: requires room for one more element below Go's maximum slice length (2^63-1). Appending past it panics in the Go runtime, which is not modelled.
