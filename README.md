# Flash-message relay: a Dafny model

This project models the core of a small Go service that relays flash messages. An authenticated caller
POSTs a batch of `{type, content}` messages. They are appended to a Redis list named `message::<sub>`,
whose time-to-live is reset to 60 seconds. A later GET by the same identity reads the whole list,
deletes it, and returns the decoded messages. The identity is the `sub` claim of a JWT bearer token,
and the token's signature is never checked.

The model has these parts:

- `wrappers.dfy` (`Wrappers`): the `Option` type.
- `codec.dfy` (`Codec`): the `Flash` record and a concrete JSON encoder and decoder for it. The escaping
  follows Go's `encoding/json` as the `Flash` struct is marshalled: `\"`, `\\`, `\n`, `\r` and `\t`
  are short escapes; other control characters, `<`, `>`, `&`, U+2028 and U+2029 are written as `\u`
  with four hex digits. The round trip `Decode(Encode(f)) == Some(f)` is proved, not assumed. So is the
  fact that an encoded entry contains no raw control character, and in particular no newline.
- `auth.dfy` (`Auth`): `extractSubFromToken` as the function `ExtractSub`. The JWT parser
  (`ParseUnverified`) is a parameter of type `ClaimsDecoder`, from a token to its claim set or `None`.
  As in Go, the header is a sequence of bytes, and its length and the slice that drops the scheme count
  bytes, not characters. The two Go runtime panics are explicit results:
  - a header shorter than seven bytes, which makes the slice `authHeader[len("Bearer "):]` panic;
  - a `sub` claim that is not a string, which makes the type assertion `sub.(string)` panic.
- `store.dfy` (`Store`): the Redis keyspace as a value `Keyspace`. It holds lists, per-key deadlines,
  and an abstract clock in seconds. It comes with the meaning of `RPUSH`, `EXPIRE`, `LRANGE 0 -1` and
  `DEL`, and of time passing. A failed network round trip is an explicit `fault` argument; the command
  then replies with an error and changes nothing. The class `Store` holds the keyspace in fields. Its
  methods are proved to perform exactly those transitions and to keep Redis's own invariants:
  - no key holds an empty list;
  - only existing keys have a deadline;
  - no key outlives its deadline.
- `http.dfy` (`Http`): status codes, the responses the handlers write, and the request `Context` class.
  `Aborted` stands for a panicking request, for which no response is written.
- `handlers.dfy` (`Handlers`): `addMessages` and `getMessages`.
  - `AddStep` and `DrainStep` give each request's effect on the keyspace and its response.
  - The methods `AddMessages` and `GetMessages` drive a `Store` object command by command and are proved
    equal to those functions.
  - The serialization and deserialization loops are the methods `SerializeFlashes` and
    `DeserializeEntries`.
- `pipeline.dfy` (`Pipeline`): `loadAuthenticationMiddleware` wrapped around the route's handler
  (`Authenticate`, specified by `ServeStep`), and `livenessHandler`.
- `properties.dfy` (`FlashProperties`): properties of request sequences. N enqueues followed by a drain
  deliver the concatenation of the batches. A drain delivers at most once. A queue drains empty more than
  60 seconds after its last enqueue, and still delivers within the window. There is also an end-to-end
  POST, POST, GET through the middleware.

In a few places the code does something other than what the service evidently intends, and the model
follows the code:

- The liveness endpoint is meant to report that the service is up. `livenessHandler` answers 503 Service
  Unavailable with `"status": "UP"` (main.go:79).
- A non-string `sub` claim is not rejected as a missing subject. The type assertion panics (main.go:50),
  and so does a header shorter than `"Bearer "` (main.go:35). In both cases the request ends without a
  response and without touching the store, because Go's HTTP server recovers the panic.
- The seven bytes before the token are never compared with `"Bearer "` (`Auth.SchemeNotChecked`).
- Posting an empty batch (`[]`, or an empty body, which Echo binds to a nil slice) sends `RPUSH` with no
  values, which Redis refuses. The `EXPIRE` in the same pipeline still runs. The answer is therefore 500,
  and a queue that already exists has its deadline refreshed (`Handlers.AddEmptyBatch`).
- The drain's `LRANGE` and `DEL` run inside `Watch` but outside any `MULTI`/`EXEC`, and the enqueue uses
  a plain pipeline, not a transaction. Neither is atomic against other clients. The model runs each
  request as one sequential step.
- A corrupt entry fails the drain with 500 after `DEL` has already removed the queue: its messages are
  lost (`Handlers.DrainCorrupt`).
- The group prefix `/api/v1/user` and the route `/api/v1/user/flash` concatenate to
  `/api/v1/user/api/v1/user/flash` (main.go:220-225). Routing is outside the model.

## Model

| member | source | states |
|---|---|---|
| `Codec.Encode` | main.go:145 | computes `json.Marshal` of a flash message: `{"type":` then the quoted, escaped kind, `,"content":` then the quoted, escaped content, then `}` |
| `Codec.Decode` | main.go:110 | computes `json.Unmarshal` of one stored entry: the message when the entry has the layout `Encode` writes and both strings are well escaped, else `None` |
| `Codec.DecodeEncode` | main.go:145 | decoding the JSON that marshalling a flash message produces gives back that same message |
| `Codec.EscapeRoundTrip` | main.go:110 | a string's escaped form followed by a closing quote reads back as that string, and the rest of the input is left intact |
| `Codec.EncodeHasNoControlChars` | main.go:151 | a serialized entry contains no raw control character, so no newline |
| `Codec.InfoHelloRoundTrip` | main.go:17-20 | the message `{type: "info", content: "hello"}` survives encoding and decoding unchanged |
| `Auth.ExtractSub` | main.go:26-54 | an empty header is `MissingHeader` and nothing else is; a header of 1 to 6 bytes panics; an identity is returned exactly when the header minus its first 7 bytes decodes to claims with a string `sub`, and it is that `sub` unchanged |
| `Auth.BearerIdentity` | main.go:35-50 | `Bearer <token>` whose claims carry the string `sub` s yields identity s |
| `Auth.SchemeNotChecked` | main.go:35 | any 7-byte prefix gives the same outcome as `"Bearer "`: the scheme is never checked |
| `Auth.InvalidTokenRejected` | main.go:38-41 | a token the JWT parser rejects gives `ParseError` |
| `Auth.MissingSubRejected` | main.go:45-48 | claims without `sub` give `MissingSub` |
| `Auth.NonStringSubPanics` | main.go:50 | a `sub` that is not a string makes the type assertion panic |
| `Store.Range` | main.go:97 | computes the reply of `LRANGE key 0 -1`: the whole list stored at the key, or `[]` when the key is absent |
| `Store.RPushCmd` | main.go:157 | RPUSH succeeds iff the connection works and there is at least one value; it then appends the values at the tail of the list (creating it) and replies with the new length; on error nothing changes; deadlines and clock are untouched |
| `Store.ExpireCmd` | main.go:160 | EXPIRE replies whether the key exists, and if so sets its deadline to now + secs, replacing any earlier one; lists are untouched |
| `Store.DelCmd` | main.go:103 | DEL replies 1 or 0 for whether the key existed, and removes the key and its deadline |
| `Store.Advanced` | main.go:160 | after time passes, exactly the keys whose deadline has not passed remain, with their lists unchanged |
| `Store.CommandsPreserveWf` | main.go:155-163 | RPUSH, EXPIRE and DEL keep Redis's invariants: no empty list, deadlines only on existing keys, none already passed |
| `Store.RPushFrame` | main.go:157 | RPUSH changes no other key's list |
| `Store.ExpireFrame` | main.go:160 | EXPIRE changes no other key's deadline |
| `Store.DelFrame` | main.go:103 | DEL changes no other key's list or deadline |
| `Store.Store.RPush` | main.go:157 | the store object performs exactly the RPUSH transition and reply, keeping its invariant |
| `Store.Store.Expire` | main.go:160 | the store object performs exactly the EXPIRE transition and reply |
| `Store.Store.LRange` | main.go:97 | LRANGE 0 -1 returns the whole list, or `[]` for an absent key, and changes nothing |
| `Store.Store.Del` | main.go:103 | the store object performs exactly the DEL transition and reply |
| `Store.Store.Advance` | main.go:160 | time passing on the server discards exactly the expired keys |
| `Handlers.QueueKey` | main.go:90 | the queue key starts with `"message::"`, and the identity is exactly what follows it |
| `Handlers.QueueKeyInjective` | main.go:90 | `"message::" + sub` names a different key for every identity |
| `Handlers.EncodeAllAt` | main.go:143-152 | entry i of the serialized batch is the encoding of message i |
| `Handlers.DecodeAllSpec` | main.go:108-114 | the entries decode as a whole iff each one decodes, and then in order, entry by entry |
| `Handlers.DecodeAllEncodeAll` | main.go:108-114 | a stored batch deserializes to the batch that was stored |
| `Handlers.DecodeAllConcat` | main.go:108-114 | deserializing two runs of entries one after the other succeeds iff both do, and gives the concatenation |
| `Handlers.SerializeFlashes` | main.go:143-152 | the loop yields one entry per message, in order, each the message's encoding |
| `Handlers.DeserializeEntries` | main.go:108-114 | the loop succeeds iff every entry decodes, and then yields the decoded messages in order |
| `Handlers.AddStep` | main.go:130-173 | what one POST does to the keyspace and answers: 400 `Invalid request` exactly when the body does not bind; 204 exactly when a non-empty batch is saved with no store failure; 500 `Failed to save messages to Redis` exactly when a bound batch is empty or the round trip fails |
| `Handlers.DrainStep` | main.go:84-128 | what one GET does to the keyspace and answers: 200 with a list exactly when LRANGE and DEL succeed and every stored entry decodes, and then the list is the decoded queue; otherwise 500 `Failed to read and delete messages from Redis` |
| `Handlers.AddMessages` | main.go:130-173 | the handler method on the store object performs exactly `AddStep`: 400 on bind failure, else RPUSH and EXPIRE in one round trip, 500 if either fails, else 204 |
| `Handlers.GetMessages` | main.go:84-128 | the handler method on the store object performs exactly `DrainStep`: LRANGE, DEL, then decode; 500 on any failure, else 200 with the list |
| `Handlers.AddBindFailure` | main.go:131-137 | an unbindable body answers 400 and leaves every queue and deadline unchanged |
| `Handlers.AddAppends` | main.go:139-172 | a non-empty batch is appended in input order at the tail of `message::<sub>`, whose deadline becomes now + 60 whatever it was; nothing else changes; the answer is 204 |
| `Handlers.AddEmptyBatch` | main.go:155-170 | an empty batch answers 500, leaves all lists unchanged, and refreshes an existing queue's deadline |
| `Handlers.AddStoreFailure` | main.go:165-170 | a failed round trip answers 500 and changes nothing |
| `Handlers.AddQueueTail` | main.go:157 | without a store failure, the caller's queue grows by exactly the serialized batch |
| `Handlers.AddPreservesWf` | main.go:155-163 | an enqueue request keeps Redis's invariants |
| `Handlers.DrainDelivers` | main.go:97-127 | when every entry decodes, the drain answers 200 with the entries in queue order and removes the queue and its deadline |
| `Handlers.DrainAbsent` | main.go:92 | draining an absent queue answers 200 with `[]` and changes nothing |
| `Handlers.DrainCorrupt` | main.go:103-124 | one entry that fails to decode makes the drain answer 500 with no list, and the queue has already been deleted |
| `Handlers.DrainStoreFailure` | main.go:97-105 | a failed LRANGE or DEL answers 500 and leaves the store unchanged |
| `Handlers.DrainClears` | main.go:103 | a drain that reaches the store leaves the caller's queue and its deadline absent, whatever the entries hold |
| `Handlers.DrainPreservesWf` | main.go:95-117 | a drain request keeps Redis's invariants |
| `Handlers.IdentitiesIsolated` | main.go:139 | a request for one identity leaves every other identity's queue and deadline untouched |
| `Pipeline.ServeStep` | main.go:196-205 | one request through the middleware and the route's handler: 401 exactly when extraction fails, an aborted request exactly when it panics, and in both cases the keyspace unchanged |
| `Pipeline.HandlerStep` | main.go:202-203 | computes the route's handler step for an identity: `DrainStep` for the GET route, `AddStep` with the bound body for the POST route |
| `Pipeline.Authenticate` | main.go:196-205 | the middleware method performs exactly `ServeStep`, and records the extracted `sub` in the context only when there is one |
| `Pipeline.Liveness` | main.go:76-82 | liveness answers 503 with `"status": "UP"` and never consults the store |
| `Pipeline.UnauthenticatedUntouched` | main.go:198-201 | when extraction fails the answer is 401, the handler is not run and the store is unchanged |
| `Pipeline.MissingHeaderUnauthorized` | main.go:30-32 | a request without an `Authorization` header answers 401 and does not touch the store |
| `Pipeline.PanicUntouched` | main.go:35 | a panicking extraction aborts the request before the handler, and the store is unchanged |
| `Pipeline.AuthenticatedRunsHandler` | main.go:202-203 | with an identity, the request is exactly one run of the route's handler for that identity |
| `FlashProperties.EnqueueAllQueue` | main.go:157 | N successful enqueues extend the queue by the serialized concatenation of the batches |
| `FlashProperties.EnqueueAllThenDrain` | main.go:97-127 | N enqueues and then a drain deliver what was pending followed by all batches in call order, and leave the key absent |
| `FlashProperties.TwoEnqueuesThenDrain` | main.go:157 | enqueue A, enqueue B, drain: the answer is A ++ B and `message::<sub>` is gone |
| `FlashProperties.DrainAtMostOnce` | main.go:103 | a second drain right after a first answers 200 with `[]` |
| `FlashProperties.ExpiredQueueDrainsEmpty` | main.go:97 | a queue whose deadline has passed drains as 200 with `[]`, never as an error |
| `FlashProperties.EnqueuedQueueExpires` | main.go:160 | more than 60 s after the last enqueue, the queue drains empty |
| `FlashProperties.EnqueuedQueueRetained` | main.go:160 | within 60 s of the last enqueue, the drain delivers everything pending |
| `FlashProperties.BearerPostPostGet` | main.go:196-205 | through the middleware, two POSTs and a GET with the same bearer token answer 204, 204, then 200 with both batches in order |
| `FlashProperties.PostPostGet` | main.go:222-225 | on the store object, POST, POST, GET return both batches in order and leave the queue absent |

## Left out

- `readinessHandler` (main.go:57-73): a network ping of Redis.
- Prometheus metrics, Echo routing and route groups, `main()`, the listen port and logging: transport
  and framework plumbing.
- The middleware that puts the Redis client into the context (main.go:187-193): it only stores a handle,
  and the model passes the `Store` explicitly instead.
- Concurrency: other clients and the `Watch` optimistic lock are not modelled. A request is one
  sequential step on the store.
- A network failure is all or nothing per round trip. A pipeline that fails half way, or a command
  applied on the server whose reply is lost, is not modelled.
- The JWT library (base64 and JSON decoding of the token) is not part of this model. It is the parameter
  `ClaimsDecoder`, and so is every token-level check the library makes.
- Echo's `Bind` is not part of this model. A request carries the bound batch, or `None` when binding
  fails.
- The "invalid token claims" branch (main.go:53) can never be taken: `ParseUnverified` is given
  `MapClaims`, so the claims are always a map. The "Failed to serialize messages" branch
  (main.go:146-149) can never be taken either, because marshalling two strings cannot fail. Neither
  branch is modelled.
- Codec.Decode: accepts only the layout the encoder writes: `type` then `content`, both present, no
  whitespace, no surrogate-pair escapes. Go's `json.Unmarshal` also accepts other field orders,
  whitespace, missing or unknown fields, and case-insensitive field names. Entries written by this
  service always have the accepted layout.
- Go's replacement of invalid UTF-8 by U+FFFD is not modelled: Dafny strings hold only Unicode scalar
  values. The short `\b` and `\f` escapes of newer Go releases are not modelled either; they are written
  as `\u0008` and `\u000c`.
- Store.Expire: a non-positive timeout, which Redis treats as a delete, is not modelled. The service
  always passes 60 seconds.
- Time is counted in whole seconds, not Redis's milliseconds. A key is alive up to and including its
  deadline.
- Go's HTTP server trims whitespace around header values before `Header.Get` returns them. The model
  takes the header value as given.
