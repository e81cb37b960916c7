# go-web events and REST dispatch, modelled in Dafny

This project models the two pieces of logic at the heart of the `web`
package of qmsk/go-web:

* **events.go** — the event fan-out. A set of bounded subscriber queues
  (`clientSet`) is owned by one actor (`Events.run`) that handles register,
  unregister, event and source-closed messages one at a time. The actor
  remembers the last event as `state`. A new subscriber gets `state` as the
  first item in its queue. Each event is offered to every subscriber without
  blocking, and a subscriber whose queue is full is closed and removed. When
  the event source closes, every subscriber is dropped.
* **rest.go** — the REST dispatch. The URL path is walked segment by segment
  through `IndexResource.Index`, collecting every `MutableResource` on the
  way and reversing that list in place. The request method is dispatched to
  `GetREST` or `PostREST`. After a POST, `ApplyREST` runs on the posted
  resource and then on its parents. Errors map to HTTP statuses.

Files:

* `wrappers.dfy` — `Option`.
* `text.dfy` — `strings.Split`/`strings.Join` with a one-character separator,
  and `%d` formatting with its inverse, plus the round trips between them.
* `events.dfy` — Go channels become the class `Queue`: an item buffer, a
  fixed capacity, a `closed` flag, and a ghost history of everything sent
  and received. `clientSet` becomes the class `ClientSet` over a set of
  queues. `Events` and its `run` goroutine become the class `Events`, with
  one `Handle…` method per message kind. The class invariant `Valid()`
  states three things:
  * every member is open and within capacity;
  * `state` is the last published event;
  * every member has been sent exactly the snapshot it joined with, followed
    by every event published since, in publish order.

  Two client methods walk through a slow subscriber being dropped, and a
  late subscriber reading its queue up to the end of the stream.
* `rest.dfy` — resources are values with capability flags (indexable,
  queryable, gettable, postable, mutable). Their methods, the request
  decoders and the response writer are function-typed parameters.
  * `Index`, `Apply` and `Handle` are methods. Each is proved equal to a pure
    specification function: `WalkFrom`, `ApplyAll` and `Handling`.
  * The swap loop of `index` keeps an array and is proved to produce
    `Reversed` of its input.
  * `ErrorText`, `Errorf`, `RequestError*`, `ReadRequest` and `ServeHTTP` are
    functions.

Behaviour of the code that the model follows:

* There is no state provider: the snapshot is the last event published, or
  the initial empty value.
* The snapshot is queued into the new subscriber's channel, so it takes up
  one of the `EVENTS_BUFFER` slots. With capacity C, only C − 1 events fit
  behind it before the subscriber is dropped.
* Sending `register`/`unregister` after shutdown panics. The model makes
  "the loop is running" a precondition of those handlers and of
  `Listen`/`Stop`, instead of returning a typed error.
* Two other Go panics are preconditions of `Queue`: sending on a closed
  channel and closing a channel twice. The registry invariant proves that
  neither can happen.

## Model

| member | source | states |
|---|---|---|
| Events.Queue.constructor | events.go:121 | a fresh channel of the given capacity is open, empty and has never been sent anything |
| Events.Queue.TrySend | events.go:36-42 | the non-blocking send succeeds exactly when the buffer holds fewer items than the capacity; it then appends the event, and otherwise changes nothing |
| Events.Queue.Close | events.go:30 | closing keeps the buffered items; closing an already closed channel is excluded |
| Events.Queue.Receive | events.go:137 | the consumer gets the oldest buffered item, in the order sent, and gets the end of stream only once the queue is closed and drained |
| Events.ClientSet.constructor | events.go:81 | a new registry is empty |
| Events.ClientSet.Register | events.go:17-19 | the queue becomes a member; registering it again keeps a single membership |
| Events.ClientSet.Unregister | events.go:21-24 | the queue is removed if present and is otherwise a no-op; the queue is neither closed nor touched |
| Events.ClientSet.Drop | events.go:26-32 | the queue is closed and removed, with its contents unchanged; a later Unregister of it changes nothing |
| Events.ClientSet.Send | events.go:34-43 | with room, the event is appended and the queue stays a member; when full, that queue alone is closed and removed, contents unchanged; no other queue is modified |
| Events.ClientSet.Publish | events.go:45-50 | every previous member stays a member exactly when it had room, and then ends with the event as its last item; otherwise it is closed with its contents unchanged; no queue is added and non-members are untouched |
| Events.ClientSet.Close | events.go:52-56 | every member is closed with its contents unchanged, and the registry ends empty |
| Events.Events.constructor | events.go:67-81 | a running loop with no clients whose state is the initial empty value |
| Events.Events.HandleRegister | events.go:90-94 | a fresh queue becomes a member holding exactly the current state; it is dropped only if it has no room at all; the invariant (members open, state = last event, per-subscriber history) is kept |
| Events.Events.HandleUnregister | events.go:96-97 | idempotent removal that leaves the queue untouched, keeping the invariant |
| Events.Events.HandleEvent | events.go:99-109 | the event is published, with the drop-when-full rule per member, and becomes the state; each remaining member's history is still its join snapshot followed by every event since, in publish order |
| Events.Events.HandleSourceClosed | events.go:82-102 | on source close every remaining client is closed with its contents kept, the registry ends empty and the loop stops |
| Events.Events.Listen | events.go:120-126 | the new queue has capacity EVENTS_BUFFER, is a member and holds exactly the current state |
| Events.Events.Stop | events.go:128-133 | an unregister while the loop runs: removal of the queue, idempotent, queue untouched |
| Text.Split | rest.go:128 | strings.Split yields at least one piece and no piece contains the separator |
| Text.JoinSplit | rest.go:128 | joining the pieces of a split with the separator gives back the path |
| Text.SplitJoin | rest.go:128 | splitting a join of separator-free pieces gives back the pieces, so the segments are determined by the path |
| Text.NatToDecimal | rest.go:23 | %d yields a non-empty string of decimal digits without leading zeros |
| Text.IntToDecimalRoundTrip | rest.go:23 | the %d text of any int reads back as that int |
| Rest.ErrorText | rest.go:21-27 | an Error with nil Err reads "HTTP " followed by text that parses back to its status; otherwise the message of Err, or of the other error |
| Rest.Errorf | rest.go:29-31 | the error carries the given status and its text is the formatted message |
| Rest.RequestError | rest.go:32-34 | status 422, keeping the wrapped error's message |
| Rest.RequestErrorf | rest.go:35-37 | status 422 with the formatted message |
| Rest.ReadRequest | rest.go:39-53 | any Content-Type other than exactly application/json is a 415 naming it; with JSON the request fails exactly when decoding fails, and then with a 422 carrying the decoder's message |
| Rest.WalkLooksUpEachName | rest.go:128-142 | a successful walk takes one step per segment, each a lookup of that segment, in order, in the indexable resource reached before it |
| Rest.WalkStoppedAtNil | rest.go:129-134 | a walk that stops with no resource (nil lookup), or at a non-indexable resource, fails with 404 and a nil Err |
| Rest.WalkStopsAt | rest.go:129-134 | if the first k segments lead to r: a non-indexable r stops the walk at r with 404 and a nil Err; an error from r's lookup of segment k stops it at r with that error unchanged; a nil lookup stops it at no resource with 404 |
| Rest.MutablesExact | rest.go:124-141 | the collected list holds exactly the mutable resources of the path |
| Rest.ReversedIndex | rest.go:144-147 | element k of the reversal is element n-1-k of the input |
| Rest.ReversedPermutation | rest.go:144-147 | the reversal is a permutation of the collected list |
| Rest.ReverseInPlace | rest.go:145-147 | the swap loop leaves the array holding the reverse of its old contents, a permutation of them |
| Rest.Index | rest.go:119-150 | on success: the resource reached by looking up each segment, and the mutable resources of the path, root included, deepest first; on failure: the walk's error, the resource it stopped at (none after a nil lookup), and no mutables |
| Rest.ApplyAllStopsAtFirstFailure | rest.go:152-165 | ApplyREST is called on a prefix of the targets; every call but the last succeeded; the result is the last call's error; with no error, every target was called |
| Rest.Apply | rest.go:152-165 | the target, if any, is applied before the parents in order, and the first error is returned with nothing applied after it |
| Rest.Handling | rest.go:167-228 | ApplyREST runs only for POST, and only GET or POST can succeed |
| Rest.Handle | rest.go:167-228 | handle's outcome and its ApplyREST calls are those of the specification of index, query decoding and the method switch |
| Rest.ServeHTTP | rest.go:230-246 | a non-Error is a 500 with its message; an Error keeps its status, with Err's message as the body, or an empty body when Err is nil |
| Rest.NilLookupIsNotFound | rest.go:133-134 | a path on which the lookup of segment k in the resource reached so far returns nil is answered 404 with an empty body, and nothing is applied |
| Rest.NonIndexableIsNotFound | rest.go:129-130 | a path that reaches a non-IndexResource before its last segment is answered 404 with an empty body, and nothing is applied |
| Rest.LookupErrorIsPropagated | rest.go:131-132 | an error from Index on the path is returned by handle unchanged, and nothing is applied |
| Rest.OtherMethodIsNotImplemented | rest.go:217-218 | any method other than GET and POST is answered 501 with an empty body |
| Rest.UnsupportedInterfaceIsMethodNotAllowed | rest.go:182-199 | GET on a non-GetResource or POST on a non-PostResource is answered 405 |
| Rest.NilResultIsNotFound | rest.go:188-203 | a nil result from GetREST or PostREST is answered 404 |
| Rest.WrongContentTypeIsUnsupported | rest.go:196-205 | a POST whose Content-Type is not application/json is answered 415 naming it, after PostREST and before anything is applied |
| Rest.PostAppliesDeepestFirst | rest.go:210-215 | a POST that reaches apply calls ApplyREST on the posted resource, if mutable, then on the path's mutables deepest first, and answers with the first failure |

## Left out

- The WebSocket transport (`serveWebsocket`, `ServeWebsocket`, `Events.ServeHTTP`, events.go:136-161). It calls `golang.org/x/net/websocket` and JSON encoding. Only the channel receive it performs is modelled, as `Queue.Receive`.
- Goroutines and channel synchronisation. `run` is the `Handle…` methods called one at a time; which message `select` picks next is the caller's choice. The unbuffered `registerChan`/`unregisterChan` hand-offs are not modelled.
- Events.Queue.Receive: a receive on an empty open channel blocks, which is concurrency; the model requires an item or a closed queue.
- The panics after shutdown (events.go:130-133, 151-153): `running` is a precondition of the handlers, `Listen` and `Stop`, not a behaviour.
- Events.ClientSet.Register: requires an open queue, which every queue `run` registers is; registering a closed channel would make a later send panic.
- Events.Events.HandleRegister: requires a fresh queue (open, never sent anything), which is what `listen` always passes.
- The initial `struct{}{}` state is the constructor parameter `empty`; events are a type parameter that the model never inspects.
- JSON decoding and `gorilla/schema` query decoding are parameters that report only success or an error. The decoded contents of a resource are not modelled.
- `writeResponse` is a parameter that reports only an error. The body written on success is the served resource.
- `http.Error` is reduced to a status and a text. Its trailing newline and its headers are not modelled.
- Logging is not modelled.
- `fmt.Errorf` formatting: `Errorf` and `RequestErrorf` take the text already formatted.
- An error inside `Error.Err` is kept only as its message, which is all that `Error()` and `ServeHTTP` read of it.
- GetREST, PostREST and Index return either a value, nil or an error. A Go implementation that returns both a value and an error behaves as the error case here, since the code checks the error first.
- The `readQuery` call (rest.go:55-63) is modelled as `ReadQuery`, a query decoding error becoming a 422. It is a step of `Handling` and has no contract of its own.
- main.go (routing, static files, cache headers), webtest/api.go (an HTTP test harness) and events_test.go (a timing-based concurrency test) are not part of this model.
