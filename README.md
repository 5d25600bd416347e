# Biodegradation plotting app: server core in Dafny

This project models the server side of a small SvelteKit app that plots biodegradation
samples. It covers five parts:

- **Realtime** (`realtime.dfy`): the process-wide publish/subscribe hub. It forwards every
  change of the `biodegradation` table to every open event stream as one server-sent-events
  record (`data: <json>` and a blank line). A guard makes sure the change-feed channel is
  opened only once.
- **RealtimeEndpoint** (`realtime_endpoint.dfy`): `GET /api/realtime`. It answers 500 when no
  store client was set up. Otherwise it opens an event stream whose controller is subscribed
  on start and unsubscribed on cancel.
- **Listing** (`listing.dfy`): the listing page's `load`. It projects every row for the page
  and lists the distinct material types and environments in first-seen order. A store failure
  gives empty lists.
- **Simulate** (`simulate.dfy`): `POST /api/simulate`. It predicts `min(100, 35.6 + 1.5 t)`
  percent, computed exactly in hundredths, and echoes the request fields. Failures get a
  generic 500.
- **Hooks** (`hooks.dfy`): the two request hooks in sequence. They install the store client,
  start the change feed, look up the session and user, and guard routes: protected ones need a
  session (otherwise 303 to `/auth`), and `/auth` pages send signed-in users home (303 to `/`).

`types.dfy` holds the shared values: the sample record, session, user, the client handle and
the per-request `locals` record.

Design of the hub. `Realtime.PubSub` is a class. Its fields are the subscriber set and, for
each controller, the queue of messages `enqueue` has handed it. A ghost log of every call
gives the object invariant `Valid()`: the fields equal `Replay(calls)`, a pure state machine
over the history. `ReplayMatchesHistory` then shows that each controller's queue holds exactly
the broadcasts issued while it was subscribed, in call order.

Behaviour of the simulation endpoint, which is more lenient than its documented contract. A
body with missing or odd fields is not always refused with 500. Only three cases make the
handler throw:

- a body that is not JSON;
- the JSON `null`, which cannot be destructured;
- a `simulation_params` that is missing or null.

Every other body gets a 200:

- A primitive `simulation_params` such as `5` has no `time_days`, so it gives a not-a-number
  prediction, serialized as `null`.
- A missing `time_days` also gives the not-a-number prediction.
- A null `time_days` counts as day 0, and `true` as day 1.
- A missing `sample_id` is left out of the answer.

The model follows the code.

## Model

| member | source | states |
|---|---|---|
| Realtime.SubscribedIffNotUnsubscribedSince | src/lib/realtime.ts:9-16 | Set semantics: a controller is subscribed exactly when some call subscribed it and no later call unsubscribed it |
| Realtime.ReceivesEveryBroadcastWhileSubscribed | src/lib/realtime.ts:19-23 | A controller that stays subscribed receives every later broadcast, in order, after what it already had |
| Realtime.ReceivesNothingWhileUnsubscribed | src/lib/realtime.ts:14-23 | An unsubscribed controller that is not resubscribed receives nothing more |
| Realtime.NeverSubscribedReceivesNothing | src/lib/realtime.ts:9-23 | A controller never subscribed receives nothing |
| Realtime.ConnectThenDisconnect | src/lib/realtime.ts:9-23 | Subscribe, broadcast m1, unsubscribe, broadcast m2: the controller gets exactly m1 and ends unsubscribed |
| Realtime.Delivered | src/lib/realtime.ts:19-23 | After a delivery, each target's queue gains the message at its end, every other queue is unchanged, and no targets means no change |
| Realtime.ReplayMatchesHistory | src/lib/realtime.ts:5-27 | In the state reached from the fresh hub, membership and each queue match the history-defined IsSubscribed and Received |
| Realtime.PubSub.constructor | src/lib/realtime.ts:6-7 | The module's hub starts with no subscribers and empty queues |
| Realtime.PubSub.Subscribe | src/lib/realtime.ts:9-11 | Adds the controller (a no-op if present), leaves the queues alone, and keeps the invariant |
| Realtime.PubSub.Unsubscribe | src/lib/realtime.ts:14-16 | Removes exactly that controller (a no-op if absent), leaves the queues alone, and keeps the invariant |
| Realtime.PubSub.Broadcast | src/lib/realtime.ts:19-23 | Enqueues the message once on each subscriber and no one else; subscribers unchanged; invariant kept |
| Realtime.Frame | src/lib/realtime.ts:58 | The record starts with `data: `, ends with a blank line, and has the expected length |
| Realtime.UnframeFrame | src/lib/realtime.ts:58 | The JSON carried by a framed record is recovered exactly |
| Realtime.FrameUnframe | src/lib/realtime.ts:58 | Every one-line record is the framing of the data it carries |
| Realtime.FrameIsOneDataLine | src/lib/realtime.ts:58 | With line-break-free JSON, the record's only line breaks are its final two |
| Realtime.EventData | src/lib/realtime.ts:43-51 | INSERT and UPDATE carry the new row, DELETE the old row, and any other event type carries none |
| Realtime.ChangeMessage | src/lib/realtime.ts:43-60 | A record exists iff the event is INSERT, UPDATE or DELETE; it is framed, and it carries the serialized `{type, data}` |
| Realtime.Feed.constructor | src/lib/realtime.ts:27-28 | The module starts with a fresh empty hub and no channel |
| Realtime.Feed.SetupRealtimeStream | src/lib/realtime.ts:31-63 | After any call the one feed channel is open exactly once; a later call changes nothing |
| Realtime.Feed.OnChange | src/lib/realtime.ts:43-60 | Broadcasts the change's record to exactly the subscribers, or changes nothing if there is no record |
| RealtimeEndpoint.ResponseHeaders | src/routes/api/realtime/+server.ts:8-38 | The 500 answer is plain text; the stream answer is an uncached event stream with status 200 |
| RealtimeEndpoint.Connection.constructor | src/routes/api/realtime/+server.ts:16 | A new connection has no controller yet |
| RealtimeEndpoint.Connection.Start | src/routes/api/realtime/+server.ts:20-23 | Records the controller and subscribes it to the shared hub |
| RealtimeEndpoint.Connection.Cancel | src/routes/api/realtime/+server.ts:24-29 | Unsubscribes the recorded controller, or does nothing without one, then forgets it; no other subscriber is removed |
| RealtimeEndpoint.Get | src/routes/api/realtime/+server.ts:5-40 | Without a store client: 500 and nothing touched; otherwise 200 with the event stream and a fresh connection whose own new controller is subscribed |
| RealtimeEndpoint.TwoStreams | src/routes/api/realtime/+server.ts:19-29 | Two streams get distinct connections; cancelling the first unsubscribes only its controller, and the second stays subscribed |
| Listing.Distinct | src/routes/+page.server.ts:22-23 | First-occurrence deduplication, as `Array.from(new Set(..))`: never longer than the input, and the input's first element comes first |
| Listing.FirstIndex | src/routes/+page.server.ts:22-23 | The position returned holds the element, and no earlier position does |
| Listing.DistinctElements | src/routes/+page.server.ts:22-23 | The distinct list holds exactly the input's elements and is no longer than the input |
| Listing.DistinctNoDuplicates | src/routes/+page.server.ts:22-23 | The distinct list has no duplicates |
| Listing.DistinctFirstSeenOrder | src/routes/+page.server.ts:22-23 | The distinct list is ordered by where each value first occurs |
| Listing.DistinctIsUnique | src/routes/+page.server.ts:22-23 | Any duplicate-free list of exactly the input's elements, in first-seen order, is the distinct list |
| Listing.Project | src/routes/+page.server.ts:12-20 | A page row copies the id, material, environment and days, and converts the three decimal columns |
| Listing.Points | src/routes/+page.server.ts:12-20 | One projected point per row, in row order |
| Listing.MaterialTypes | src/routes/+page.server.ts:22 | The material column of the points, in order |
| Listing.Environments | src/routes/+page.server.ts:23 | The environment column of the points, in order |
| Listing.Load | src/routes/+page.server.ts:6-40 | The session is passed through; a store failure gives empty lists; rows give the points and both distinct facets |
| Listing.LoadFacets | src/routes/+page.server.ts:22-30 | Each facet is duplicate-free, holds exactly the values in the points, is in first-seen order, and is no longer than the points |
| Listing.LoadExample | src/routes/+page.server.ts:22-23 | PLA/Compost, PHA/Soil, PLA/Marine give [PLA, PHA] and [Compost, Soil, Marine] |
| Simulate.Predicted | src/routes/api/simulate/+server.ts:9 | Never above 100 %; equals 35.6 + 1.5 t exactly when t <= 42; 100 % beyond |
| Simulate.PredictedIsFormula | src/routes/api/simulate/+server.ts:9-16 | The fixed-point value is min(100, 35.6 + 1.5 t) over the reals, and rounding to two decimals keeps it |
| Simulate.PredictedMonotone | src/routes/api/simulate/+server.ts:9 | A later time never predicts less |
| Simulate.NoLowerClamp | src/routes/api/simulate/+server.ts:9 | Negative times are not clamped below and predict under 35.6 % |
| Simulate.PredictedExamples | src/routes/api/simulate/+server.ts:9 | 0, 10, 42, 43 and 100 days give 35.60, 50.60, 98.60, 100 and 100 |
| Simulate.Days | src/routes/api/simulate/+server.ts:9 | The number `1.5 *` multiplies: null is 0, a boolean 0 or 1, a number itself |
| Simulate.Prediction | src/routes/api/simulate/+server.ts:9-16 | A prediction exists iff `time_days` is present and converts to a number; it is then the clamped formula, at most 100 % |
| Simulate.Post | src/routes/api/simulate/+server.ts:4-31 | 200 iff the body destructures and `simulation_params` is neither missing nor null; the id and time are echoed with the prediction; otherwise the generic JSON 500 |
| Simulate.WellFormedRequest | src/routes/api/simulate/+server.ts:6-18 | A complete request gets 200 with the clamped prediction and the echoed fields |
| Simulate.LenientRequests | src/routes/api/simulate/+server.ts:6-18 | A primitive `simulation_params` gives a 200 with no prediction; null and `true` days predict 35.60 and 37.10; no params gives the 500 |
| Hooks.AnyPrefix | src/hooks.server.ts:68 | True iff some route in the list is a prefix of the path |
| Hooks.IsProtected | src/hooks.server.ts:65-68 | A path is protected iff one of `/account`, `/dashboard`, `/edit` is a prefix of it |
| Hooks.AuthGuard | src/hooks.server.ts:59-78 | 303 to `/auth` iff no session on a protected path; 303 to `/` iff a session on an `/auth` path; otherwise resolve |
| Hooks.ProtectedByPrefix | src/hooks.server.ts:65-68 | Protection is by string prefix: `/editor` and `/accounts/x` are protected; `/`, `/auth` and `/api/simulate` are not |
| Hooks.NoRedirectLoop | src/hooks.server.ts:68-75 | `/auth` is never sent to `/auth`, and `/` is never redirected |
| Hooks.SafeGetSession | src/hooks.server.ts:28-48 | A session iff no session error, a session present and no user error; then both are passed on, otherwise both are nothing |
| Hooks.LookupErrorSignsOut | src/hooks.server.ts:31-45 | A failed or empty lookup collapses to no session, so protected paths redirect to `/auth` |
| Hooks.FilterSerializedResponseHeaders | src/hooks.server.ts:51-54 | Keeps a header iff its name is exactly `content-range` or `x-supabase-api-version` |
| Hooks.HeaderNamesAreExact | src/hooks.server.ts:53 | Names are compared case-sensitively |
| Hooks.Handle | src/hooks.server.ts:16-81 | Stores the client in `locals`, opens the feed once, stores the looked-up session and user, and decides by the guard |

## Left out

- Asynchrony and I/O are left out. Each handler is modelled as one atomic step. Awaited auth, store and body-parsing results are parameters.
- Simulate.Post: does not model the two-second `setTimeout` delay, because it changes no result.
- Simulate.Post: does not model IEEE floating point, `toFixed(2)` or `parseFloat`. It works in exact hundredths; `PredictedIsFormula` relates this to the real-valued formula and to rounding.
- Simulate.Days: does not model JavaScript's conversion of strings, arrays and objects to numbers, or non-integer days. An `Other` value carries its converted whole number of days, or `None` for NaN.
- Listing.Project: the `Number()` conversion of the decimal columns is an uninterpreted function parameter.
- Realtime.ChangeMessage: `JSON.stringify` is an uninterpreted function parameter, because its output is not modelled.
- Realtime.Payload: a delete's old row is modelled as a full sample. The feed may deliver only its key columns.
- Realtime.PubSub.Broadcast: the order in which subscribers are handed a message is left open, because a set's iteration order is not modelled. Each queue's contents do not depend on it.
- Realtime.PubSub.Broadcast: `enqueue` throwing on a closed or errored controller is not modelled. Every enqueue succeeds.
- Streams are abstracted. A controller is a numeric identity, and its internal queue is the `inboxes` entry of the hub. Reading the stream, closing it and back-pressure are left out.
- `getPubSub` is the `pubsub` field of `Realtime.Feed`. The module's `channel` variable is the `channel` field. Both are module singletons in the source.
- Building the store client (`createSupabaseServerClient`), the channel's `.subscribe()` acknowledgement, and `sequence`/`resolve` internals are left out. The client is an opaque value, and resolving is the `Resolve` decision.
- `handleError` only logs, so console logging throughout is left out.
- The database schema, seed script and the client-side pages are not part of this model.
