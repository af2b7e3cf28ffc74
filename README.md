# Live-odds relay of the horse-racing prediction backend

This project models the part of the backend that relays live TAB odds to browsers, and proves properties of that model in Dafny.

- **`Tab` (tab.dfy)** models the `TabAPI` client. It:
  - caches an OAuth access token with a 60-second safety margin;
  - keeps one upstream WebSocket and authenticates on it;
  - replays every known market when the socket opens;
  - reconnects at most five times between two successful opens;
  - keeps a registry from market id to a list of callbacks and calls them for every `market_update`;
  - posts bets over REST with a bearer token.
- **`Relay` (relay.dfy)** models the per-connection handler of the backend's WebSocket server. Every browser connection:
  - keeps the set of markets it subscribed to;
  - answers `subscribe`, `unsubscribe` and `place_bet` messages, and rejects anything else with an error reply;
  - forwards upstream updates as `odds_update` messages;
  - unsubscribes every market in its set when it closes.
- **`Values` (values.dfy)** holds the JavaScript semantics the handler relies on:
  - JSON-shaped values and truthiness;
  - `||`;
  - object spread;
  - `String(n)` for integers;
  - reading a property, including the TypeError thrown when reading from null or undefined.

Each stateful object is a class whose fields mirror the source object: `Tab.TabClient` for `TabAPI`, and `Relay.Connection` for the closure state of one connection. Each method is proved to produce the state given by a pure transition function on a snapshot datatype (`Session`, `Peer`). The properties are lemmas about those functions.

The environment is made explicit in the model:

- **The clock:** `Date.now()` is the parameter `now`.
- **The OAuth token endpoint:** its answer is an `Exchange` value (granted with a token and lifetime, or refused with an error message).
- **The betting endpoint:** its answer is a `Post` value.
- **`setTimeout`:** a reconnect timer is a count of pending timers.
- **The upstream socket:** reduced to whether one exists, the token its open handler will send, and the log of frames written to it.
- **The browser socket:** reduced to the log of replies written to it.
- **Callbacks:** values of a type parameter. The relay's `handleMarketUpdate` closure is the value `Forwarder(conn, market)`.

The code is modelled as written, including these behaviours that differ from what a reader might expect:

- `subscribe` sends a subscribe frame on every call while connected, even when the market already has callbacks (`Tab.SubscribeEffect`).
- Callback lists keep duplicates.
- Removing a market's last callback by name leaves an empty list under its key. The market is then still resubscribed on the next open (`Tab.EmptiedEntryStillReplayed`).
- The relay calls `unsubscribe` without a callback. That deletes the whole entry, including the forwarders of every other browser connection still subscribed to that market (`Relay.UnsubscribeSilencesOtherConnections`). Those connections keep the market in their own set but receive no further updates for it.

## Model

| member | source | states |
|---|---|---|
| Values.NatToDecimalRoundTrip | horse-racing-prediction/src/backend/server.js:124 | the decimal digits used in `'bet_' + Date.now()` read back as the same number |
| Values.IntToDecimalInjective | horse-racing-prediction/src/backend/server.js:124 | different timestamps give different fallback bet ids |
| Values.ReadProperty | horse-racing-prediction/src/backend/server.js:124 | reading a property throws exactly on null and undefined; on an object it yields the field or undefined |
| Tab.TabClient.constructor | horse-racing-prediction/src/backend/api/tab.js:6-20 | no token, expiry 0, no socket, not connected, zero attempts, empty registry |
| Tab.CachedTokenExactlyWhenFresh | horse-racing-prediction/src/backend/api/tab.js:22-26 | no token exchange happens exactly when a non-empty token is cached and its expiry is later than now; that token is then returned unchanged |
| Tab.ExchangeOutcome | horse-racing-prediction/src/backend/api/tab.js:28-52 | with a stale token, a refused exchange rethrows the endpoint's error and caches nothing; a granted one returns and caches the new token with expiry now + (expires_in - 60) * 1000 |
| Tab.SafetyMargin | horse-racing-prediction/src/backend/api/tab.js:45-46 | a granted token is served from the cache exactly while more than 60 seconds of its real lifetime remain |
| Tab.ShortLivedTokenNotCached | horse-racing-prediction/src/backend/api/tab.js:45-46 | a token granted for 60 seconds or less is stale at once, so the next call exchanges again |
| Tab.TabClient.GetAccessToken | horse-racing-prediction/src/backend/api/tab.js:22-53 | the new state and the result follow the token-cache transition |
| Tab.ConnectIdempotent | horse-racing-prediction/src/backend/api/tab.js:55-56 | `connect` on a client that has a connected socket changes nothing |
| Tab.ConnectKeepsValid | horse-racing-prediction/src/backend/api/tab.js:55-112 | `connect` keeps the session invariant and never touches the registry, the frame log or the connected flag |
| Tab.TabClient.Connect | horse-racing-prediction/src/backend/api/tab.js:55-112 | fetches a token and opens a socket bound to it, or calls `reconnect` when the token cannot be had |
| Tab.SubscribeFrames | horse-racing-prediction/src/backend/api/tab.js:75-80 | one subscribe frame per market, in key order |
| Tab.SubscribeFramesCount | horse-racing-prediction/src/backend/api/tab.js:75-80 | for distinct keys, each market's subscribe frame occurs exactly once when the market is a key, otherwise not at all |
| Tab.OpenReplaysEveryMarketOnce | horse-racing-prediction/src/backend/api/tab.js:63-81 | the open handler marks the client connected, resets the attempt count, sends the auth frame with the socket's token and then exactly one subscribe frame per registry key |
| Tab.DistinctKeysCardinality | horse-racing-prediction/src/backend/api/tab.js:75 | the key order lists every registry key once, so it has as many entries as the registry |
| Tab.TabClient.OnOpen | horse-racing-prediction/src/backend/api/tab.js:63-81 | its loop writes the auth frame and the resubscribe frames of the open transition |
| Tab.UpdatedMarket | horse-racing-prediction/src/backend/api/tab.js:87 | a frame selects a market exactly when it is a `market_update` whose `marketId` is truthy and registered, and the market selected is that `marketId` |
| Tab.TabClient.OnMessage | horse-racing-prediction/src/backend/api/tab.js:83-96 | a matching frame calls every callback of its market in list order with the frame's `data`; any other frame, including one that does not parse, calls nothing |
| Tab.TabClient.OnClose | horse-racing-prediction/src/backend/api/tab.js:98-102 | a close marks the client disconnected and calls `reconnect` |
| Tab.TabClient.OnError | horse-racing-prediction/src/backend/api/tab.js:104-107 | an error only marks the client disconnected |
| Tab.TabClient.Reconnect | horse-racing-prediction/src/backend/api/tab.js:114-130 | below five attempts it counts one more attempt and schedules one timer; at five it does nothing |
| Tab.TabClient.OnReconnectTimer | horse-racing-prediction/src/backend/api/tab.js:123-129 | a firing timer is consumed and runs `connect` |
| Tab.StepKeepsValid | horse-racing-prediction/src/backend/api/tab.js:55-182 | every event keeps the session invariant: at most 5 attempts, connected implies a socket, and the key order matches the registry |
| Tab.StepBudget | horse-racing-prediction/src/backend/api/tab.js:114-120 | every event other than `open` raises the attempt count by exactly the number of timers it schedules |
| Tab.ConnectBudget | horse-racing-prediction/src/backend/api/tab.js:55-112 | `connect` schedules a reconnect timer exactly when it raises the attempt count |
| Tab.ReconnectBudget | horse-racing-prediction/src/backend/api/tab.js:114-130 | over any run of events without an `open`, at most 5 minus the current attempt count reconnect timers are scheduled |
| Tab.ExhaustedBudgetSchedulesNothing | horse-racing-prediction/src/backend/api/tab.js:114-118 | once five attempts are spent, a close schedules no further timer |
| Tab.RegisteredValid | horse-racing-prediction/src/backend/api/tab.js:138-141 | appending a callback, creating the list for a new market, keeps the key order in step with the registry |
| Tab.SubscribeEffect | horse-racing-prediction/src/backend/api/tab.js:136-153 | the callback is appended to the market's list and nothing else in the registry changes; when connected exactly one subscribe frame is sent, even for a market already subscribed, and the attempt count is untouched; when not connected nothing is sent and `connect` runs on the updated registry |
| Tab.TabClient.Subscribe | horse-racing-prediction/src/backend/api/tab.js:136-153 | follows the subscribe transition and keeps the invariant |
| Tab.FirstIndex | horse-racing-prediction/src/backend/api/tab.js:165 | an index holding the callback with no earlier occurrence |
| Tab.IndexOf | horse-racing-prediction/src/backend/api/tab.js:165 | the first index holding the callback, or -1 exactly when it is absent |
| Tab.RemoveFirst | horse-racing-prediction/src/backend/api/tab.js:165-168 | removes one occurrence of the callback (the multiset loses one copy) and leaves the list alone when the callback is absent |
| Tab.RemoveFirstSplices | horse-racing-prediction/src/backend/api/tab.js:165-168 | splicing at the first index of the callback is removing its first occurrence |
| Tab.SpliceAtIndexOf | horse-racing-prediction/src/backend/api/tab.js:165-168 | the `indexOf`-guarded `splice` leaves the list alone when the index is -1 and otherwise removes the first occurrence |
| Tab.Without | horse-racing-prediction/src/backend/api/tab.js:171 | deleting an entry removes exactly that key from the key order, keeps it duplicate-free, and leaves the order unchanged when the key is absent |
| Tab.WithoutSplices | horse-racing-prediction/src/backend/api/tab.js:171 | in a duplicate-free key order, deleting a key splices it out at its index, so the other keys keep their order |
| Tab.WithoutSpliceAt | horse-racing-prediction/src/backend/api/tab.js:171 | a key occurring once is spliced out at its index |
| Tab.Deregistered | horse-racing-prediction/src/backend/api/tab.js:161-172 | removing a callback or deleting an entry leaves every other market's presence and list as they were |
| Tab.DeregisteredValid | horse-racing-prediction/src/backend/api/tab.js:161-172 | removing a callback or deleting the entry keeps the invariant |
| Tab.UnsubscribeEffect | horse-racing-prediction/src/backend/api/tab.js:160-182 | an unknown market changes nothing; without a callback the whole entry goes; with one, its first occurrence is spliced out of the list, the rest keep their order and the key order is unchanged; other markets keep their presence and their lists; an unsubscribe frame is sent exactly when connected and the entry ends absent or empty |
| Tab.UnsubscribeKeepsOtherMarkets | horse-racing-prediction/src/backend/api/tab.js:160-172 | unsubscribing leaves every other market's presence and list as they were |
| Tab.UnsubscribeFrameRule | horse-racing-prediction/src/backend/api/tab.js:174-181 | at most one unsubscribe frame is sent, exactly when connected, the market was known and its entry ends absent or empty |
| Tab.TabClient.Deregister | horse-racing-prediction/src/backend/api/tab.js:163-172 | the `indexOf`/`splice` or `delete` step of `unsubscribe` |
| Tab.TabClient.Unsubscribe | horse-racing-prediction/src/backend/api/tab.js:160-182 | follows the unsubscribe transition and keeps the invariant |
| Tab.EmptiedEntryStillReplayed | horse-racing-prediction/src/backend/api/tab.js:163-182 | removing a market's only callback leaves an empty list under its key, and the next open still sends that market's subscribe frame |
| Tab.SubscribeUnsubscribeLeavesEmptyEntry | horse-racing-prediction/src/backend/api/tab.js:136-172 | subscribing a new market and unsubscribing the same callback does not restore the registry |
| Tab.PlaceBetEffect | horse-racing-prediction/src/backend/api/tab.js:226-240 | a bet is posted once with the token `getAccessToken` yields exactly when one can be had; otherwise the token error is rethrown; the endpoint's body is returned when it answers, and its error is rethrown when the POST fails; the registry and the frame log are untouched |
| Tab.PlaceBetKeepsRest | horse-racing-prediction/src/backend/api/tab.js:226-240 | `placeBet` changes only the token cache and the bet posts |
| Tab.TabClient.PlaceBet | horse-racing-prediction/src/backend/api/tab.js:226-240 | follows the bet transition and returns its result |
| Relay.OddsUpdateFields | horse-racing-prediction/src/backend/server.js:75-81 | a forwarded update carries every payload property; `type` is `odds_update` and `raceId` is the subscribed market unless the payload overrides them |
| Relay.BetFor | horse-racing-prediction/src/backend/server.js:114-119 | the posted bet copies race, horse and amount, and uses 'win' when `betType` is falsy |
| Relay.BetReply | horse-racing-prediction/src/backend/server.js:121-138 | success exactly when `placeBet` returned something other than null or undefined; a truthy `betId` is kept, otherwise `bet_<now>`; a failure has no bet id and a message starting "Failed to place bet: " |
| Relay.AddMarket | horse-racing-prediction/src/backend/server.js:72 | `Set.add` adds the market once and keeps the set duplicate-free |
| Relay.HandleRequestCases | horse-racing-prediction/src/backend/server.js:67-149 | what each kind of message does to the connection's set and to the client: subscribe adds the market and runs `subscribe`, unsubscribe deletes it and runs `unsubscribe`, place_bet runs `placeBet`, anything else leaves both alone |
| Relay.RequestKeepsOwnership | horse-racing-prediction/src/backend/server.js:61-157 | every message keeps the client invariant, keeps the connection's set duplicate-free, and keeps every forwarder of the connection under a market in its set |
| Relay.SubscribeRequestKeepsOwnership | horse-racing-prediction/src/backend/server.js:68-93 | a `subscribe` message keeps those invariants |
| Relay.OwnSubscribeKeepsOwnership | horse-racing-prediction/src/backend/server.js:72-84 | adding the market to the set and registering the connection's forwarder under it keeps them |
| Relay.UnsubscribeRequestKeepsOwnership | horse-racing-prediction/src/backend/server.js:95-109 | an `unsubscribe` message keeps those invariants |
| Relay.OwnUnsubscribeKeepsOwnership | horse-racing-prediction/src/backend/server.js:98-100 | deleting the entry and removing the market from the set keeps them |
| Relay.OtherRequestKeepsOwnership | horse-racing-prediction/src/backend/server.js:68-109 | another connection's messages keep that ownership invariant too |
| Relay.OtherSubscribeRequestKeepsOwnership | horse-racing-prediction/src/backend/server.js:68-93 | another connection's `subscribe` keeps it |
| Relay.OtherSubscribeKeepsOwnership | horse-racing-prediction/src/backend/server.js:84 | another connection's `subscribe` adds only its own forwarder |
| Relay.OtherNonSubscribeKeepsOwnership | horse-racing-prediction/src/backend/server.js:95-149 | another connection's `unsubscribe` deletes a whole entry and its bets leave the registry alone, so the invariant holds |
| Relay.OtherCloseKeepsOwnership | horse-racing-prediction/src/backend/server.js:159-168 | another connection closing keeps it too |
| Relay.KnownMarkets | horse-racing-prediction/src/backend/api/tab.js:161 | a market is in the result exactly when it is in the list and has a registry entry; a duplicate-free list gives a duplicate-free result |
| Relay.UnsubscribeAllEffect | horse-racing-prediction/src/backend/server.js:163-166 | unsubscribing a duplicate-free list deletes exactly those entries, leaves every other list alone, and when connected sends one unsubscribe frame per market that had an entry |
| Relay.UnsubscribeAllValid | horse-racing-prediction/src/backend/server.js:163-166 | unsubscribing a list keeps the client invariant |
| Relay.UnsubscribeAllRegistry | horse-racing-prediction/src/backend/server.js:163-166 | unsubscribing a list deletes exactly the listed entries, leaves every other list alone and keeps the connected flag |
| Relay.UnsubscribeAllFrames | horse-racing-prediction/src/backend/server.js:163-166 | when connected, unsubscribing a duplicate-free list sends one unsubscribe frame per listed market that had an entry, in list order; otherwise none |
| Relay.UnsubscribeFramesSnoc | horse-racing-prediction/src/backend/server.js:163-166 | the frames for a list extended by one market end with that market's frame |
| Relay.CloseReleasesEverything | horse-racing-prediction/src/backend/server.js:159-168 | on close the set is cleared, the markets in it lose their entries, the frames above are sent, and no forwarder of the connection remains |
| Relay.UnsubscribeSilencesOtherConnections | horse-racing-prediction/src/backend/server.js:95-100 | one connection's unsubscribe deletes another subscribed connection's forwarder, so an update that reached it before now reaches nobody |
| Relay.OneReplyPerMessage | horse-racing-prediction/src/backend/server.js:61-157 | every message gets exactly one reply, except a subscribe without a truthy market id and an unsubscribe for a market not in the set, which change nothing |
| Relay.ReplyKinds | horse-racing-prediction/src/backend/server.js:61-157 | the reply for each case: a parse error's message, the TypeError for a null message, the confirmations (with the set updated and, on unsubscribe, the entry gone), a bet result, or "Unknown message type" |
| Relay.PlaceBetReply | horse-racing-prediction/src/backend/server.js:111-142 | a `place_bet` posts the bet when a token can be had; its single reply succeeds exactly when the endpoint answered with a body other than null or undefined |
| Relay.UpdatesOnlyForSubscribedMarkets | horse-racing-prediction/src/backend/server.js:75-84 | an upstream frame reaches a connection only as an `odds_update` for the frame's market, and only when that market is in the connection's set |
| Relay.DeliveredOncePerForwarder | horse-racing-prediction/src/backend/api/tab.js:89-91 | a connection receives an update for the frame's market once per forwarder it has in that market's list, so one with a forwarder there is never skipped and a duplicated forwarder is served twice |
| Relay.RoutedCount | horse-racing-prediction/src/backend/server.js:75-81 | the replies routed to a connection from calls on one market are that market's update, one per call of its forwarder |
| Relay.DeleteEntryEffect | horse-racing-prediction/src/backend/server.js:99 | the relay's `unsubscribe(m)` deletes the entry and sends one unsubscribe frame when connected and the entry existed |
| Relay.RoutedToMarket | horse-racing-prediction/src/backend/server.js:75-81 | calls on one market's list reach a connection only as that market's update |
| Relay.Connection.constructor | horse-racing-prediction/src/backend/server.js:55-59 | a new connection has an empty set and has sent nothing |
| Relay.Connection.OnMessage | horse-racing-prediction/src/backend/server.js:61-157 | the connection and the shared client change as the message handler prescribes, and the invariants hold |
| Relay.Connection.Forward | horse-racing-prediction/src/backend/server.js:75-81 | the closure writes one `odds_update` for its market |
| Relay.Connection.OnClose | horse-racing-prediction/src/backend/server.js:159-168 | its loop unsubscribes the set's markets in insertion order, then clears the set |
| Relay.FanOut | horse-racing-prediction/src/backend/api/tab.js:89-91 | each call of a forwarder appends that market's update to its own connection's replies, in call order, and to no other connection |

## Left out

- I/O and logging: console and logger output are not modelled. The upstream and browser sockets are reduced to frame logs, and a failing `ws.send` is not modelled.
- Concurrency: every handler runs to completion atomically. The awaits inside `subscribe`, `connect` and `placeBet` let other events interleave in the source. In particular `getAccessToken` does not coalesce concurrent requests: two calls that both find the token stale while the first exchange is in flight each make their own exchange. That cannot be represented here, because a second call in the model runs after the first has cached its token.
- Sockets replaced by `connect`: only the current upstream socket is modelled. Events still arriving from an earlier socket are not.
- Reconnect timer delay: the 5-second delay appears only as a constant; time between events is not modelled.
- Numbers: JSON numbers are integers here. Floating point is not modelled.
- Market ids: market ids are strings. A non-string truthy `marketId` (a number, say) is not modelled.
- Registry keys: keys that collide with `Object.prototype` members (`__proto__`, `constructor`) are not modelled.
- Key order: `Object.keys` puts integer-like keys first, but the model uses plain insertion order.
- Serialisation: replies are structured values. `JSON.stringify` and its key order are not modelled.
- Values.ReadProperty: does not model built-in properties such as `length` or prototype members. The relay reads only `betId` through it. The error reply for a null message is built from `NullReadMessage(Null, "type")` directly, and the other message properties (`marketId`, `raceId`, `horseId`, `amount`, `betType`) are fields of the parsed request.
- Values.Spread: the enumerable index keys of strings and arrays are modelled; other own properties of non-plain objects are not.
- Server bootstrap: the Express app, the HTTP server, the REST routes and the prediction code are not part of this model. So are `getRaceInfo` and `getRaceMarkets`, which the relay never calls, and the environment variables that configure credentials.
- Clock: one `now` stands for every `Date.now()` within an operation: the freshness test at tab.js:24, the expiry computed at tab.js:46 after the awaited POST, and the fallback bet id at server.js:124. Tab.SafetyMargin is exact only under that simplification; in the source the expiry is measured from when the response arrives.
- Closure identity: each `handleMarketUpdate` is a distinct closure, but the model's `Forwarder(conn, market)` values compare structurally, so two subscribes from one connection to one market register equal callbacks. The relay never unsubscribes by callback, so nothing it does depends on the difference.
- Token exchange errors: the error thrown by the exchange is only its message string.
