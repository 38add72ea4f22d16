# WebSocket task gateway: session and channel bookkeeping

This project models the core of a small task-tracking gateway (`src/server.ts`).
Clients connect over a WebSocket and speak JSON-RPC 2.0. The gateway:

- greets each authenticated connection with a fresh session id;
- answers `callTool` (`suggestAssignee`, `listTasks`), `subscribe` and `unsubscribe` requests;
- fans each channel's notifications out to the sessions subscribed to it.

Upstream, a publish/subscribe bus (Redis in the source) carries the notifications. The gateway holds one bus subscription per channel, however many sessions want it. Two maps count the references:

- the handler map, modelled as the set `handlers` of channels with a handler;
- the count map, `counts`.

The model is a `Gateway` class whose fields are the ones the source updates in place:

- `sessions`: each session's set of channels;
- `handlers` and `counts`;
- `outbox`: every envelope written to a connection;
- `busLog`: a ghost log of every bus call.

Each bus call's outcome is a boolean argument (`busOk`). Whether the bus came up at start-up is the constant `busEnabled`. Each asynchronous step runs to completion before the next one starts.

Each of the two reference-count operations is stated twice:

- as a function on values, `RefCount.Acquire` / `RefCount.Release`, about which the rules are proved as lemmas;
- as a method, `Gateway.EnsureChannelSubscription` / `Gateway.ReleaseChannelSubscription`, that updates the fields step by step as the source does and is proved equal to the function.

`Holding.Balanced` is the bookkeeping invariant: every channel's count is the number of sessions holding it, plus two ghost corrections.

- A channel whose last upstream unsubscribe failed keeps count 1 with no holder; these are the `stale` channels. The source only logs that failure, so the count stays one above the number of holders from then on.
- While a session lets go of channels, each channel's release is briefly pending.

`Gateway.Valid` says the invariant holds with nothing pending. Every RPC, connect and close keeps it.

The `suggestAssignee` tool is a pure function, `Assignee.SuggestAssignee`. It is a case-insensitive substring classifier with the rules tried in priority order. It is proved to agree with a rule-table reading (`FirstMatch`) and on the example titles.

Files:

- `envelope.dfy`: message datatypes and error codes. The negative codes are those of section 5.1 of JSON-RPC 2.0.
- `text.dfy`: `toLowerCase` and `includes`.
- `assignee.dfy`: the classifier.
- `refcount.dfy`: the reference-count functions.
- `holding.dfy`: holders and the invariant.
- `server.dfy`: the gateway class.

## Model

| member | source | states |
|---|---|---|
| Text.LowerChar | src/server.ts:270 | an ASCII upper-case letter moves down to its lower-case letter, every other character is unchanged, and the result is never upper-case |
| Text.ToLower | src/server.ts:270 | lower-casing keeps the length, maps each character through LowerChar, and leaves no upper-case letter |
| Text.ToLowerIdempotent | src/server.ts:270 | lower-casing twice is lower-casing once |
| Text.Contains | src/server.ts:272-274 | `includes` answers true only when the keyword fits in the text, and always when the text starts with the keyword (so the empty keyword is always included); ContainsIffOccurs gives the exact condition |
| Text.ContainsIffOccurs | src/server.ts:272-274 | the `includes` scan answers true exactly when the keyword occurs at some index |
| Assignee.SuggestAssignee | src/server.ts:268-275 | alice iff the lowered title mentions fix or bug; bob iff it mentions neither but mentions design or ux; unassigned iff it mentions no keyword; otherwise ci-bot |
| Assignee.SuggestFollowsRules | src/server.ts:271-274 | the if/else chain equals reading the rule table first to last and taking the first rule with a matching keyword |
| Assignee.SuggestIgnoresCase | src/server.ts:270 | a title and its lower-cased form get the same assignee |
| Assignee.EmptyTitleUnassigned | src/server.ts:269-274 | the empty title, which a missing title defaults to, mentions no keyword and stays unassigned |
| Assignee.SuggestFixLoginBug | src/server.ts:272 | "Fix login bug" goes to alice |
| Assignee.SuggestRedesignUxFlow | src/server.ts:273 | "Redesign UX flow" goes to bob |
| Assignee.SuggestDeployToCi | src/server.ts:274 | "Deploy to CI" goes to ci-bot |
| Assignee.SuggestWriteDocs | src/server.ts:271-274 | "Write docs" matches no rule and stays unassigned |
| Assignee.SuggestEarlierRuleWins | src/server.ts:272-274 | "Fix CI pipeline" mentions both fix and ci and goes to alice, because the earlier rule wins |
| RefCount.Acquire | src/server.ts:90-107 | at most one upstream call, a subscribe, made exactly when the bus is enabled and the channel has no handler; the acquire fails exactly when that subscribe fails, and a failure leaves a valid registry as it was; a success with the bus enabled leaves a handler and, from a valid registry, one more reference. The single cases are AcquireExisting, AcquireFresh and AcquireRollback |
| RefCount.Release | src/server.ts:109-122 | at most one upstream call, an unsubscribe, made exactly when the bus is enabled and the count is 1; the release fails exactly when that unsubscribe fails, and a failure changes nothing; a success on a positive count takes one reference away, and on a valid registry the handler stays exactly when references remain. The single cases are ReleaseAbsent, ReleaseLast, ReleaseLastFails and ReleaseShared |
| RefCount.DisabledBusIsInert | src/server.ts:91-93 | with the bus disabled, acquire and release leave both maps as they are, call nothing upstream, and succeed |
| RefCount.StepsAreLocal | src/server.ts:90-122 | acquire and release of one channel leave every other channel's handler and count as they were |
| RefCount.AcquireExisting | src/server.ts:94-106 | acquiring a channel with a handler adds one to its count and makes no upstream call |
| RefCount.AcquireFresh | src/server.ts:94-106 | acquiring a fresh channel makes exactly one upstream subscribe and, on success, leaves a handler and count 1 |
| RefCount.AcquireRollback | src/server.ts:98-104 | a failed first subscribe leaves both maps exactly as before and reports the failure |
| RefCount.ReleaseAbsent | src/server.ts:113-114 | releasing a channel with no count or count 0 changes nothing and calls nothing |
| RefCount.ReleaseLast | src/server.ts:115-118 | releasing the last reference unsubscribes upstream once and removes both entries |
| RefCount.ReleaseLastFails | src/server.ts:115-116 | if that unsubscribe fails, both entries stay as they were and the failure is reported |
| RefCount.ReleaseShared | src/server.ts:119-121 | releasing one of several references only decrements the count |
| RefCount.AcquireKeepsValid | src/server.ts:90-107 | acquire keeps the two maps on the same keys with every count at least 1 |
| RefCount.ReleaseKeepsValid | src/server.ts:109-122 | release keeps the two maps on the same keys with every count at least 1 |
| RefCount.AcquireThenRelease | src/server.ts:90-122 | a successful acquire followed by a successful release restores both maps; the upstream calls are a subscribe/unsubscribe pair for a fresh channel and none otherwise |
| RefCount.TwoAcquiresSubscribeOnce | src/server.ts:94-106 | two acquires of a fresh channel subscribe upstream once and leave count 2 |
| RefCount.ReleaseSeesOwnEntry | src/server.ts:113-121 | what a release does to a channel depends only on that channel's own entries |
| RefCount.ReleaseInOrderIsPerChannel | src/server.ts:257-259 | releasing distinct channels one after another gives each released channel the entries its own release gives it, keeps every other channel's entries, and makes each channel's own upstream calls in order |
| Holding.HoldersAfterJoin | src/server.ts:297 | a session adding a channel becomes one more holder of it and changes no other channel's holders |
| Holding.HoldersAfterLeave | src/server.ts:312 | a session deleting a channel leaves it one holder fewer and changes no other channel's holders |
| Holding.HoldersAfterDrop | src/server.ts:256 | deleting a session leaves each of its channels one holder fewer and every other channel's holders unchanged |
| Holding.HoldersAfterOpen | src/server.ts:220-222 | a new session with no subscriptions changes nobody's holders |
| Holding.BalancedAfterJoin | src/server.ts:297-308 | an optimistic add followed by the acquire keeps every count equal to its holders; on failure the add is undone |
| Holding.BalancedAfterLeave | src/server.ts:312-313 | a session letting go of a channel moves that reference from the holders to the pending releases |
| Holding.BalancedAfterRelease | src/server.ts:109-122 | carrying out a pending release keeps the counts balanced; a failed last unsubscribe leaves a count no session holds |
| Holding.BalancedAfterDrop | src/server.ts:255-257 | deleting a session turns each channel it held into a pending release |
| Holding.BalancedAfterOpen | src/server.ts:220-222 | opening a session keeps the counts balanced |
| Server.FanOutSize | src/server.ts:79-87 | a fan-out writes exactly one envelope per recipient |
| Server.CallTool | src/server.ts:266-286 | the reply carries the request id. suggestAssignee answers with the classifier's tag for a string title, and with unassigned for a missing one. A title that is not a string fails with -32000. listTasks answers with the task snapshot. Any other tool fails with 404 |
| Server.Gateway.constructor | src/server.ts:63-69 | the gateway starts with no sessions, no handlers, no counts, no output and no bus calls |
| Server.Gateway.EnsureChannelSubscription | src/server.ts:90-107 | the new maps, the bus calls and the outcome are those of Acquire on the old maps |
| Server.Gateway.ReleaseChannelSubscription | src/server.ts:109-122 | the new maps, the bus calls and the outcome are those of Release on the old maps; a failed last unsubscribe marks the channel stale; the invariant holds with this release no longer pending |
| Server.Gateway.DispatchNotification | src/server.ts:71-88 | appends one notification of the message on the channel to every session that holds the channel and whose send does not fail, to no other session, and to none twice |
| Server.Gateway.PublishEvent | src/server.ts:124-141 | with the bus enabled, publishes upstream once; with the bus disabled or the publish failing, delivers locally to every reachable holder, so the payload is never dropped |
| Server.Gateway.Connect | src/server.ts:204-230 | a rejected credential gets one 401 envelope with a null id and no session; an accepted one gets an empty session and a greeting carrying its id; the maps are untouched |
| Server.Gateway.OnMessage | src/server.ts:232-253 | every message gets exactly one reply on its own connection, and the invariant is kept. Unparsable text gets -32700 with a null id and changes nothing else. A parsed request is handled as HandleRpc states: the same reply and the same effect on the session, the maps and the bus |
| Server.Gateway.HandleRpc | src/server.ts:263-321 | exactly one reply carrying the request id is appended, and the invariant is kept. `Handled` states each method's case: callTool answers as CallTool and changes nothing else; subscribe and unsubscribe have the replies and effects of SubscribeCase and UnsubscribeCase; an unknown method gets -32601 and changes nothing |
| Server.Gateway.SubscribeCase | src/server.ts:287-309 | a missing or empty channel gets 400 and changes nothing. A channel already held is confirmed and changes nothing. Otherwise the maps and bus calls are those of Acquire, the session keeps the channel only on success, and a failure gets 500 |
| Server.Gateway.UnsubscribeCase | src/server.ts:310-317 | the reply always echoes the requested channel. The channel is released, and deleted from the session, only if the session held it. Otherwise nothing changes, so a repeated unsubscribe releases nothing more |
| Server.Gateway.Close | src/server.ts:255-260 | the session is removed and each channel it held is released exactly once, in some order. The maps and bus calls are those of releasing them in that order, and the invariant is kept |
| Server.Gateway.ReleaseEach | src/server.ts:257-259 | the close loop releases each channel of the set once, with the same outcome as releasing them in sequence, and leaves nothing pending |

## Left out

- The Express/CORS setup and the REST task endpoints are left out. The only way they reach the core is `publishEvent`, and its payload is taken as an already-serialised string.
- JWT signing and verification are left out. Authentication is the boolean `authOk` passed to `Connect`.
- The Redis clients, the connect promise and the error listeners are left out. They become the constant `busEnabled` and a success flag per bus call. The source checks `redisEnabled` a second time after awaiting the connect promise. The model has one check, because the flag is fixed once the gateway runs.
- Delivery through the bus is left out. A successful publish reaches subscribers through the bus calling the channel's handler, which is `dispatchNotification`, modelled by `DispatchNotification`.
- The WebSocket transport, `uuid` and JSON are left out. Fresh session ids are arguments. Envelopes are datatypes. The payload parse inside `dispatchNotification` is not modelled: the payload is the message string.
- Asynchronous interleaving is left out. Every operation is atomic, so two concurrent acquires of a fresh channel cannot race. Likewise, the releases that the close handler and the unsubscribe handler start without awaiting take effect at once, one after another.
- The iteration order of `Map` and `Set` is not modelled. The fan-out and the close loop pick elements in any order, and their contracts hold for every order.
- Text.ToLower: only ASCII letters are lower-cased. Unicode case mapping is not modelled.
- Text.LowerChar: only the letters A to Z are lowered; `toLowerCase` also lowers letters such as É, Σ and İ. The restriction reaches the classifier: `"Cİ".toLowerCase()` is "ci̇", which includes "ci" and goes to ci-bot, while the model leaves "Cİ" unassigned.
- Server.CallTool: the snapshot returned by `listTasks` is not modelled; the task store lies outside the core.
- Server.CallTool: a title that is not a string is modelled as making the handler throw, which gives the -32000 reply. A non-string value that happens to have a `toLowerCase` method is not modelled.
- Server.Gateway.SubscribeCase: a channel that is not a string is not modelled. The channel is always a string or missing.
- Server.Gateway.OnMessage: a message that parses as JSON `null` is not modelled. In the source, reading `method` from it throws at src/server.ts:265, and the error handler throws again reading `id` at line 248, so no reply is sent at all. Every other JSON value that is not an object (a number, string, boolean or array) has no `method`, reaches the default case and gets -32601 with the id left out; the model covers those as a parsed request with an absent id and an unknown method name.
- A `ws.send` that throws outside the fan-out is not modelled.
- Logging is left out.
- `src/client-demo.ts` is not part of this model. It is a network demo client.
- `src/types.ts` is not part of this model. It only declares the shapes the datatypes follow.
