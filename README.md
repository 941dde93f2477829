# CogniShape core, modelled in Dafny

CogniShape is a shape-matching game for children. A caretaker watches it
live and can steer it.

- **Front end.** A Phaser scene (`GameScene`) runs the game. A React
  context (`SocketContext`) keeps the caretaker's view of a live session. A
  small axios wrapper (`api.js`) attaches tokens and turns errors into
  messages.
- **Back end.** A FastAPI server (`main.py`) holds licence slots and
  relays websocket traffic through an in-memory registry (`GameManager`).
  A simulated payment provider (`payments.py`) holds orders and payments.
- **Test script.** `test_gemini.py` strips Markdown fences from a model
  reply.

This project models each of these pieces and proves what they promise.

| file | module(s) | models |
|---|---|---|
| `values.dfy` | `Values` | JSON/JavaScript values, JavaScript truthiness, `Option`, `Result` |
| `game_rules.dfy` | `GameRules`, `GameRulesProps` | the game's rules on values: level size, layout, drop resolution, completion |
| `game_scene.dfy` | `GameScene` | the `GameScene` class itself, with the fields its handlers update |
| `socket_context.dfy` | `SocketContext`, `SocketContextProps` | the live-session reducer, control envelopes, the open-socket guard, the URL rule |
| `api_client.dfy` | `ApiClient` | `handleAPIError` and the two interceptors |
| `game_manager.dfy` | `Realtime`, `RealtimeProps` | the `GameManager` registry of connections and sessions |
| `payments.dfy` | `Payments`, `PaymentsProps` | `DummyPaymentManager` and `get_pricing` |
| `backend_main.dfy` | `Api`, `ApiProps` | licence slots, the licence gate, the error-to-500 wrapping, the websocket loop |
| `fence_cleaning.dfy` | `FenceCleaning`, `FenceCleaningProps` | the fence clean-up of `test_gemini.py` |

## How the model is shaped

- **Game.** The rules come first, as functions on a `Board` value
  (`GameRules.Resolve`, `GameRules.Play`). The `GameScene.Scene` class has
  the source's own mutable state: score, errors, level, the shapes and the
  targets. Each method is proved to leave exactly the state that the rule
  functions give.
- **Back end.**
  - `Realtime.GameManager`, `Payments.DummyPaymentManager` and
    `Api.Backend` are classes whose dictionaries are `map` fields.
  - Their methods are proved against pure functions such as
    `WithConnection`, `AfterBroadcast` and `Cleaned`.
  - The lemmas are stated about those functions.
- **Environment as inputs.** The environment becomes parameters:
  - random picks and offsets;
  - the outcome of each socket write;
  - UUID hex digits and clock readings.
- **Two defects are kept as written** in the websocket loop of
  `backend/main.py`:
  - `add_connection` and `remove_connection` are called without `await`, so
    they never run. `Api.WebsocketEndpoint` proves that the registry gains
    no entry. For a child with no entry, nothing is ever delivered.
  - The `?type=` query parameter that the front end sends is never read.

## Model

| member | source | states |
|---|---|---|
| GameRules.EffectiveLevel | frontend/src/components/GameCanvas.js:153 | `level \|\| 1`: a missing or zero level counts as 1, any other level is kept |
| GameRules.EffectiveDifficulty | frontend/src/components/GameCanvas.js:154 | a missing or empty difficulty is `'easy'`, any other is kept |
| GameRules.ShapeCount | frontend/src/components/GameCanvas.js:153-155 | on easy the count is `3 + level` capped at 6; otherwise `4 + level` capped at 8 |
| GameRules.Created | frontend/src/components/GameCanvas.js:169 | the creation loops make `count` objects, and none for a negative count |
| GameRules.DropTargetFrom | frontend/src/components/GameCanvas.js:292-306 | the first target in creation order within 60 with equal colour and shape, else none; `filled` is not consulted |
| GameRules.Resolve | frontend/src/components/GameCanvas.js:235-289 | correct iff a target is found and unfilled. Correct: the shape snaps to it, it is filled, score +10, errors unchanged. Otherwise: the shape goes home, errors +1, score and every target unchanged. Completion iff correct and all targets filled |
| GameRules.Play | frontend/src/components/GameCanvas.js:228-289 | a run of drag-and-drops keeps the number of shapes |
| GameRulesProps.AtMostOneTargetInRange | frontend/src/components/GameCanvas.js:196-197 | targets 120 apart on one row: no point is within 60 of two of them |
| GameRulesProps.DropTargetIsOnlyOneInRange | frontend/src/components/GameCanvas.js:292-306 | the target `getDropTarget` returns is the only one in range of the drop |
| GameRulesProps.AllFilledCount | frontend/src/components/GameCanvas.js:329-333 | "filled count equals target count" is exactly "every target filled" |
| GameRulesProps.ResolveFillCount | frontend/src/components/GameCanvas.js:244-250 | a correct drop fills exactly one more target; any other drop fills none |
| GameRulesProps.ResolveKeepsLayout | frontend/src/components/GameCanvas.js:244-272 | a drop keeps the layout (rows, homes) and the shape-target pairing |
| GameRulesProps.NoCompletionWhenAllFilled | frontend/src/components/GameCanvas.js:244 | once all targets are filled, no drop completes the level or changes a target |
| GameRulesProps.CompletesAtMostOnce | frontend/src/components/GameCanvas.js:264-265 | level completion fires at most once per level, for any sequence of drops |
| GameRulesProps.ScoreAndErrorsAccount | frontend/src/components/GameCanvas.js:250 | over any drops: score rises by 10 per newly filled target, errors by one per other drop |
| GameRulesProps.OwnTargetFound | frontend/src/components/GameCanvas.js:205-211 | shape i dropped on target i's spot is accepted by target i |
| GameRulesProps.LevelCompletable | frontend/src/components/GameCanvas.js:190-214 | on a fresh level, dropping each shape on its own target completes it exactly once, scoring 10 per target and no error |
| GameRulesProps.PositiveLevelHasShapes | frontend/src/components/GameCanvas.js:155 | a level of 1 or more has at least four shapes |
| GameScene.Scene.constructor | frontend/src/components/GameCanvas.js:6-22 | score and errors 0, empty board, not paused, the given level and difficulty |
| GameScene.Scene.CreateDraggableShapes | frontend/src/components/GameCanvas.js:164-188 | shape i has the i-th picked identity and starts at (100 + 120 i, 200) |
| GameScene.Scene.CreateDropTargets | frontend/src/components/GameCanvas.js:190-215 | target i copies shape i's colour and shape kind, sits at (100 + 120 i, 450), unfilled |
| GameScene.Scene.SetupLevel | frontend/src/components/GameCanvas.js:148-162 | the board is a fresh level (laid out, paired, unfilled) of `ShapeCount` shapes; score, errors and level carry over |
| GameScene.Scene.DragStart | frontend/src/components/GameCanvas.js:220-226 | the shape records the drag start time; nothing else changes, and a valid scene stays valid |
| GameScene.Scene.DragTo | frontend/src/components/GameCanvas.js:228-233 | the shape follows the pointer; nothing else changes, and a valid scene stays valid |
| GameScene.Scene.DragEnd | frontend/src/components/GameCanvas.js:235-289 | the new board is `Resolve`'s. The interaction record reports correctness, identity, reaction time, and the new score or error count. A valid scene stays valid |
| GameScene.Scene.CheckLevelComplete | frontend/src/components/GameCanvas.js:329-337 | complete iff every target is filled |
| GameScene.Scene.AdvanceLevel | frontend/src/components/GameCanvas.js:368-372 | level becomes `(level \|\| 1) + 1`; the board is a fresh level of the new size; score and errors carry over |
| GameScene.Scene.SurprisePositionChange | frontend/src/components/GameCanvas.js:420-433 | every shape moves by exactly its own offset and nothing else about it changes; the `isDragging` guard never skips a shape, since nothing sets that flag |
| GameScene.Scene.TriggerSurprise | frontend/src/components/GameCanvas.js:375-390 | only `position_change` moves shapes, each by exactly its offset (x within 50, y within 30); unknown kinds do nothing. Identities, homes, targets, score and errors never change |
| GameScene.Scene.PauseGame | frontend/src/components/GameCanvas.js:440-444 | sets the paused flag only |
| GameScene.Scene.ResumeGame | frontend/src/components/GameCanvas.js:446-450 | clears the paused flag only |
| SocketContext.HandleGameMessage | frontend/src/contexts/SocketContext.js:45-87 | the event log is extended at its end by at most one entry. It grows iff the type is `game_event` or `surprise_triggered`. Live data changes only for `session_started`, `session_ended` or `game_paused` |
| SocketContext.StartedData | frontend/src/contexts/SocketContext.js:54-60 | the installed live data has exactly the five fields, with status `'active'` |
| SocketContext.SurpriseEvent | frontend/src/contexts/SocketContext.js:71-75 | the appended event is `{type:'surprise', surpriseType, timestamp}` from the message |
| SocketContext.UpdateLive | frontend/src/contexts/SocketContext.js:63-68 | `null` stays `null`; otherwise the changed keys take the new values and all other keys are kept |
| SocketContextProps.GameEventAppends | frontend/src/contexts/SocketContext.js:50-52 | `game_event` appends exactly `data.event` and changes nothing else |
| SocketContextProps.SurpriseAppends | frontend/src/contexts/SocketContext.js:70-76 | `surprise_triggered` appends the surprise event and changes nothing else |
| SocketContextProps.SessionStartedActivates | frontend/src/contexts/SocketContext.js:53-61 | `session_started` installs `active` live data whatever was there, an ended session included |
| SocketContextProps.SessionEndedUpdates | frontend/src/contexts/SocketContext.js:62-69 | `session_ended`: `null` stays `null`. Otherwise only `status`, `summary` and `endedAt` change |
| SocketContextProps.GamePausedUpdates | frontend/src/contexts/SocketContext.js:77-83 | `game_paused`: `null` stays `null`. Otherwise only `status` and `pauseDuration` change |
| SocketContextProps.OtherTypesIgnored | frontend/src/contexts/SocketContext.js:47-49 | `connection_confirmed` and every unlisted type change nothing |
| SocketContextProps.ReplayAppendsOnly | frontend/src/contexts/SocketContext.js:45-87 | over any message run the log only grows at its end, by one per event message |
| SocketContext.ClearGameEvents | frontend/src/contexts/SocketContext.js:136-138 | empties the log and keeps the live data |
| SocketContext.ResetLiveGameData | frontend/src/contexts/SocketContext.js:140-142 | clears the live data and keeps the log |
| SocketContextProps.ResetStaysClearedUntilStarted | frontend/src/contexts/SocketContext.js:45-87 | after a reset the live data stays `null` over any run of messages without a `session_started` |
| SocketContext.Envelope | frontend/src/contexts/SocketContext.js:91-95 | an envelope has exactly `type`, its payload key and `timestamp` |
| SocketContext.SendCaretakerControl | frontend/src/contexts/SocketContext.js:89-97 | a `control_command` envelope is sent iff the socket is non-null and open; otherwise nothing is sent |
| SocketContext.SendGameEvent | frontend/src/contexts/SocketContext.js:99-107 | a `game_event` envelope is sent iff the socket is non-null and open |
| SocketContext.TriggerSurpriseControl | frontend/src/contexts/SocketContext.js:109-114 | action `trigger_surprise` carrying the surprise type |
| SocketContext.PauseGameControl | frontend/src/contexts/SocketContext.js:116-121 | action `pause_game`; an `undefined` duration becomes 30, any other value is kept |
| SocketContext.ResumeGameControl | frontend/src/contexts/SocketContext.js:123-127 | action `resume_game` and nothing else |
| SocketContext.AdjustSettingsControl | frontend/src/contexts/SocketContext.js:129-134 | action `adjust_settings` carrying the settings |
| SocketContext.SendCommand | frontend/src/contexts/SocketContext.js:109-134 | each command goes out through the open-socket guard as its control envelope |
| SocketContextProps.CommandEnvelopeReadsBack | frontend/src/contexts/SocketContext.js:91-134 | every command's envelope reads back as `control_command` with its own action, one of the four known actions |
| SocketContext.ChildSocketUrl | frontend/src/contexts/SocketContext.js:20-22 | no URL iff the user or the token is falsy; otherwise base + `/ws/<id>?type=<type, default caretaker>&token=<token>` |
| SocketContext.ConnectToChild | frontend/src/contexts/SocketContext.js:20-43 | `null` iff there is no URL; otherwise a fresh socket that is still connecting, on that URL |
| ApiClient.HandleApiError | frontend/src/utils/api.js:144-154 | throws iff the error is nullish. A truthy `detail` wins, else a truthy `message`. A truthy default yields a truthy result |
| ApiClient.HandleApiErrorIsFirstTruthy | frontend/src/utils/api.js:144-154 | the result is the first truthy of detail, message and error.message, else the default |
| ApiClient.EmptyDetailFallsThrough | frontend/src/utils/api.js:145-148 | an empty-string `detail` falls through to `message` |
| ApiClient.FirstTruthy | frontend/src/utils/api.js:145-153 | the chosen value is one of the candidates or the fallback |
| ApiClient.OnRequest | frontend/src/utils/api.js:13-19 | with a truthy stored token, `Authorization` becomes `Bearer <token>`; otherwise the headers are unchanged. The same config is returned |
| ApiClient.AuthorizationHeader | frontend/src/utils/api.js:14-17 | a header exists iff the token is truthy, and it is `Bearer ` followed by the token |
| ApiClient.OnResponse | frontend/src/utils/api.js:27-29 | a success is passed on unchanged |
| ApiClient.Browser.OnResponseError | frontend/src/utils/api.js:30-37 | every error is rejected as itself. Only a 401 clears the token and moves to `/login`. A nullish error throws |
| Realtime.RemoveFirst | backend/game_manager.py:56-57 | removes one occurrence if present, and nothing otherwise |
| Realtime.Added | backend/game_manager.py:28-33 | role `child` takes the child slot; any other role is appended to the caretakers |
| Realtime.WithConnection | backend/game_manager.py:20-33 | the child id gains an entry (empty first if new) holding the socket; other entries are unchanged |
| Realtime.Removed | backend/game_manager.py:50-58 | the child slot is cleared only if it holds the socket. A caretaker socket loses exactly one occurrence; any other socket leaves the caretakers unchanged |
| RealtimeProps.RemovedTakesOne | backend/game_manager.py:56-57 | removal takes exactly one copy of the socket out of the caretakers, counted as a multiset |
| Realtime.WithoutConnection | backend/game_manager.py:43-63 | unknown id: no change. The entry is deleted iff it is empty after removal; other entries are unchanged |
| Realtime.AfterBroadcast | backend/game_manager.py:65-85 | only the caretakers of this child change; ids and child slots are kept |
| Realtime.ToCaretakers | backend/game_manager.py:67-80 | a broadcast reaches, in list order, exactly the caretakers whose write succeeded; it reaches none for an unknown id |
| Realtime.AfterChildSend | backend/game_manager.py:87-104 | only this child's slot can change, and only to empty. It empties iff the write fails or the message has no `type` |
| Realtime.ToChild | backend/game_manager.py:89-99 | at most one delivery: to the child socket, when there is one and the write succeeds |
| Realtime.StaleIds | backend/game_manager.py:276-280 | only completed sessions are ever stale; active ones never are |
| Realtime.Cleaned | backend/game_manager.py:271-286 | exactly the stale sessions go; the rest are kept unchanged |
| Realtime.GameManager.constructor | backend/game_manager.py:14-18 | empty registry and session table |
| Realtime.GameManager.AddConnection | backend/game_manager.py:20-41 | the registry becomes `WithConnection`; the confirmation is delivered iff its write succeeds |
| Realtime.GameManager.RemoveConnection | backend/game_manager.py:43-63 | the registry becomes `WithoutConnection` |
| Realtime.GameManager.BroadcastToCaretakers | backend/game_manager.py:65-85 | deliveries are `ToCaretakers`; the registry becomes `AfterBroadcast` (failed sockets removed one by one) |
| Realtime.GameManager.SendControlToChild | backend/game_manager.py:87-104 | deliveries are `ToChild`; the registry becomes `AfterChildSend` |
| Realtime.GameManager.StartGameSession | backend/game_manager.py:106-143 | adds an active session with the config and no events, keeping the others. It tells the child, then the caretakers |
| Realtime.GameManager.EndGameSession | backend/game_manager.py:145-182 | unknown id: no change. Otherwise only that session changes (completed, end time, summary); child and caretakers are told |
| Realtime.GameManager.LogGameEvent | backend/game_manager.py:184-205 | unknown id: no change. Otherwise exactly one stamped event is appended and broadcast |
| Realtime.GameManager.SendCaretakerControl | backend/game_manager.py:207-218 | the wrapped control goes to the child through `SendControlToChild` |
| Realtime.GameManager.HandleSurpriseTrigger | backend/game_manager.py:231-249 | a surprise trigger goes to the child, then a notice to the caretakers |
| Realtime.GameManager.HandleGamePause | backend/game_manager.py:251-269 | a pause goes to the child, then a notice to the caretakers |
| Realtime.ActiveIds | backend/game_manager.py:222-225 | the ids of the sessions whose status is active, and no others |
| Realtime.GameManager.GetActiveSessions | backend/game_manager.py:220-225 | the result lists each active session exactly once (one per distinct id) and nothing else |
| Realtime.GameManager.CleanupOldSessions | backend/game_manager.py:271-286 | the table becomes `Cleaned`; the returned count is the number of stale sessions; a valid table stays valid |
| RealtimeProps.RemoveFirstIsEarliest | backend/game_manager.py:57 | `list.remove` drops the earliest occurrence |
| RealtimeProps.PruneKeepsSucceededCounts | backend/game_manager.py:74-85 | after pruning, each socket occurs as often as its writes succeeded, duplicates included |
| RealtimeProps.PruneKeepsSucceeded | backend/game_manager.py:74-85 | with each caretaker listed once, pruning leaves exactly the successful ones, in their original order |
| RealtimeProps.BroadcastKeepsReceivers | backend/game_manager.py:65-85 | with each caretaker listed once, the caretakers left are exactly those the broadcast reached |
| RealtimeProps.AddThenRemoveFresh | backend/game_manager.py:20-63 | adding a socket for an unknown child, then removing it, restores the registry in either role |
| RealtimeProps.AddThenRemoveCaretaker | backend/game_manager.py:31-63 | a new caretaker joining a non-empty entry and leaving restores that entry |
| Payments.DummyPaymentManager.CreateOrder | backend/payments.py:66-83 | stores and returns a `created` order under `order_<hex>`, with the amount, currency, receipt (default from clock) and fixed key |
| Payments.Decimal | backend/payments.py:74 | `str(int(time.time()))`: a digit string with no leading zero that reads back as the clock value |
| Payments.ReceiptOrDefault | backend/payments.py:74 | a truthy receipt is kept; otherwise it is `dummy_order_` followed by digits that read back as the clock value |
| Payments.DummyPaymentManager.ProcessPayment | backend/payments.py:85-131 | unknown order: error, nothing stored. Otherwise a captured or failed payment copies the order's amount and currency. Verification succeeds iff the payment succeeded. Orders are never touched |
| Payments.DummyPaymentManager.VerifyPayment | backend/payments.py:133-139 | a payment verifies iff its details can be fetched and show it captured; an unknown or failed payment does not |
| Payments.DummyPaymentManager.GetPaymentDetails | backend/payments.py:141-146 | error iff the payment id is unknown; otherwise the stored payment |
| Payments.DummyPaymentManager.RefundPayment | backend/payments.py:148-168 | error iff unknown. The amount defaults to the payment's, the currency is copied, and nothing is stored |
| Payments.GetPricing | backend/payments.py:202-217 | `ValueError` ("Invalid pricing request") iff the item is unknown or lacks its role or subscription; every other request is priced |
| PaymentsProps.PriceTables | backend/payments.py:22-57 | every price in the table is non-negative and quoted in USD, INR or EUR |
| PaymentsProps.PricingBounds | backend/payments.py:202-217 | no request is priced below zero; a currency other than USD, INR or EUR raises `KeyError`, which is caught and priced 0.0, for every item |
| PaymentsProps.ListedItemsArePriced | backend/payments.py:22-57 | every listed item, with a listed role or plan where it needs one, has a positive price in every listed currency |
| PaymentsProps.UnlistedKeyIsFree | backend/payments.py:207-217 | an unlisted role or plan is priced 0.0, not refused |
| PaymentsProps.DoctorUpgradeCostsMore | backend/payments.py:28-39 | a doctor's upgrade costs more than a parent's in every currency |
| Api.SlotsFor | backend/main.py:122 | 10 slots for `parent`, 25 for any other role |
| Api.Admit | backend/main.py:206-225 | a full licence refuses. Otherwise the child is admitted and a licence counts one more slot. No licence: admitted, nothing counted |
| Api.Backend.Register | backend/main.py:102-146 | a known email fails with 500 (the 400 is caught). Otherwise the user and a licence of `SlotsFor(role)` slots, none used, are stored; `used <= total` is kept |
| Api.Backend.CreateChild | backend/main.py:202-239 | follows `Admit`: a refusal is a 500 with nothing stored. Otherwise the child is stored and the licence counted; `used <= total` is kept |
| ApiProps.AdmitManyCounts | backend/main.py:206-225 | k requests against `used` of `total` slots admit `min(k, total - used)` and count exactly those |
| ApiProps.RegisteredCapacity | backend/main.py:122-128 | a new parent can add 10 children and any other role 25; further requests are refused |
| Api.RouteOf | backend/main.py:371-377 | `game_event` goes to the caretakers, `control_command` to the child, other types are ignored. Non-JSON, non-object or untyped frames end the loop |
| Api.ExitOf | backend/main.py:368-380 | the handler ends at the first frame that raises, or disconnects after the last frame |
| Api.Relay1 | backend/main.py:373-377 | a `game_event` delivers `ToCaretakers` and prunes as `AfterBroadcast`; a `control_command` delivers `ToChild` and updates as `AfterChildSend`; other types do nothing. Only the child's own sockets receive, and none is added |
| Api.Relay | backend/main.py:368-377 | frames are relayed in order up to the first that raises. Ids are kept, the outbox only grows at its end, and only sockets registered for the child at the start receive anything. An unknown child changes nothing |
| Api.HandleFrame | backend/main.py:373-377 | the registry and outbox change exactly as `Relay1` says for that frame |
| Api.WebsocketEndpoint | backend/main.py:363-380 | the registry and the outbox end as `Relay` from the start says, and the exit is `ExitOf`'s. The registry gains no id and sessions are untouched. For a child with no entry nothing is delivered |
| FenceCleaning.TrimStartSpec | test_gemini.py:55 | `lstrip` keeps a suffix that starts with a non-space character and drops only whitespace |
| FenceCleaning.TrimEndSpec | test_gemini.py:55 | `rstrip` keeps a prefix that ends with a non-space character and drops only whitespace |
| FenceCleaning.Strip | test_gemini.py:55 | the result has no leading or trailing whitespace and is no longer than the input |
| FenceCleaning.Unfence | test_gemini.py:56-61 | the result is a slice of the input: the start drops 0, 3, 7 or 10 characters and the end 0 or 3 |
| FenceCleaning.CleanFences | test_gemini.py:55-62 | the cleaned text is trimmed and no longer than the input |
| FenceCleaningProps.JsonFenceRoundTrip | test_gemini.py:55-62 | a trimmed payload fenced as ```` ```json ```` + whitespace + payload + whitespace + ```` ``` ```` cleans back to the payload, also with no whitespace after the opening fence when the payload does not open with ```` ``` ```` |
| FenceCleaningProps.PlainFenceRoundTrip | test_gemini.py:55-62 | a trimmed payload fenced as ```` ``` ```` + whitespace + payload + ```` ``` ```` cleans back to the payload |
| FenceCleaningProps.JsonFenceDropped | test_gemini.py:56-61 | text that opens with ```` ```json ```` always loses those 7 characters, 3 more when a ```` ``` ```` follows, and at most one closing ```` ``` ```` |
| FenceCleaningProps.PlainFenceDropped | test_gemini.py:56-61 | text that opens with ```` ``` ```` but not ```` ```json ```` always loses those 3 characters and at most one closing ```` ``` ```` |
| FenceCleaningProps.JsonThenPlainFenceBothDropped | test_gemini.py:56-59 | ```` ```json ```` directly followed by ```` ``` ```` loses both fences |
| FenceCleaningProps.OneTrailingFenceRemoved | test_gemini.py:60-61 | only one trailing fence goes: text ending in two keeps the inner one |
| FenceCleaningProps.UnfencedTextOnlyTrimmed | test_gemini.py:55-62 | text with no fence at either end is only trimmed |
| FenceCleaningProps.StripPadded | test_gemini.py:55 | whitespace around a trimmed text is exactly what `strip` removes |

## Left out

- **Phaser rendering and timing** are not modelled. This covers textures, tints, tweens, the camera flash, the `delayedCall` delays and the celebration text. The `onGameEvent` calls that only report, and the score text, are out too.
- **Random choices are inputs.** The random colour and shape picks are a list of identities given to `SetupLevel`; the configured palettes that `GetRandom` picks from are not modelled. The `Between(-50, 50)` and `Between(-30, 30)` offsets are also inputs.
- **Movement is instant.** The surprise tween moves a shape at once to its final place.
- **Phaser's drag state is not modelled.** The surprise move skips a shape only when `shape.input.isDragging` is set, and nothing in the scene sets it, so every shape moves.
- **Drag listeners are not modelled.** Each shape adds global drag listeners that stay after its level is torn down; only the handlers of the current shapes are modelled.
- **Front-end side effects are out.** `console.log`, the `onopen`/`onmessage` wiring and `process.env` lookups are not modelled; the environment's endpoint base is a parameter.
- GameScene.Scene.PauseGame: the engine's `physics.pause()` and `anims.pauseAll()` are not modelled. Only the flag is, and a paused scene still accepts drags, as in the source.
- **Clocks.** Clock readings are parameters. JavaScript timestamps are strings, and the back end's are integer seconds. ISO-8601 formatting and parsing are not modelled, so `cleanup_old_sessions` compares integer seconds.
- **JSON encoding is out.** `JSON.stringify` and `json.dumps` are not modelled; messages are sent as values. Number values are integers, so floats and the price table's mix of floats and ints are out. Prices are reals.
- Realtime.GameManager.GetActiveSessions: the order of the result follows Python's dictionary order and is not stated.
- Realtime.GameManager.LogGameEvent: the caller's event dictionary gains the `timestamp` key in place. The model only stores and broadcasts the stamped copy.
- **Logging and sleeping are out.** Logging calls, `time.sleep` and `get_payment_history`/`get_order_history` (plain dictionary listings) are not modelled. `calculate_amount` and the order helpers built on it are left out because they use float arithmetic.
- **Registration internals are out.** Password hashing, token creation and `login` are not modelled, nor is the profile route. Database failures other than the duplicate email and the licence limit are out too; those two are the errors the handlers raise themselves.
- Api.WebsocketEndpoint: coroutines run as single sequential steps; concurrency between connections is not modelled.
- **Not part of this model:** `backend/ai_agent.py`, `backend/models.py`, `backend/database.py`, the React pages and the HTTP request in `test_gemini.py`.
