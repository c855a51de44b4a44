# Grind-Quest live layer and points routes, modelled in Dafny

This project models the client-side live-collaboration layer of Grind-Quest and the small routes that keep score:

- **Presence room** (`presence.dfy`, module `Presence`): the `usePresence` hook as a class.
  - The `sync`, `join` and `leave` handlers maintain the map of other users online.
  - The subscribe-status callback uses a retry counter capped at three. Its delay grows linearly, 1000 ms times the attempt.
  - The full-record publish (`trackPresence`, `updateTyping`, the cursor callback and the 1 s heartbeat) and the cleanup closure are methods.
  - Timers are fire-methods, and the clock is a parameter.
  - A render with a different identity re-runs the effect on the same instance (`ChangeIdentity`). The refs (cursor, typing, retry count) and the online-users map survive it.
  - The throttled cursor callback is created once, so it keeps the identity of the first render.
- **Chat** (`chat.dfy`, module `Chat`): the `useChat` hook as a class.
  - It has a bounded history buffer (`[...prev, m].slice(-maxMessages)`, default 100).
  - `sendMessage` appends the local echo only on an `'ok'` acknowledgement.
  - The status callback has no retry path.
  - A render with a different user id re-runs the effect and keeps the buffer, except that an empty id clears it.
- **Realtime channel** (`transport.dfy`, module `Transport`): an abstract object that records every subscribe, track, send and unsubscribe made on it. The service's answers (statuses, send replies) are inputs.
- **Message bubbles** (`floating_cursors.dfy`, module `FloatingCursors`): the new-message effect of the floating cursors, as a pure scheduler state and as a class whose `forEach` is a loop.
  - The processed-key set suppresses duplicates.
  - There is one visible bubble per sender.
  - A 3 s expiry removes a bubble only while its timestamp matches.
  - A 1 s release forgets the key.
  - The module also holds the drawing rules: self-exclusion, `isActive` and the own bubble.
- **Keyboard capture** (`cursor_chat.dfy`, module `InputCapture`): the `keydown` state machine of the cursor chat, both as a step function and as a class that logs its `onTyping`/`onSendMessage` calls.
- **Provider glue** (`realtime_provider.dfy`, module `Realtime`):
  - the start-up probe: the provider starts in `testing`, and the probe settling re-renders both hooks with their gated identities;
  - identity gating of both hooks;
  - the last-five window of recent messages;
  - `handleTyping`, and the routing of the capture's callbacks;
  - the mouse listener, which calls the presence hook's cursor callback.
- **Table helpers** (`tables.dfy`, module `Tables`): the database tables as sequences of rows. The helpers are filter, exactly-one-row lookup (`.single()`) and sort descending by a key.
- **Quest completion** (`quest_completion.dfy`, module `QuestCompletion`): `POST /api/quests/complete`.
  - A guard chain runs over the tables.
  - Then come the insert, the points update and the DRIP log. The DRIP sync call never rejects, because its client catches every error, so the log row always says `success: true`.
  - Each write's failure is an input.
- **Profile** (`profile.dfy`, module `Profile`): `GET /api/me`.
  - rank = 1 + the number of users with more points;
  - the active quests, each with its completed flag;
  - the ten newest posts.
- **Leaderboard** (`leaderboard.dfy`, module `Leaderboard`): `GET /api/leaderboard`, with the query defaults, offset and range arithmetic, per-row rank, `isCurrentUser` and `totalPages`.
- **User card** (`user_card.dfy`, module `UserCard`):
  - the bonus table;
  - the claim-once post card;
  - the quest click with its delayed completion request;
  - local point updates.
- **Mock sign-in** (`mock_auth.dfy`, module `MockAuth`): the static current user and the browser storage entry.

`common.dfy` (module `Common`) holds `Option`, JavaScript `trim` and JavaScript `slice(-n)`.

The model follows the code where a reader might expect otherwise:
- The retry backoff is linear (1000, 2000, 3000 ms), although the comment at hooks/usePresence.ts:95 calls it exponential.
- Backspacing to empty emits `''` twice.
- The presence cleanup keeps the last online-users map. After a change between two user ids the kept map may list the new local id until the next sync.
- `slice(-0)` keeps the whole buffer, so a zero `maxMessages` bounds nothing.
- The completion request adds its points to the display captured at the click, so points added in the 2 s before the reply are overwritten.

The processed-message key is the sender id and the timestamp joined by `-`, exactly as the component builds it. It is a string, not a pair, so two different (sender, timestamp) pairs can collide as they can in the component (`FloatingCursors.KeysCanCollide`).

## Model

| member | source | states |
|---|---|---|
| Common.SliceLast | hooks/useChat.ts:56-58 | the result is a suffix of the input; for a positive n it holds min(n, length) entries, and n = 0 keeps everything |
| Common.Trim | hooks/useChat.ts:89 | the trimmed text is empty iff the text is whitespace only; otherwise it starts and ends with a non-space; it is never longer |
| Common.TrimCutsBlankEnds | hooks/useChat.ts:89 | the trimmed text is exactly what is left of the text once a blank prefix and a blank suffix are cut off |
| Presence.Spread | hooks/usePresence.ts:39-47 | every supplied field overrides the base record, every absent one keeps it; no updates give the base unchanged |
| Presence.FullRecord | hooks/usePresence.ts:37-47 | a publish without updates carries the identity, the cursor ref, the typing ref and the current time; a typing update replaces only the typing text |
| Presence.SyncView | hooks/usePresence.ts:120-134 | the view never holds the local user; a key is in it iff it is another user with a non-empty presence list, mapped to the list's first entry |
| Presence.RetryOnFailure | hooks/usePresence.ts:80-97 | below the cap the count grows by one and a timer of 1000·count is set; at the cap nothing changes; the count never passes three |
| Presence.BuildSyncView | hooks/usePresence.ts:120-134 | after a sync the keys are exactly the snapshot keys with a non-empty array other than the local user, each mapped to its array's first element |
| Presence.Joined | hooks/usePresence.ts:136-145 | a remote key with presences gets the first one; every other key is untouched; the local key or an empty list leaves the map unchanged |
| Presence.Left | hooks/usePresence.ts:146-153 | exactly the key is removed, every other entry is kept, an absent key is a no-op |
| Presence.SelfNeverOnline | hooks/usePresence.ts:120-153 | over any sequence of sync/join/leave events the local user never becomes a key of the map |
| Presence.LastSyncWins | hooks/usePresence.ts:120-134 | after a sync the map is that snapshot's view, whatever events came before |
| Presence.FailureDelaysFrom | hooks/usePresence.ts:80-97 | from count c, n consecutive failures schedule min(n, 3 - c) retries with delays 1000·(c+1), 1000·(c+2), … |
| Presence.ConsecutiveFailures | hooks/usePresence.ts:80-97 | from a reset counter the failures schedule 1000, 2000, 3000 ms and then nothing: a fourth failure schedules no timer |
| Presence.PresenceRoom.constructor | hooks/usePresence.ts:57-116 | an empty user id opens no channel, is disconnected and sees nobody; otherwise one fresh channel on `room:<roomId>` is subscribed and the heartbeat runs; the cursor callback keeps this first identity |
| Presence.PresenceRoom.ChangeIdentity | hooks/usePresence.ts:99-217 | the same identity changes nothing; another one tears the old channel down with one unsubscribe, then an empty id clears the map and stays closed, and a non-empty one subscribes a fresh channel; the cursor, typing and retry refs survive, and so does the map |
| Presence.PresenceRoom.OnSync | hooks/usePresence.ts:120-135 | while a channel is held, the map becomes the snapshot's view and nothing else changes; after teardown nothing changes |
| Presence.PresenceRoom.OnJoin | hooks/usePresence.ts:136-145 | while a channel is held, the map becomes `Joined` of the old map and nothing else changes |
| Presence.PresenceRoom.OnLeave | hooks/usePresence.ts:146-153 | while a channel is held, the map becomes `Left` of the old map and nothing else changes |
| Presence.PresenceRoom.RetryConnection | hooks/usePresence.ts:80-97 | below the cap of three the count grows by one and the timer is rescheduled at 1000·count; at the cap nothing changes |
| Presence.PresenceRoom.OnStatus | hooks/usePresence.ts:154-183 | SUBSCRIBED connects, resets the count and tracks the full record; CHANNEL_ERROR and TIMED_OUT disconnect and retry; CLOSED only disconnects |
| Presence.PresenceRoom.FireRetryTimer | hooks/usePresence.ts:91-95 | a pending retry resubscribes the held channel once; with no channel held nothing is sent |
| Presence.PresenceRoom.TrackPresence | hooks/usePresence.ts:37-54 | without a channel or a user id nothing is published; otherwise exactly one track of the full record with the updates applied |
| Presence.PresenceRoom.UpdateTyping | hooks/usePresence.ts:220-223 | the typing ref holds the text before the one track that carries it |
| Presence.PresenceRoom.CursorMoved | hooks/usePresence.ts:57-77 | as written: the cursor ref holds the new position; with a channel, one record with the first render's identity, that cursor and the current typing text is tracked when that identity has a user id, and nothing is tracked when it had none |
| Presence.PresenceRoom.CursorMovedCorrected | hooks/usePresence.ts:57-77 | corrected: the cursor ref holds the new position, and the full record is published under the current identity, as `TrackPresence` does |
| Presence.PresenceRoom.FireHeartbeat | hooks/usePresence.ts:196-200 | while running with a channel and a user, one full publish without updates; otherwise nothing |
| Presence.PresenceRoom.Teardown | hooks/usePresence.ts:203-216 | heartbeat and retry timer stop, the held channel is unsubscribed once and dropped, and the hook is disconnected; a second teardown unsubscribes nothing |
| Chat.AppendBounded | hooks/useChat.ts:55-58 | the new message ends the buffer, which grows by at most one; under a positive bound it holds min(old + 1, bound) messages |
| Chat.AppendKeepsOrder | hooks/useChat.ts:55-58 | the new message ends the buffer, which is the bounded suffix of the old buffer followed by it, the oldest dropped first |
| Chat.AppendBounds | hooks/useChat.ts:109-111 | a positive bound is never exceeded: the length becomes min(old + 1, bound) |
| Chat.Compose | hooks/useChat.ts:91-98 | the message carries the sender's id, username and avatar, the trimmed text, the fresh id and the time |
| Chat.BufferIsBoundedSuffix | hooks/useChat.ts:25-58 | after any run of appends the buffer is the last maxMessages of the old buffer followed by everything appended |
| Chat.ChatRoom.constructor | hooks/useChat.ts:31-49 | an empty user id opens nothing, with no messages, disconnected; otherwise one fresh channel on `chat:<roomId>` is subscribed |
| Chat.ChatRoom.ChangeIdentity | hooks/useChat.ts:31-86 | the same user id changes nothing but the identity; another one unsubscribes the old channel once, then an empty id clears the buffer and stays closed, and a non-empty one subscribes a fresh channel and keeps the buffer |
| Chat.ChatRoom.OnBroadcast | hooks/useChat.ts:53-60 | while the channel is held, a received message is appended under the bound; after teardown nothing changes |
| Chat.ChatRoom.OnStatus | hooks/useChat.ts:61-73 | SUBSCRIBED connects, CHANNEL_ERROR and CLOSED disconnect, TIMED_OUT changes nothing; there is no retry |
| Chat.ChatRoom.SendMessage | hooks/useChat.ts:88-120 | no channel or blank text: false, nothing sent; otherwise one send of the composed message, and only an `'ok'` reply appends it and returns true |
| Chat.ChatRoom.ClearMessages | hooks/useChat.ts:122-124 | the buffer is emptied and nothing else changes |
| Chat.ChatRoom.Teardown | hooks/useChat.ts:78-85 | the held channel is unsubscribed once and dropped, so every later send returns false |
| FloatingCursors.KeyOf | components/features/floating-cursors.tsx:51 | the key is the sender id, a `-` and the timestamp, in that order |
| FloatingCursors.KeysCanCollide | components/features/floating-cursors.tsx:51-59 | two messages with different senders can share a key, so the later one is taken as already processed |
| FloatingCursors.Receive | components/features/floating-cursors.tsx:50-79 | a processed key changes nothing; a new one is marked, replaces its sender's bubble and schedules its expiry; other senders are untouched |
| FloatingCursors.Expire | components/features/floating-cursors.tsx:71-85 | the sender's bubble goes only if it still has the message's timestamp; no other bubble changes; the key's release is scheduled |
| FloatingCursors.ReleaseKey | components/features/floating-cursors.tsx:82-84 | exactly the timer's key leaves the processed set |
| FloatingCursors.ReceivePreserves | components/features/floating-cursors.tsx:51-79 | receiving keeps every processed key owned by exactly one pending timer |
| FloatingCursors.ReceiveAllPreserves | components/features/floating-cursors.tsx:48-87 | a whole window keeps that invariant |
| FloatingCursors.ExpirePreserves | components/features/floating-cursors.tsx:71-85 | an expiry keeps it: its timer is replaced by the release of the same key |
| FloatingCursors.ReleasePreserves | components/features/floating-cursors.tsx:82-84 | a release keeps it: the key goes with its only timer |
| FloatingCursors.KeyReleasedOnlyByItsOwnTimer | components/features/floating-cursors.tsx:82-84 | while a key is processed no other pending timer carries it, so only its own message's release removes it |
| FloatingCursors.ReceiveAllMarksWindow | components/features/floating-cursors.tsx:48-87 | the effect forgets no key and leaves every key of the window processed |
| FloatingCursors.ReceiveAllSeen | components/features/floating-cursors.tsx:54-56 | a window whose keys are all processed changes nothing and schedules no timer |
| FloatingCursors.ReceiveWindowCorrected | components/features/floating-cursors.tsx:48-87 | corrected effect: the same bubbles and timers, with exactly the window's keys remembered |
| FloatingCursors.ExpireCorrected | components/features/floating-cursors.tsx:71-85 | corrected expiry: the same bubble removal and no key release |
| FloatingCursors.MessageBubbles.OnRecentMessages | components/features/floating-cursors.tsx:48-87 | the loop's state is the fold of `Receive` over the window, and the timer invariant holds |
| FloatingCursors.MessageBubbles.FireExpiry | components/features/floating-cursors.tsx:71-80 | the state becomes `Expire` of the old state, and the invariant holds |
| FloatingCursors.MessageBubbles.FireRelease | components/features/floating-cursors.tsx:82-84 | the state becomes `ReleaseKey` of the old state, and the invariant holds |
| FloatingCursors.DrawnCursors | components/features/floating-cursors.tsx:95-97 | exactly the online users other than the current one are drawn |
| FloatingCursors.IsActive | components/features/floating-cursors.tsx:100 | a user is active iff they have non-empty typing text or a visible message |
| FloatingCursors.OwnBubble | components/features/floating-cursors.tsx:213 | the own bubble shows iff there is typing text or a visible message, and the typing text wins |
| InputCapture.SendMessage | components/features/cursor-chat.tsx:22-32 | blank text does nothing; otherwise the state is cleared, `''` is emitted, then the non-empty trimmed text is sent |
| InputCapture.TypeKey | components/features/cursor-chat.tsx:43-58 | a printable key appends below 50 characters and starts composing; at 50 nothing changes; the preview is the new text |
| InputCapture.Backspace | components/features/cursor-chat.tsx:62-72 | the last character goes; composing stops iff the text becomes empty, and then `''` is emitted a second time |
| InputCapture.KeyDown | components/features/cursor-chat.tsx:36-87 | text-field targets change nothing; a printable key appends while the length stays ≤ 50; the last preview is the text being composed; only Enter sends, only non-blank text; validity is kept |
| InputCapture.KeyDownEditingKeys | components/features/cursor-chat.tsx:60-86 | while composing, Backspace drops a character, Escape clears and emits `''`, and Enter sends non-blank text; when not composing these keys, blank Enter and other non-printable or modified keys change nothing |
| InputCapture.KeyDownAllKeepsValid | components/features/cursor-chat.tsx:19-86 | over any key sequence, composing holds iff there is text, and the text never exceeds 50 characters |
| InputCapture.BackspaceToEmpty | components/features/cursor-chat.tsx:62-72 | "h", "i", Backspace, Backspace emits "h", "hi", "h", "", "" and ends idle |
| InputCapture.CursorChat.HandleSendMessage | components/features/cursor-chat.tsx:22-32 | the state and the callback log follow `SendMessage` |
| InputCapture.CursorChat.HandleKeyDown | components/features/cursor-chat.tsx:36-87 | the state and the callback log follow `KeyDown`, and validity is kept |
| Realtime.StatusAfterProbe | components/features/realtime-provider.tsx:32-52 | the probe always settles the status, and it is connected iff the query answered without error |
| Realtime.PresenceIdentity | components/features/realtime-provider.tsx:55-64 | the user's id, handle and avatar when signed in and connected, the empty identity otherwise |
| Realtime.ChatIdentityFor | components/features/realtime-provider.tsx:66-69 | the same rule for the chat hook |
| Realtime.HooksEnabledTogether | components/features/realtime-provider.tsx:55-69 | presence and chat are enabled together, and only for a signed-in user after a successful probe |
| Realtime.RecentAfter | components/features/realtime-provider.tsx:72-87 | an empty history leaves the window; otherwise the projection of the latest message ends it and at most five entries remain |
| Realtime.Project | components/features/realtime-provider.tsx:79-83 | a window entry keeps exactly the message's sender, text and timestamp |
| Realtime.RealtimeProvider.constructor | components/features/realtime-provider.tsx:22-69 | the status starts `testing`, so both hooks mount with the empty identity and open nothing; an empty window, no typing text |
| Realtime.RealtimeProvider.ProbeSettles | components/features/realtime-provider.tsx:32-69 | the status becomes the probe's result and both hooks re-render with the gated identities: without a signed-in user or after a failed probe no channel is held; from `testing`, success opens one fresh subscribed channel for each hook |
| Realtime.RealtimeProvider.OnMouseMove | hooks/usePresence.ts:57-77 | as written: while the listener runs the cursor ref is updated, but no channel sees a call, because the callback kept the empty identity of the `testing` render |
| Realtime.RealtimeProvider.OnMouseMoveCorrected | hooks/usePresence.ts:57-77 | corrected: a signed-in user with a held channel publishes the full record with their id, handle, avatar, the new cursor and their typing text |
| Realtime.RealtimeProvider.HandleTyping | components/features/realtime-provider.tsx:90-93 | the own typing text and the published typing text are both the given text |
| Realtime.RealtimeProvider.Deliver | components/features/realtime-provider.tsx:121-130 | a typing callback goes to `handleTyping`, a send goes to the chat hook and leaves the typing text alone |
| Realtime.RealtimeProvider.DeliverAll | components/features/realtime-provider.tsx:121-130 | after a key press's callbacks the own typing text is the last preview among them |
| Realtime.RealtimeProvider.OnKeyDown | components/features/realtime-provider.tsx:96-130 | without a user no key is captured; with one the capture steps and the own bubble and the published typing always show the text being composed |
| Realtime.RealtimeProvider.OnMessagesChanged | components/features/realtime-provider.tsx:72-87 | the window becomes `RecentAfter` of the history and stays within five entries, and the bubbles receive the new window |
| Realtime.RealtimeProvider.OwnBubbleText | components/features/floating-cursors.tsx:252 | the own bubble shows the typing text whenever there is any |
| Realtime.RealtimeProvider.DrawnOthers | components/features/realtime-provider.tsx:121-126 | the signed-in user is never drawn as another cursor |
| Realtime.ExpiredBubbleReappears | components/features/floating-cursors.tsx:82-84 | as written, an expired message whose key was released is shown again when the next message arrives |
| Realtime.CorrectedShowsOnlyNewMessage | components/features/floating-cursors.tsx:48-87 | with the corrected rules a new window shows only the bubble of the message that arrived |
| Realtime.CorrectedKeepsWindowKeys | components/features/floating-cursors.tsx:71-85 | with the corrected rules the window's keys stay remembered through any expiry |
| Tables.Single | app/api/quests/complete/route.ts:16-20 | a row is returned iff exactly one row matches, and it is that row |
| Tables.Filter | app/api/me/route.ts:39-42 | the kept rows are exactly the rows meeting the condition |
| Tables.FilterCounts | app/api/me/route.ts:39-42 | every kept row appears as often as it is stored, and no other row appears |
| Tables.FilterSingleton | app/api/me/route.ts:39-42 | a single row is kept exactly when it meets the condition |
| Tables.FilterAppend | app/api/me/route.ts:39-42 | filtering distributes over concatenation; with the single-row case this makes the result the kept rows in storage order |
| Tables.SortDesc | app/api/me/route.ts:57 | the result is ordered by the key, descending, and is a permutation of the input |
| Tables.Take | app/api/me/route.ts:58 | the first min(n, length) rows, in order |
| QuestCompletion.CheckRequest | app/api/quests/complete/route.ts:7-47 | no body: 500; missing ids: 400; no single user or quest: 404; a pair recorded exactly once: 400; otherwise accepted, naming the one user and the one quest |
| QuestCompletion.RecordedCompletionIsSingle | app/api/quests/complete/route.ts:38-45 | without duplicates, a recorded pair is matched by exactly one row and an unrecorded one by none |
| QuestCompletion.SetPoints | app/api/quests/complete/route.ts:63-70 | only the rows of that user get the new total and time; every other row is unchanged |
| QuestCompletion.SetPointsKeepsLookup | app/api/quests/complete/route.ts:63-70 | the points update does not change whom a Twitter id finds |
| QuestCompletion.RecordingKeepsNoDuplicates | app/api/quests/complete/route.ts:53-58 | recording an unrecorded pair keeps the table free of duplicates |
| QuestCompletion.RecordedPairIsRefused | app/api/quests/complete/route.ts:38-47 | once a pair is recorded, the same request is refused as already completed |
| QuestCompletion.CreditedAtMostOnce | app/api/quests/complete/route.ts:38-72 | after an accepted request is recorded, with or without its points update, repeating it is refused: a quest is credited at most once |
| QuestCompletion.Record | app/api/quests/complete/route.ts:53-97 | a failed insert writes nothing; a failed update leaves the completion recorded and answers 500; otherwise points = quest points, total = old + quest points, and the DRIP log row, always `success: true`, is written unless its own insert fails, even after a failed sync |
| QuestCompletion.CompleteQuest | app/api/quests/complete/route.ts:5-104 | a refused request writes nothing and answers the guard's error; an accepted one behaves as `Record`; the no-duplicates invariant is kept |
| Profile.TwitterIdParam | app/api/me/route.ts:7 | `twitter_id` wins unless absent or empty, then `twitterId` |
| Profile.Rank | app/api/me/route.ts:63-70 | 1 + the number of users with strictly more points, between 1 and the user count + 1 |
| Profile.RankOrder | app/api/me/route.ts:63-70 | the top scorer ranks 1, tied users share a rank, more points give a rank no worse, and strictly better for a listed user |
| Profile.HasCompletedIff | app/api/me/route.ts:49 | the completed flag is set iff some completion row has the quest's id |
| Profile.QuestsWithStatus | app/api/me/route.ts:39-50 | exactly the active quests, each once and in order, each flagged iff one of the user's completions names it |
| Profile.NewestFirstOwned | app/api/me/route.ts:53-57 | the listed posts are the user's own |
| Profile.RecentPostsAreTheUsers | app/api/me/route.ts:53-58 | at most ten posts, all the user's, newest `awarded_at` first |
| Profile.RecentPostsAreNewest | app/api/me/route.ts:53-58 | no post of the user left out is newer than a post shown |
| Profile.Me | app/api/me/route.ts:5-79 | 400 without an id, 404 unless one user matches, otherwise that user with their rank, the flagged active quests and the recent posts |
| Leaderboard.ParamOr | app/api/leaderboard/route.ts:8-9 | an absent parameter takes its default (page 1, limit 100) |
| Leaderboard.IsCurrentUser | app/api/leaderboard/route.ts:28 | true iff there is a session and its id is the row's Twitter id; never without a session |
| Leaderboard.Route | app/api/leaderboard/route.ts:5-46 | the answer is a 500 exactly when the page starts past the last user; without `page` the board is always served as page 1 and row i has rank i + 1; without `limit` a served board has limit 100 and at most 100 rows; with neither, min(100, total) rows and ⌈total/100⌉ pages |
| Leaderboard.ByPoints | app/api/leaderboard/route.ts:19 | a permutation of the users with points non-increasing |
| Leaderboard.Offset | app/api/leaderboard/route.ts:10 | offset = (page − 1)·limit, never negative |
| Leaderboard.Rows | app/api/leaderboard/route.ts:20-29 | the range returns min(limit, remaining) rows, row i holding the user at position offset + i with rank offset + i + 1 |
| Leaderboard.CeilDiv | app/api/leaderboard/route.ts:37 | totalPages·limit ≥ total, (totalPages − 1)·limit < total when total > 0, and no users give no pages |
| Leaderboard.Page | app/api/leaderboard/route.ts:16-39 | the served board: at most `limit` rows; rank offset + i + 1 on row i, holding the user at that position of the points order; `isCurrentUser` iff the session id is the row's Twitter id; the pagination is page, limit, total and ⌈total/limit⌉ |
| Leaderboard.PageRankBounds | app/api/leaderboard/route.ts:10-27 | ranks on page p lie in ((p−1)·limit, p·limit], and page 1 starts at rank 1 |
| Leaderboard.PagesPartitionRanks | app/api/leaderboard/route.ts:10-27 | every rank on an earlier page is below every rank on a later one, so the pages are disjoint |
| Leaderboard.ConsecutivePagesContiguous | app/api/leaderboard/route.ts:10-27 | a page followed by a non-empty page is full, and the next page starts at the following rank |
| Leaderboard.EveryUserOnItsPage | app/api/leaderboard/route.ts:10-37 | position k is row k mod limit of page ⌊k/limit⌋ + 1, with rank k + 1, and that page is within the page count |
| Leaderboard.RankNotBetterThanProfileRank | app/api/leaderboard/route.ts:25-27 | a row's leaderboard rank is never better than its profile rank; ties get distinct leaderboard ranks |
| Leaderboard.PageOrderedByPoints | app/api/leaderboard/route.ts:19-27 | down a page points never increase |
| UserCard.BonusPoints | components/features/user-card.tsx:41-49 | reply 25, repost 50, quote 120, viral 500, in both directions, and 0 for anything else |
| UserCard.BonusTabMatchesClaims | components/features/user-card.tsx:331-347 | each amount printed in the Bonus tab is what a claim of that kind pays, and the tab lists every paying kind once |
| UserCard.AddPoints | hooks/use-user-data.ts:21-38 | points are shown, and changed, only once user data is loaded |
| UserCard.AddPointsSum | hooks/use-user-data.ts:21-38 | a run of local updates shows the same total as one update by their sum |
| UserCard.TweetCard.constructor | components/features/user-card.tsx:30-31 | a new card is unclaimed and has made no claim |
| UserCard.TweetCard.HandleClaim | components/features/user-card.tsx:33-39 | the first click claims this post's bonus, later clicks do nothing; exactly one claim is ever made |
| UserCard.QuestPanel.HandleQuestClick | components/features/user-card.tsx:141-157 | a completed quest, no user or a DRIP quest changes nothing; otherwise the quest's page opens if it has one, the quest is marked completing and one request for the signed-in user is scheduled, holding the points shown at the click |
| UserCard.QuestPanel.FireCompletion | components/features/user-card.tsx:159-185 | the request goes out; an ok reply sets the display to the points shown at the click plus the reported points, overwriting points added since; any other outcome leaves the display; completing is cleared whatever the outcome; no DRIP quest is ever sent |
| UserCard.QuestPanel.HandleClaimBonus | components/features/user-card.tsx:193-197 | a claimed bonus adds exactly its points to the display |
| MockAuth.Find | lib/mock-auth.ts:43 | a user is found iff one has the id, and it is that user |
| MockAuth.FixedUsersAreDistinct | lib/mock-auth.ts:12-27 | the two fixed users have distinct ids, so finding a fixed user's id returns it |
| MockAuth.MockAuth.constructor | lib/mock-auth.ts:29-30 | nobody is signed in at first |
| MockAuth.MockAuth.GetCurrentUser | lib/mock-auth.ts:32-40 | no window: null; otherwise a stored user becomes current, and the current user is returned |
| MockAuth.MockAuth.Login | lib/mock-auth.ts:42-50 | a fixed id signs that user in and stores it; any other id returns null and changes nothing |
| MockAuth.MockAuth.Logout | lib/mock-auth.ts:52-55 | nobody is signed in and the stored entry is removed |
| MockAuth.MockAuth.GetAvailableUsers | lib/mock-auth.ts:57-59 | the fixed two-user list, with distinct ids |
| MockAuth.MockAuth.IsAuthenticated | lib/mock-auth.ts:61-63 | true iff reading the current user finds one |
| MockAuth.LoginThenRead | lib/mock-auth.ts:35-46 | after signing in with a fixed id, reading gives that user, as stored, and the store reports a signed-in user |
| MockAuth.LogoutThenRead | lib/mock-auth.ts:52-63 | after signing out nobody is authenticated |

## Left out

- Presence.PresenceRoom.CursorMoved: models only the body of the throttled callback. The throttling and coalescing of `lodash` `throttle`, and the cancelling of a pending trailing call at cleanup, are a foreign library's timing and are not modelled.
- InputCapture.KeyDown: lengths are counted in Unicode scalar values, not UTF-16 code units. A key outside the Basic Multilingual Plane, such as an emoji, has `key.length` 2 in JavaScript, so the component ignores it while the model appends it; the 50-character cap and Backspace, which removes one code unit, differ in the same way for such text.
- Presence.PresenceRoom.Valid: does not keep the local id out of the online-users map, because an identity change keeps the old map until the next sync; `Presence.SelfNeverOnline` states the exclusion for one identity.
- The realtime service (channel creation, `presenceState`, delivery, acknowledgements) is an abstract channel. Statuses and send replies are inputs. A rejected `track` is not returned: `trackPresence` and the cursor callback catch and log it, and the subscribe callback awaits it without a catch but does nothing after it, so in no case does it change hook state.
- Timers and intervals (retry, heartbeat, 3 s expiry, 1 s release, the 2 s quest delay) are fire-methods. Any pending timer may fire at any time, and their real scheduling is not modelled.
- Mouse and keyboard events are method calls. The mouse listener's registration is the presence flag `heartbeatActive`, which is set and cleared with the heartbeat; the keyboard listener's registration is not modelled.
- Clock readings and generated ids (`new Date().toISOString()`, `crypto.randomUUID()`) are parameters.
- The start-up probe query is I/O. Only its result is modelled: the input of `Realtime.RealtimeProvider.ProbeSettles`.
- Async interleaving is not modelled: in-flight `track`/`send` calls racing each other, and the check-then-insert race of the quest route between concurrent requests. The model is sequential.
- React re-renders and batched state updates are not modelled. Effect re-runs are modelled for a change of identity (`Presence.PresenceRoom.ChangeIdentity`, `Chat.ChatRoom.ChangeIdentity`, driven by `Realtime.RealtimeProvider.ProbeSettles`). A change of `roomId`, `maxMessages` or `throttleMs` is not, because the provider passes constants. The provider's `user` is fixed for an instance: a sign-in change, and the unmounting of the cursor components when the user becomes null, are not modelled.
- Realtime.RealtimeProvider.OnKeyDown: delivers every callback with the same clock, message id and send reply. It does not state the chat buffer after a send, which `Chat.ChatRoom.SendMessage` states on its own.
- Realtime.RealtimeProvider.DrawnOthers: states self-exclusion only. Which other users appear is `FloatingCursors.DrawnCursors`.
- Realtime.RealtimeProvider.OwnBubbleText: states only that typing text wins. The full rule is `FloatingCursors.OwnBubble`.
- Hover state, animation, layout and all JSX rendering are not modelled.
- Database errors other than those in `QuestCompletion.Faults` are not modelled. Reads do not fail, so the `throw` paths of `/api/me` and `/api/leaderboard` that answer 500 are not modelled. The one exception is the leaderboard range that starts past the last row: the database refuses it, and `Leaderboard.Route` answers 500.
- QuestCompletion.CompleteQuest: the success `message` text of the answer is not modelled.
- The quest route does not check that a quest is active; neither does the model.
- Leaderboard.Route: requires the page and limit it uses to be ≥ 1, and so does Leaderboard.Page. `parseInt` of a non-numeric or non-positive parameter (NaN, zero or a negative range) is not modelled.
- Leaderboard.Page: ties are ordered by the model's own stable sort. The database's order among equal points is unspecified.
- Profile.RecentPosts: ties in `awarded_at` are ordered by the same sort. Timestamps are integers, not ISO strings.
- Leaderboard.Page: `session` is the signed-in id, if any. Session lookup is not modelled.
- JSON bodies whose fields are not strings are not modelled: `questId`/`twitterId` are absent or strings.
- Keys such as `constructor` that JavaScript would find on the prototype of `questActions` are not modelled.
- Toasts, the `mutate()` refetch after a completion, `handleUserSwitch`, `getBonusIcon`/`getBonusText` and the loading views of the user card are UI and are not modelled.
- The 1 s revalidation inside `updatePoints` is a network refetch and is not modelled.
- Browser storage is a map from key to user. Its JSON encoding is assumed to round-trip, and a present key counts as a stored user.
- Outside a browser, `login` and `logout` are modelled as throwing from the storage call after the field update.

## Findings

| source | as written | input that shows it | evidently intended | confidence | as-written member | corrected member |
|---|---|---|---|---|---|---|
| hooks/usePresence.ts:57-77 | the throttled cursor callback is built once inside `useRef`, so it keeps the identity of the first render; the provider first renders while the probe is pending, with an empty user id | the provider mounts in `testing`, the probe succeeds for a signed-in user, and the mouse moves: the position is stored but never tracked, so peers see it only with the next 1 s heartbeat or typing publish | every mouse move publishes the cursor under the current identity | not executed | Realtime.RealtimeProvider.OnMouseMove | Realtime.RealtimeProvider.OnMouseMoveCorrected |
| components/features/floating-cursors.tsx:82-84 | the processed key is released 1 s after the bubble expires, while the message can still be in the last-five window, and the window is reprocessed on every new message | "A" says "hi"; after 3 s its bubble goes and after 1 s more its key is released; "B" then writes, the window becomes [hi, yo], and "hi" is shown again | a message is shown once; a key is remembered as long as its message can still be passed in | not executed | Realtime.ExpiredBubbleReappears | FloatingCursors.ReceiveWindowCorrected |

The corrected effect remembers exactly the keys of the current window (`FloatingCursors.ReceiveWindowCorrected`), and its expiry schedules no release (`FloatingCursors.ExpireCorrected`). With these rules a new window shows only the bubble of the message that just arrived (`Realtime.CorrectedShowsOnlyNewMessage`), and no expiry forgets a key still in the window (`Realtime.CorrectedKeepsWindowKeys`). `FloatingCursors.MessageBubbles` itself models the component as written.

The corrected cursor callback (`Presence.PresenceRoom.CursorMovedCorrected`) publishes through `trackPresence`, which reads the current identity; `Presence.PresenceRoom.CursorMoved` keeps the callback as written.
