/** The presence room of one client (`hooks/usePresence.ts`): the map of other users online,
    the connection status with its bounded retry policy, and the publishing of the local user's
    full presence record. Transport events, statuses and timers are method calls; the clock is
    the `now` parameter (an ISO timestamp string). */
module Presence {
  import opened Common
  import opened Transport

  datatype Cursor = Cursor(x: int, y: int)

  /** The hook's `currentUser`: a presence record without cursor and `lastSeen`. */
  datatype Identity = Identity(userId: string, username: string, avatar: string)

  /** A presence record as it travels over the channel; `typing` is optional in it. */
  datatype UserPresence = UserPresence(
    userId: string, username: string, avatar: string,
    cursor: Cursor, typing: Option<string>, lastSeen: string)

  /** `Partial<UserPresence>`: each field either supplied or absent. */
  datatype PresenceUpdate = PresenceUpdate(
    userId: Option<string>, username: Option<string>, avatar: Option<string>,
    cursor: Option<Cursor>, typing: Option<Option<string>>, lastSeen: Option<string>)

  const NoUpdates := PresenceUpdate(None, None, None, None, None, None)

  /** The update `updateTyping(text)` passes on: `{ typing: text }`. */
  function TypingUpdate(text: string): PresenceUpdate {
    NoUpdates.(typing := Some(Some(text)))
  }

  /** `{ ...base, ...updates }`. */
  function Spread(base: UserPresence, updates: PresenceUpdate): (r: UserPresence)
    ensures updates == NoUpdates ==> r == base
    ensures r.userId == updates.userId.GetOr(base.userId)
    ensures r.username == updates.username.GetOr(base.username)
    ensures r.avatar == updates.avatar.GetOr(base.avatar)
    ensures r.cursor == updates.cursor.GetOr(base.cursor)
    ensures r.typing == updates.typing.GetOr(base.typing)
    ensures r.lastSeen == updates.lastSeen.GetOr(base.lastSeen)
  {
    UserPresence(
      updates.userId.GetOr(base.userId), updates.username.GetOr(base.username),
      updates.avatar.GetOr(base.avatar), updates.cursor.GetOr(base.cursor),
      updates.typing.GetOr(base.typing), updates.lastSeen.GetOr(base.lastSeen))
  }

  /** The full record `trackPresence(updates)` publishes: identity, the cursor and typing refs
      and a fresh `lastSeen`, with the supplied fields winning. A publish without updates (the
      heartbeat, the initial track) carries the identity, both refs and the current time; a
      typing update replaces the typing text and keeps the rest. */
  function FullRecord(me: Identity, cursor: Cursor, typing: string, now: string,
                      updates: PresenceUpdate): (r: UserPresence)
    ensures updates == NoUpdates ==>
      r == UserPresence(me.userId, me.username, me.avatar, cursor, Some(typing), now)
    ensures forall text :: updates == TypingUpdate(text) ==>
      r == UserPresence(me.userId, me.username, me.avatar, cursor, Some(text), now)
  {
    Spread(UserPresence(me.userId, me.username, me.avatar, cursor, Some(typing), now), updates)
  }

  // ---------------------------------------------------------------------------------------
  // The online-users map and the three presence events

  /** The map the `sync` handler builds from `presenceState()`: every key whose array is
      non-empty, except the local user, mapped to the array's first element. */
  function SyncView(state: map<string, seq<UserPresence>>, self: string): (r: map<string, UserPresence>)
    ensures self !in r
    ensures forall k :: k in r <==> k in state && |state[k]| > 0 && k != self
    ensures forall k :: k in r ==> r[k] == state[k][0]
  {
    map k | k in state && |state[k]| > 0 && k != self :: state[k][0]
  }

  /** The `sync` handler's loop over `Object.entries(state)`, filling a fresh dictionary. */
  method BuildSyncView(state: map<string, seq<UserPresence>>, self: string)
    returns (users: map<string, UserPresence>)
    ensures forall k :: k in users <==> k in state && |state[k]| > 0 && k != self
    ensures forall k :: k in users ==> users[k] == state[k][0]
    ensures users == SyncView(state, self)
  {
    users := map[];
    var pending := state.Keys;
    while pending != {}
      invariant pending <= state.Keys
      invariant forall k :: k in users <==> k in state && k !in pending && |state[k]| > 0 && k != self
      invariant forall k :: k in users ==> users[k] == state[k][0]
      decreases pending
    {
      var key :| key in pending;
      if |state[key]| > 0 && key != self {
        users := users[key := state[key][0]];
      }
      pending := pending - {key};
    }
  }

  /** The `join` handler's update: a remote key with at least one presence enters (or
      replaces its entry in) the map with the first presence; anything else leaves it alone. */
  function Joined(users: map<string, UserPresence>, key: string, newPresences: seq<UserPresence>,
                  self: string): (r: map<string, UserPresence>)
    ensures key != self && |newPresences| > 0 ==> key in r && r[key] == newPresences[0]
    ensures !(key != self && |newPresences| > 0) ==> r == users
    ensures forall k :: k != key ==> (k in r <==> k in users)
    ensures forall k :: k != key && k in r ==> r[k] == users[k]
  {
    if key != self && |newPresences| > 0 then users[key := newPresences[0]] else users
  }

  /** The `leave` handler's update: exactly `key` goes, everything else stays. */
  function Left(users: map<string, UserPresence>, key: string): (r: map<string, UserPresence>)
    ensures r.Keys == users.Keys - {key}
    ensures forall k :: k in r ==> r[k] == users[k]
    ensures key !in users ==> r == users
  {
    users - {key}
  }

  datatype PresenceEvent =
    | SyncEvent(state: map<string, seq<UserPresence>>)
    | JoinEvent(key: string, newPresences: seq<UserPresence>)
    | LeaveEvent(key: string)

  function ApplyEvent(users: map<string, UserPresence>, e: PresenceEvent, self: string): map<string, UserPresence> {
    match e
    case SyncEvent(state) => SyncView(state, self)
    case JoinEvent(key, newPresences) => Joined(users, key, newPresences, self)
    case LeaveEvent(key) => Left(users, key)
  }

  /** The map after handling `events` in order. */
  function ApplyEvents(users: map<string, UserPresence>, events: seq<PresenceEvent>, self: string): map<string, UserPresence>
    decreases |events|
  {
    if events == [] then users else ApplyEvents(ApplyEvent(users, events[0], self), events[1..], self)
  }

  /** The local user never appears among the online users, whatever events arrive. */
  lemma {:induction false} SelfNeverOnline(users: map<string, UserPresence>, events: seq<PresenceEvent>, self: string)
    requires self !in users
    ensures self !in ApplyEvents(users, events, self)
    decreases |events|
  {
    if events != [] {
      SelfNeverOnline(ApplyEvent(users, events[0], self), events[1..], self);
    }
  }

  /** A `sync` snapshot is authoritative: after it the map is the snapshot's view, whatever
      `join`/`leave`/`sync` history preceded it. */
  lemma {:induction false} LastSyncWins(users: map<string, UserPresence>, events: seq<PresenceEvent>,
                                        state: map<string, seq<UserPresence>>, self: string)
    ensures ApplyEvents(users, events + [SyncEvent(state)], self) == SyncView(state, self)
    decreases |events|
  {
    if events == [] {
      assert events + [SyncEvent(state)] == [SyncEvent(state)];
    } else {
      assert (events + [SyncEvent(state)])[1..] == events[1..] + [SyncEvent(state)];
      LastSyncWins(ApplyEvent(users, events[0], self), events[1..], state, self);
    }
  }

  // ---------------------------------------------------------------------------------------
  // Retry policy

  const MaxRetries: nat := 3
  const RetryBaseDelayMs: nat := 1000

  /** The retry counter and the delay of the pending retry timer, if one is pending. */
  datatype RetryState = RetryState(count: nat, timer: Option<nat>)

  /** `retryConnection()`: below the cap, count the attempt and (re)schedule the timer with a
      delay of 1000 ms times the new count; at the cap, do nothing. */
  function RetryOnFailure(s: RetryState): (r: RetryState)
    ensures s.count < MaxRetries ==> r.count == s.count + 1 && r.timer == Some(RetryBaseDelayMs * r.count)
    ensures s.count >= MaxRetries ==> r == s
    ensures s.count <= MaxRetries ==> r.count <= MaxRetries
  {
    if s.count < MaxRetries then RetryState(s.count + 1, Some(RetryBaseDelayMs * (s.count + 1))) else s
  }

  /** The delays scheduled by `n` consecutive failures starting from `s`. */
  function FailureDelays(s: RetryState, n: nat): seq<nat>
    decreases n
  {
    if n == 0 then []
    else
      var s' := RetryOnFailure(s);
      (if s'.count != s.count then [s'.timer.value] else []) + FailureDelays(s', n - 1)
  }

  lemma {:induction false} FailureDelaysFrom(c: nat, t: Option<nat>, n: nat)
    requires c <= MaxRetries
    ensures FailureDelays(RetryState(c, t), n)
         == seq(Min(n, MaxRetries - c), i => RetryBaseDelayMs * (c + 1 + i))
    decreases n
  {
    if n > 0 {
      if c < MaxRetries {
        FailureDelaysFrom(c + 1, Some(RetryBaseDelayMs * (c + 1)), n - 1);
      } else {
        FailureDelaysFrom(c, t, n - 1);
      }
    }
  }

  /** From a reset counter, consecutive failures schedule retries after 1000, 2000 and 3000 ms
      and then nothing more: a fourth failure schedules no timer. */
  lemma ConsecutiveFailures(t: Option<nat>, n: nat)
    ensures FailureDelays(RetryState(0, t), n) == [1000, 2000, 3000][..Min(n, 3)]
  {
    FailureDelaysFrom(0, t, n);
  }

  // ---------------------------------------------------------------------------------------
  // The hook instance

  class PresenceRoom {
    /** The identity of the first render. The throttled cursor callback is created once, in a
        `useRef`, and keeps reading this identity for the life of the hook instance. */
    const cursorIdentity: Identity
    /** The identity of the current render; an empty `userId` disables presence. */
    var me: Identity
    const roomId: string

    var onlineUsers: map<string, UserPresence>
    var isConnected: bool
    /** `channelRef.current`: the channel of the running effect, nulled by its cleanup. The
        service delivers events only for a subscribed channel, so the handlers act only while
        it is held. */
    var channelRef: Channel?<UserPresence>
    /** `currentCursorRef` and `currentTypingRef`; refs survive re-renders and effect re-runs. */
    var cursor: Cursor
    var typing: string
    /** `retryCountRef` and the delay of the timer `retryTimeoutRef` holds, if pending. */
    var retryCount: nat
    var retryTimer: Option<nat>
    /** Whether the effect's 1 s heartbeat interval and mouse-move listener are registered. */
    var heartbeatActive: bool

    ghost predicate Valid()
      reads this
    {
      && retryCount <= MaxRetries
      && (heartbeatActive <==> channelRef != null)
      && (me.userId == "" ==> channelRef == null && onlineUsers == map[] && !isConnected)
    }

    /** Mounting the hook and running its effect: without a user id nothing is opened;
        otherwise one channel on `room:<roomId>` is created and subscribed, and the heartbeat
        and the mouse-move listener are registered. */
    constructor (me: Identity, roomId: string)
      ensures Valid()
      ensures this.me == me && cursorIdentity == me && this.roomId == roomId
      ensures onlineUsers == map[] && !isConnected && cursor == Cursor(0, 0) && typing == ""
      ensures retryCount == 0 && retryTimer == None
      ensures me.userId == "" ==> channelRef == null
      ensures me.userId != "" ==>
        && channelRef != null && fresh(channelRef)
        && channelRef.topic == "room:" + roomId && channelRef.calls == [SubscribeCall]
    {
      this.me := me;
      cursorIdentity := me;
      this.roomId := roomId;
      onlineUsers := map[];
      isConnected := false;
      cursor := Cursor(0, 0);
      typing := "";
      retryCount := 0;
      retryTimer := None;
      if me.userId == "" {
        channelRef := null;
        heartbeatActive := false;
      } else {
        var ch := new Channel<UserPresence>("room:" + roomId);
        ch.Subscribe();
        channelRef := ch;
        heartbeatActive := true;
      }
    }

    /** A render with another identity. The effect depends on every identity field, so a
        different identity runs the cleanup and then the effect again on the same instance:
        the refs (cursor, typing text, retry counter) and the online-users map survive, except
        that an identity without a user id clears the map. The same identity changes nothing. */
    method ChangeIdentity(newMe: Identity)
      requires Valid()
      modifies this, channelRef
      ensures Valid()
      ensures me == newMe
      ensures cursor == old(cursor) && typing == old(typing) && retryCount == old(retryCount)
      ensures newMe == old(me) ==>
        && channelRef == old(channelRef) && onlineUsers == old(onlineUsers) && isConnected == old(isConnected)
        && retryTimer == old(retryTimer)
      ensures newMe != old(me) && old(channelRef) != null ==>
        old(channelRef).calls == old(channelRef.calls) + [UnsubscribeCall]
      ensures newMe != old(me) ==> !isConnected && retryTimer == None
      ensures newMe != old(me) && newMe.userId == "" ==> channelRef == null && onlineUsers == map[]
      ensures newMe != old(me) && newMe.userId != "" ==>
        && channelRef != null && fresh(channelRef)
        && channelRef.topic == "room:" + roomId && channelRef.calls == [SubscribeCall]
        && onlineUsers == old(onlineUsers)
    {
      if newMe == me {
        return;
      }
      Teardown();
      me := newMe;
      if newMe.userId == "" {
        onlineUsers := map[];
      } else {
        var ch := new Channel<UserPresence>("room:" + roomId);
        ch.Subscribe();
        channelRef := ch;
        heartbeatActive := true;
      }
    }

    /** The `sync` handler. */
    method OnSync(state: map<string, seq<UserPresence>>)
      requires Valid()
      modifies this
      ensures Valid()
      ensures onlineUsers == if old(channelRef) != null then SyncView(state, me.userId) else old(onlineUsers)
      ensures isConnected == old(isConnected) && channelRef == old(channelRef) && me == old(me)
      ensures cursor == old(cursor) && typing == old(typing)
      ensures retryCount == old(retryCount) && retryTimer == old(retryTimer) && heartbeatActive == old(heartbeatActive)
    {
      if channelRef != null {
        onlineUsers := BuildSyncView(state, me.userId);
      }
    }

    /** The `join` handler. */
    method OnJoin(key: string, newPresences: seq<UserPresence>)
      requires Valid()
      modifies this
      ensures Valid()
      ensures onlineUsers == if old(channelRef) != null then Joined(old(onlineUsers), key, newPresences, me.userId) else old(onlineUsers)
      ensures isConnected == old(isConnected) && channelRef == old(channelRef) && me == old(me)
      ensures cursor == old(cursor) && typing == old(typing)
      ensures retryCount == old(retryCount) && retryTimer == old(retryTimer) && heartbeatActive == old(heartbeatActive)
    {
      if channelRef != null {
        onlineUsers := Joined(onlineUsers, key, newPresences, me.userId);
      }
    }

    /** The `leave` handler. */
    method OnLeave(key: string)
      requires Valid()
      modifies this
      ensures Valid()
      ensures onlineUsers == if old(channelRef) != null then Left(old(onlineUsers), key) else old(onlineUsers)
      ensures isConnected == old(isConnected) && channelRef == old(channelRef) && me == old(me)
      ensures cursor == old(cursor) && typing == old(typing)
      ensures retryCount == old(retryCount) && retryTimer == old(retryTimer) && heartbeatActive == old(heartbeatActive)
    {
      if channelRef != null {
        onlineUsers := Left(onlineUsers, key);
      }
    }

    /** `retryConnection()`. */
    method RetryConnection()
      requires Valid()
      modifies this
      ensures Valid()
      ensures RetryState(retryCount, retryTimer) == RetryOnFailure(old(RetryState(retryCount, retryTimer)))
      ensures onlineUsers == old(onlineUsers) && isConnected == old(isConnected)
      ensures channelRef == old(channelRef) && me == old(me)
      ensures cursor == old(cursor) && typing == old(typing) && heartbeatActive == old(heartbeatActive)
    {
      if retryCount < MaxRetries {
        retryCount := retryCount + 1;
        retryTimer := Some(RetryBaseDelayMs * retryCount);
      }
    }

    /** The subscribe callback. SUBSCRIBED connects, resets the retry counter and publishes the
        full record from the refs; CHANNEL_ERROR and TIMED_OUT disconnect and retry; CLOSED
        only disconnects. */
    method OnStatus(status: Status, now: string)
      requires Valid()
      modifies this, channelRef
      ensures Valid()
      ensures channelRef == old(channelRef) && me == old(me)
      ensures onlineUsers == old(onlineUsers) && cursor == old(cursor) && typing == old(typing)
      ensures heartbeatActive == old(heartbeatActive)
      ensures old(channelRef) == null ==>
        isConnected == old(isConnected) && retryCount == old(retryCount) && retryTimer == old(retryTimer)
      ensures old(channelRef) != null && status == Subscribed ==>
        && isConnected && retryCount == 0 && retryTimer == old(retryTimer)
        && channelRef.calls == old(channelRef.calls) + [TrackCall(FullRecord(me, cursor, typing, now, NoUpdates))]
      ensures old(channelRef) != null && (status == ChannelError || status == TimedOut) ==>
        && !isConnected
        && RetryState(retryCount, retryTimer) == RetryOnFailure(old(RetryState(retryCount, retryTimer)))
      ensures old(channelRef) != null && status == Closed ==>
        !isConnected && retryCount == old(retryCount) && retryTimer == old(retryTimer)
      ensures old(channelRef) != null && status != Subscribed ==> channelRef.calls == old(channelRef.calls)
    {
      if channelRef != null {
        match status
        case Subscribed =>
          isConnected := true;
          retryCount := 0;
          channelRef.Track(FullRecord(me, cursor, typing, now, NoUpdates));
        case ChannelError =>
          isConnected := false;
          RetryConnection();
        case Closed =>
          isConnected := false;
        case TimedOut =>
          isConnected := false;
          RetryConnection();
      }
    }

    /** The retry timer fires: it resubscribes the channel if the hook still holds one. */
    method FireRetryTimer()
      requires Valid()
      modifies this, channelRef
      ensures Valid()
      ensures channelRef == old(channelRef) && me == old(me) && retryCount == old(retryCount)
      ensures retryTimer == None
      ensures old(retryTimer).Some? && old(channelRef) != null ==>
        channelRef.calls == old(channelRef.calls) + [SubscribeCall]
      ensures old(retryTimer) == None && old(channelRef) != null ==> channelRef.calls == old(channelRef.calls)
      ensures onlineUsers == old(onlineUsers) && isConnected == old(isConnected)
      ensures cursor == old(cursor) && typing == old(typing) && heartbeatActive == old(heartbeatActive)
    {
      if retryTimer.Some? {
        retryTimer := None;
        if channelRef != null {
          channelRef.Subscribe();
        }
      }
    }

    /** `trackPresence(updates)`: nothing without a channel or a user id; otherwise one `track`
        of the full record. */
    method TrackPresence(updates: PresenceUpdate, now: string)
      requires Valid()
      modifies channelRef
      ensures old(channelRef) != null && me.userId != "" ==>
        channelRef.calls == old(channelRef.calls) + [TrackCall(FullRecord(me, cursor, typing, now, updates))]
    {
      if channelRef != null && me.userId != "" {
        channelRef.Track(FullRecord(me, cursor, typing, now, updates));
      }
    }

    /** `updateTyping(text)`: store the text in the typing ref, then publish it. */
    method UpdateTyping(text: string, now: string)
      requires Valid()
      modifies this, channelRef
      ensures Valid()
      ensures channelRef == old(channelRef) && me == old(me) && cursor == old(cursor)
      ensures typing == text
      ensures old(channelRef) != null && me.userId != "" ==>
        channelRef.calls == old(channelRef.calls) + [TrackCall(FullRecord(me, cursor, text, now, NoUpdates))]
      ensures onlineUsers == old(onlineUsers) && isConnected == old(isConnected)
      ensures retryCount == old(retryCount) && retryTimer == old(retryTimer) && heartbeatActive == old(heartbeatActive)
    {
      typing := text;
      TrackPresence(TypingUpdate(text), now);
    }

    /** The body of the throttled cursor callback, as written: store the position, then publish
        the full record with the current typing text, under the identity of the first render.
        When that identity had no user id, the callback never publishes. */
    method CursorMoved(x: int, y: int, now: string)
      requires Valid()
      modifies this, channelRef
      ensures Valid()
      ensures channelRef == old(channelRef) && me == old(me) && typing == old(typing)
      ensures cursor == Cursor(x, y)
      ensures old(channelRef) != null && cursorIdentity.userId != "" ==>
        channelRef.calls == old(channelRef.calls)
          + [TrackCall(FullRecord(cursorIdentity, Cursor(x, y), typing, now, NoUpdates))]
      ensures old(channelRef) != null && cursorIdentity.userId == "" ==> channelRef.calls == old(channelRef.calls)
      ensures onlineUsers == old(onlineUsers) && isConnected == old(isConnected)
      ensures retryCount == old(retryCount) && retryTimer == old(retryTimer) && heartbeatActive == old(heartbeatActive)
    {
      cursor := Cursor(x, y);
      if channelRef != null && cursorIdentity.userId != "" {
        channelRef.Track(FullRecord(cursorIdentity, cursor, typing, now, NoUpdates));
      }
    }

    /** The cursor callback as evidently intended: it reads the current identity, like
        `trackPresence` does, so a move publishes whenever a channel and a user id are held. */
    method CursorMovedCorrected(x: int, y: int, now: string)
      requires Valid()
      modifies this, channelRef
      ensures Valid()
      ensures channelRef == old(channelRef) && me == old(me) && typing == old(typing)
      ensures cursor == Cursor(x, y)
      ensures old(channelRef) != null && me.userId != "" ==>
        channelRef.calls == old(channelRef.calls) + [TrackCall(FullRecord(me, Cursor(x, y), typing, now, NoUpdates))]
      ensures onlineUsers == old(onlineUsers) && isConnected == old(isConnected)
      ensures retryCount == old(retryCount) && retryTimer == old(retryTimer) && heartbeatActive == old(heartbeatActive)
    {
      cursor := Cursor(x, y);
      TrackPresence(NoUpdates, now);
    }

    /** The 1 s heartbeat fires: a full publish without updates while a channel is held. */
    method FireHeartbeat(now: string)
      requires Valid()
      modifies channelRef
      ensures old(channelRef) != null && me.userId != "" ==>
        channelRef.calls == old(channelRef.calls) + [TrackCall(FullRecord(me, cursor, typing, now, NoUpdates))]
      ensures old(channelRef) != null && me.userId == "" ==> channelRef.calls == old(channelRef.calls)
    {
      if heartbeatActive && channelRef != null && me.userId != "" {
        TrackPresence(NoUpdates, now);
      }
    }

    /** The effect's cleanup: stop the heartbeat and the listener, cancel the retry timer,
        unsubscribe and drop the held channel, mark disconnected. A second teardown
        unsubscribes nothing. */
    method Teardown()
      requires Valid()
      modifies this, channelRef
      ensures Valid()
      ensures channelRef == null && me == old(me)
      ensures !isConnected && !heartbeatActive && retryTimer == None
      ensures old(channelRef) != null ==> old(channelRef).calls == old(channelRef.calls) + [UnsubscribeCall]
      ensures onlineUsers == old(onlineUsers) && cursor == old(cursor) && typing == old(typing)
      ensures retryCount == old(retryCount)
    {
      heartbeatActive := false;
      retryTimer := None;
      if channelRef != null {
        channelRef.Unsubscribe();
        channelRef := null;
      }
      isConnected := false;
    }
  }
}
