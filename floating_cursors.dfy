/** The transient message bubbles of `components/features/floating-cursors.tsx`: the effect
    that turns the recent-message window into at most one visible bubble per sender, the 3 s
    expiry timers that remove a bubble only if it is still the one they were set for, the 1 s
    timers that then forget a message's key, and the rules for which cursors are drawn.
    Pending timers are an explicit collection; any pending timer may fire next. */
module FloatingCursors {
  import opened Common
  import Presence

  /** One entry of the recent-message window the provider passes in. */
  datatype RecentMessage = RecentMessage(userId: string, message: string, timestamp: string)

  /** The processed-set key: the sender id and the timestamp joined by a dash. */
  type MessageKey = string

  function KeyOf(m: RecentMessage): (k: MessageKey)
    ensures |k| == |m.userId| + 1 + |m.timestamp|
    ensures k[..|m.userId|] == m.userId && k[|m.userId|] == '-' && k[|m.userId| + 1..] == m.timestamp
  {
    m.userId + "-" + m.timestamp
  }

  /** The key does not tell sender and timestamp apart when either contains a dash: two
      different senders' messages can share a key, and the later one is skipped while the
      earlier one's key is remembered. */
  lemma KeysCanCollide()
    ensures RecentMessage("a-b", "x", "c").userId != RecentMessage("a", "y", "b-c").userId
    ensures KeyOf(RecentMessage("a-b", "x", "c")) == KeyOf(RecentMessage("a", "y", "b-c"))
  {
    assert KeyOf(RecentMessage("a-b", "x", "c")) == "a-b-c";
    assert KeyOf(RecentMessage("a", "y", "b-c")) == "a-b-c";
  }

  /** A visible message of one sender. */
  datatype Bubble = Bubble(message: string, timestamp: string)

  /** A pending timer: the 3 s expiry set for a message, or the 1 s release of a key. */
  datatype Timer = Expiry(msg: RecentMessage) | Release(key: MessageKey)

  function TimerKey(t: Timer): MessageKey {
    match t
    case Expiry(m) => KeyOf(m)
    case Release(k) => k
  }

  /** The processed set, the visible map and the pending timers. */
  datatype Scheduler = Scheduler(processed: set<MessageKey>, visible: map<string, Bubble>, timers: seq<Timer>)

  const Initial := Scheduler({}, map[], [])

  /** How many pending timers carry key `k`. */
  function Count(timers: seq<Timer>, k: MessageKey): nat {
    if timers == [] then 0 else (if TimerKey(timers[0]) == k then 1 else 0) + Count(timers[1..], k)
  }

  lemma {:induction false} CountAppend(a: seq<Timer>, b: seq<Timer>, k: MessageKey)
    ensures Count(a + b, k) == Count(a, k) + Count(b, k)
  {
    if a == [] {
      assert a + b == b;
    } else {
      assert (a + b)[1..] == a[1..] + b;
      CountAppend(a[1..], b, k);
    }
  }

  /** The pending timers once timer `i` has fired. */
  function RemoveAt(timers: seq<Timer>, i: nat): seq<Timer>
    requires i < |timers|
  {
    timers[..i] + timers[i + 1..]
  }

  lemma CountRemoveAt(timers: seq<Timer>, i: nat, k: MessageKey)
    requires i < |timers|
    ensures Count(RemoveAt(timers, i), k) + (if TimerKey(timers[i]) == k then 1 else 0) == Count(timers, k)
  {
    assert timers == timers[..i] + ([timers[i]] + timers[i + 1..]);
    CountAppend(timers[..i], [timers[i]] + timers[i + 1..], k);
    CountAppend([timers[i]], timers[i + 1..], k);
    CountAppend(timers[..i], timers[i + 1..], k);
  }

  /** Every processed key is owned by exactly one pending timer (its expiry, later its release),
      and no pending timer carries a key that is not processed. */
  ghost predicate Consistent(s: Scheduler) {
    forall k :: Count(s.timers, k) == if k in s.processed then 1 else 0
  }

  /** One iteration of the effect's `forEach`: a message whose key is already processed
      changes nothing; a new one marks its key, becomes its sender's only bubble and sets its
      expiry timer. */
  function Receive(s: Scheduler, m: RecentMessage): (r: Scheduler)
    ensures KeyOf(m) in s.processed ==> r == s
    ensures KeyOf(m) !in s.processed ==>
      && r.processed == s.processed + {KeyOf(m)}
      && m.userId in r.visible && r.visible[m.userId] == Bubble(m.message, m.timestamp)
      && r.timers == s.timers + [Expiry(m)]
    ensures forall u :: u != m.userId ==> (u in r.visible <==> u in s.visible)
    ensures forall u :: u != m.userId && u in r.visible ==> r.visible[u] == s.visible[u]
  {
    if KeyOf(m) in s.processed then s
    else Scheduler(s.processed + {KeyOf(m)}, s.visible[m.userId := Bubble(m.message, m.timestamp)],
                   s.timers + [Expiry(m)])
  }

  /** The whole effect: every message of the window, in order. */
  function ReceiveAll(s: Scheduler, window: seq<RecentMessage>): Scheduler
    decreases |window|
  {
    if window == [] then s else Receive(ReceiveAll(s, window[..|window| - 1]), window[|window| - 1])
  }

  /** Expiry timer `i` fires: the sender's bubble goes only if it still carries the message's
      timestamp, no other sender's bubble changes, and the release of the key is scheduled. */
  function Expire(s: Scheduler, i: nat): (r: Scheduler)
    requires i < |s.timers| && s.timers[i].Expiry?
    ensures var m := s.timers[i].msg;
      && r.processed == s.processed
      && r.timers == RemoveAt(s.timers, i) + [Release(KeyOf(m))]
      && (m.userId in s.visible && s.visible[m.userId].timestamp == m.timestamp ==>
            r.visible == s.visible - {m.userId})
      && (!(m.userId in s.visible && s.visible[m.userId].timestamp == m.timestamp) ==>
            r.visible == s.visible)
      && (forall u :: u != m.userId ==> (u in r.visible <==> u in s.visible))
      && (forall u :: u != m.userId && u in r.visible ==> r.visible[u] == s.visible[u])
  {
    var m := s.timers[i].msg;
    var visible := if m.userId in s.visible && s.visible[m.userId].timestamp == m.timestamp
                   then s.visible - {m.userId} else s.visible;
    Scheduler(s.processed, visible, RemoveAt(s.timers, i) + [Release(KeyOf(m))])
  }

  /** Release timer `i` fires: its key, and only its key, leaves the processed set. */
  function ReleaseKey(s: Scheduler, i: nat): (r: Scheduler)
    requires i < |s.timers| && s.timers[i].Release?
    ensures r.processed == s.processed - {s.timers[i].key}
    ensures r.visible == s.visible && r.timers == RemoveAt(s.timers, i)
  {
    Scheduler(s.processed - {s.timers[i].key}, s.visible, RemoveAt(s.timers, i))
  }

  lemma ReceivePreserves(s: Scheduler, m: RecentMessage)
    requires Consistent(s)
    ensures Consistent(Receive(s, m))
  {
    if KeyOf(m) !in s.processed {
      forall k ensures Count(s.timers + [Expiry(m)], k) == if k in s.processed + {KeyOf(m)} then 1 else 0 {
        CountAppend(s.timers, [Expiry(m)], k);
        assert [Expiry(m)][1..] == [];
      }
    }
  }

  lemma {:induction false} ReceiveAllPreserves(s: Scheduler, window: seq<RecentMessage>)
    requires Consistent(s)
    ensures Consistent(ReceiveAll(s, window))
    decreases |window|
  {
    if window != [] {
      ReceiveAllPreserves(s, window[..|window| - 1]);
      ReceivePreserves(ReceiveAll(s, window[..|window| - 1]), window[|window| - 1]);
    }
  }

  lemma ExpirePreserves(s: Scheduler, i: nat)
    requires Consistent(s) && i < |s.timers| && s.timers[i].Expiry?
    ensures Consistent(Expire(s, i))
  {
    var key := KeyOf(s.timers[i].msg);
    forall k ensures Count(RemoveAt(s.timers, i) + [Release(key)], k) == if k in s.processed then 1 else 0 {
      CountRemoveAt(s.timers, i, k);
      CountAppend(RemoveAt(s.timers, i), [Release(key)], k);
      assert [Release(key)][1..] == [];
    }
  }

  lemma ReleasePreserves(s: Scheduler, i: nat)
    requires Consistent(s) && i < |s.timers| && s.timers[i].Release?
    ensures Consistent(ReleaseKey(s, i))
  {
    forall k ensures Count(RemoveAt(s.timers, i), k) == if k in s.processed - {s.timers[i].key} then 1 else 0 {
      CountRemoveAt(s.timers, i, k);
    }
  }

  /** A message's key is forgotten only through the release its own expiry scheduled: while the
      key is processed exactly one timer carries it, so the release that removes it is that
      message's, and no expiry or receipt ever removes a key. */
  lemma KeyReleasedOnlyByItsOwnTimer(s: Scheduler, i: nat, k: MessageKey)
    requires Consistent(s) && k in s.processed && i < |s.timers| && TimerKey(s.timers[i]) == k
    ensures forall j :: 0 <= j < |s.timers| && j != i ==> TimerKey(s.timers[j]) != k
  {
    forall j | 0 <= j < |s.timers| && j != i
      ensures TimerKey(s.timers[j]) != k
    {
      if TimerKey(s.timers[j]) == k {
        var lo, hi := if i < j then i else j, if i < j then j else i;
        assert RemoveAt(s.timers, hi)[lo] == s.timers[lo];
        CountRemoveAt(s.timers, hi, k);
        CountRemoveAt(RemoveAt(s.timers, hi), lo, k);
      }
    }
  }

  /** The keys of the messages in a window. */
  function WindowKeys(window: seq<RecentMessage>): set<MessageKey> {
    set m | m in window :: KeyOf(m)
  }

  /** The effect forgets no key and leaves every key of its window processed. */
  lemma {:induction false} ReceiveAllMarksWindow(s: Scheduler, window: seq<RecentMessage>)
    ensures s.processed <= ReceiveAll(s, window).processed
    ensures WindowKeys(window) <= ReceiveAll(s, window).processed
    decreases |window|
  {
    if window != [] {
      var init := window[..|window| - 1];
      ReceiveAllMarksWindow(s, init);
      assert forall m :: m in window ==> m in init || m == window[|window| - 1];
    }
  }

  /** A window whose every key is still processed changes nothing: no bubble reappears. */
  lemma {:induction false} ReceiveAllSeen(s: Scheduler, window: seq<RecentMessage>)
    requires WindowKeys(window) <= s.processed
    ensures ReceiveAll(s, window) == s
    decreases |window|
  {
    if window != [] {
      var init := window[..|window| - 1];
      assert forall m :: m in init ==> m in window;
      ReceiveAllSeen(s, init);
      assert KeyOf(window[|window| - 1]) in WindowKeys(window);
    }
  }

  /** The corrected effect: the window is processed as before, and afterwards exactly the keys
      still in the window are remembered, so the set stays as small as the window and no key
      is forgotten while its message can still be passed in again. */
  function ReceiveWindowCorrected(s: Scheduler, window: seq<RecentMessage>): (r: Scheduler)
    ensures r.processed == WindowKeys(window)
    ensures r.visible == ReceiveAll(s, window).visible && r.timers == ReceiveAll(s, window).timers
  {
    ReceiveAll(s, window).(processed := WindowKeys(window))
  }

  /** The corrected expiry: the same bubble removal, and no release of the key is scheduled. */
  function ExpireCorrected(s: Scheduler, i: nat): (r: Scheduler)
    requires i < |s.timers| && s.timers[i].Expiry?
    ensures r.processed == s.processed && r.timers == RemoveAt(s.timers, i)
    ensures r.visible == Expire(s, i).visible
  {
    Expire(s, i).(timers := RemoveAt(s.timers, i))
  }

  // ---------------------------------------------------------------------------------------
  // The component's state and its effect loop

  class MessageBubbles {
    /** `processedMessagesRef.current`. */
    var processed: set<MessageKey>
    /** The `visibleMessages` state, keyed by sender. */
    var visible: map<string, Bubble>
    /** The timers the component has set and that have not fired yet. */
    var timers: seq<Timer>

    function State(): Scheduler
      reads this
    {
      Scheduler(processed, visible, timers)
    }

    ghost predicate Valid()
      reads this
    {
      Consistent(State())
    }

    constructor ()
      ensures Valid() && State() == Initial
    {
      processed, visible, timers := {}, map[], [];
    }

    /** The new-messages effect: `recentMessages.forEach(...)`. */
    method OnRecentMessages(recent: seq<RecentMessage>)
      requires Valid()
      modifies this
      ensures Valid()
      ensures State() == ReceiveAll(old(State()), recent)
    {
      var i := 0;
      while i < |recent|
        invariant 0 <= i <= |recent|
        invariant State() == ReceiveAll(old(State()), recent[..i])
        invariant Valid()
      {
        var msg := recent[i];
        assert recent[..i + 1][..i] == recent[..i];
        ReceivePreserves(State(), msg);
        var key := KeyOf(msg);
        if key !in processed {
          processed := processed + {key};
          visible := visible[msg.userId := Bubble(msg.message, msg.timestamp)];
          timers := timers + [Expiry(msg)];
        }
        i := i + 1;
      }
      assert recent[..|recent|] == recent;
    }

    /** The pending expiry timer `i` fires. */
    method FireExpiry(i: nat)
      requires Valid() && i < |timers| && timers[i].Expiry?
      modifies this
      ensures Valid()
      ensures State() == Expire(old(State()), i)
    {
      ExpirePreserves(State(), i);
      var msg := timers[i].msg;
      if msg.userId in visible && visible[msg.userId].timestamp == msg.timestamp {
        visible := visible - {msg.userId};
      }
      timers := RemoveAt(timers, i) + [Release(KeyOf(msg))];
    }

    /** The pending release timer `i` fires. */
    method FireRelease(i: nat)
      requires Valid() && i < |timers| && timers[i].Release?
      modifies this
      ensures Valid()
      ensures State() == ReleaseKey(old(State()), i)
    {
      ReleasePreserves(State(), i);
      processed := processed - {timers[i].key};
      timers := RemoveAt(timers, i);
    }
  }

  // ---------------------------------------------------------------------------------------
  // What is drawn

  /** The other users whose cursors are drawn: every online user except the current one. */
  function DrawnCursors(users: map<string, Presence.UserPresence>, currentUserId: string): (r: set<string>)
    ensures currentUserId !in r
    ensures forall u :: u in r <==> u in users && u != currentUserId
  {
    users.Keys - {currentUserId}
  }

  /** `!!(user.typing || userMessage)`: a cursor is active iff it has a non-empty typing preview
      or a visible message. */
  function IsActive(user: Presence.UserPresence, userId: string, visible: map<string, Bubble>): (r: bool)
    ensures user.typing.Some? && user.typing.value != "" ==> r
    ensures userId in visible ==> r
    ensures !r ==> (user.typing == None || user.typing == Some("")) && userId !in visible
  {
    (user.typing.Some? && user.typing.value != "") || userId in visible
  }

  /** The current user's own bubble: shown iff they are typing or have a visible message, and
      it shows the typing text in preference to the message. */
  function OwnBubble(currentUserTyping: string, visible: map<string, Bubble>, currentUserId: string): (r: Option<string>)
    ensures r.Some? <==> currentUserTyping != "" || currentUserId in visible
    ensures currentUserTyping != "" ==> r == Some(currentUserTyping)
    ensures currentUserTyping == "" && currentUserId in visible ==> r == Some(visible[currentUserId].message)
  {
    if currentUserTyping != "" then Some(currentUserTyping)
    else if currentUserId in visible then Some(visible[currentUserId].message)
    else None
  }
}
