/** The provider that wires one signed-in client together (`components/features/realtime-provider.tsx`):
    it enables presence and chat only for a signed-in user once the backend answered, keeps the
    last five chat messages as the window the bubbles are drawn from, and routes the keyboard
    capture's callbacks to presence (typing preview) and chat (send). */
module Realtime {
  import opened Common
  import opened Transport
  import Presence
  import Chat
  import opened FloatingCursors
  import InputCapture

  /** The user the provider is given. */
  datatype AppUser = AppUser(id: string, handle: string, name: string, avatar: string, points: int, rank: int)

  /** The outcome of the start-up probe query and the status it leads to. */
  datatype ProbeResult = ProbeOk | ProbeError | ProbeThrew
  datatype BackendStatus = Testing | Connected | Failed

  const RoomId := "main"
  const RecentWindow: nat := 5

  /** The probe settles the status: connected on a clean answer, failed on an error or throw. */
  function StatusAfterProbe(result: ProbeResult): (r: BackendStatus)
    ensures r != Testing
    ensures r == Connected <==> result == ProbeOk
  {
    match result
    case ProbeOk => Connected
    case ProbeError => Failed
    case ProbeThrew => Failed
  }

  /** Whether realtime features are on: a user is given and the probe succeeded. */
  predicate Enabled(user: Option<AppUser>, status: BackendStatus) {
    user.Some? && status == Connected
  }

  /** The identity passed to the presence hook: the user's id, handle as username and avatar
      when enabled, and the all-empty identity (which disables the hook) otherwise. */
  function PresenceIdentity(user: Option<AppUser>, status: BackendStatus): (r: Presence.Identity)
    ensures Enabled(user, status) ==> r == Presence.Identity(user.value.id, user.value.handle, user.value.avatar)
    ensures !Enabled(user, status) ==> r == Presence.Identity("", "", "")
  {
    if user.Some? && status == Connected then Presence.Identity(user.value.id, user.value.handle, user.value.avatar)
    else Presence.Identity("", "", "")
  }

  /** The identity passed to the chat hook, chosen by the same rule. */
  function ChatIdentityFor(user: Option<AppUser>, status: BackendStatus): (r: Chat.ChatIdentity)
    ensures Enabled(user, status) ==> r == Chat.ChatIdentity(user.value.id, user.value.handle, user.value.avatar)
    ensures !Enabled(user, status) ==> r == Chat.ChatIdentity("", "", "")
  {
    if user.Some? && status == Connected then Chat.ChatIdentity(user.value.id, user.value.handle, user.value.avatar)
    else Chat.ChatIdentity("", "", "")
  }

  /** Presence and chat are switched on and off together, and both only for a signed-in user
      with a non-empty id after a successful probe. */
  lemma HooksEnabledTogether(user: Option<AppUser>, status: BackendStatus)
    ensures PresenceIdentity(user, status).userId == ChatIdentityFor(user, status).id
    ensures PresenceIdentity(user, status).userId != "" <==> Enabled(user, status) && user.value.id != ""
  {
  }

  /** The window entry of a chat message: its sender, text and timestamp. */
  function Project(m: Chat.ChatMessage): (r: RecentMessage)
    ensures r.userId == m.userId && r.message == m.message && r.timestamp == m.timestamp
  {
    RecentMessage(m.userId, m.message, m.timestamp)
  }

  /** The recent-messages effect: on a non-empty history the latest message is appended to the
      window and only the last five entries are kept; an empty history leaves the window as it
      is (it is never cleared). */
  function RecentAfter(prev: seq<RecentMessage>, messages: seq<Chat.ChatMessage>): (r: seq<RecentMessage>)
    ensures messages == [] ==> r == prev
    ensures messages != [] ==>
      && |r| == Min(|prev| + 1, RecentWindow)
      && r[|r| - 1] == Project(messages[|messages| - 1])
      && r == (prev + [Project(messages[|messages| - 1])])[|prev| + 1 - |r|..]
  {
    if messages == [] then prev else SliceLast(prev + [Project(messages[|messages| - 1])], RecentWindow)
  }

  class RealtimeProvider {
    const user: Option<AppUser>
    /** `supabaseStatus`: `testing` until the start-up probe settles it. */
    var status: BackendStatus
    const presence: Presence.PresenceRoom
    const chat: Chat.ChatRoom
    const bubbles: MessageBubbles
    const input: InputCapture.CursorChat

    var recentMessages: seq<RecentMessage>
    var currentUserTyping: string

    ghost predicate Valid()
      reads this, presence, chat, bubbles, input
    {
      && presence.Valid() && chat.Valid() && bubbles.Valid() && InputCapture.Valid(input.State())
      && presence.me == PresenceIdentity(user, status) && presence.roomId == RoomId
      && chat.me == ChatIdentityFor(user, status) && chat.roomId == RoomId
      && chat.maxMessages == Chat.DefaultMaxMessages
      // the hooks were first rendered while the probe was pending, so the cursor callback the
      // presence hook keeps holds the empty identity
      && presence.cursorIdentity == Presence.Identity("", "", "")
      && |recentMessages| <= RecentWindow
      // the own bubble and the published typing text always show the text being composed
      && currentUserTyping == input.currentMessage && presence.typing == input.currentMessage
    }

    /** Mounting the provider: the status is `testing`, so both hooks are first rendered with
        the empty identity and open nothing; the window is empty and nothing is typed. */
    constructor (user: Option<AppUser>)
      ensures Valid()
      ensures this.user == user && status == Testing
      ensures recentMessages == [] && currentUserTyping == ""
      ensures presence.channelRef == null && chat.channelRef == null
      ensures bubbles.State() == Initial && input.State() == InputCapture.Idle
    {
      this.user := user;
      status := Testing;
      presence := new Presence.PresenceRoom(PresenceIdentity(user, Testing), RoomId);
      chat := new Chat.ChatRoom(ChatIdentityFor(user, Testing), RoomId, Chat.DefaultMaxMessages);
      bubbles := new MessageBubbles();
      input := new InputCapture.CursorChat();
      recentMessages := [];
      currentUserTyping := "";
    }

    /** The probe settles and the provider re-renders: both hooks get the identity the new
        status selects. From `testing`, a successful probe for a signed-in user opens one
        presence and one chat channel; a failed probe, or no user, leaves both closed. */
    method ProbeSettles(result: ProbeResult)
      requires Valid()
      modifies this, presence, presence.channelRef, chat, chat.channelRef
      ensures Valid()
      ensures status == StatusAfterProbe(result)
      ensures recentMessages == old(recentMessages) && currentUserTyping == old(currentUserTyping)
      ensures !Enabled(user, status) || user.value.id == "" ==>
        presence.channelRef == null && chat.channelRef == null
      ensures old(status) == Testing && Enabled(user, status) && user.value.id != "" ==>
        && presence.channelRef != null && fresh(presence.channelRef)
        && presence.channelRef.calls == [SubscribeCall]
        && chat.channelRef != null && fresh(chat.channelRef) && chat.channelRef.calls == [SubscribeCall]
    {
      status := StatusAfterProbe(result);
      presence.ChangeIdentity(PresenceIdentity(user, status));
      chat.ChangeIdentity(ChatIdentityFor(user, status));
    }

    /** A mouse move reaches the throttled cursor callback through the listener the presence
        effect registered. As written the callback holds the empty identity of the first
        render, so it stores the position but never publishes it. */
    method OnMouseMove(x: int, y: int, now: string)
      requires Valid()
      modifies presence, presence.channelRef
      ensures Valid()
      ensures presence.channelRef == old(presence.channelRef)
      ensures old(presence.heartbeatActive) ==> presence.cursor == Presence.Cursor(x, y)
      ensures !old(presence.heartbeatActive) ==> presence.cursor == old(presence.cursor)
      ensures old(presence.channelRef) != null ==> presence.channelRef.calls == old(presence.channelRef.calls)
    {
      if presence.heartbeatActive {
        presence.CursorMoved(x, y, now);
      }
    }

    /** The same move with the corrected callback: once the probe succeeded for a signed-in
        user, every move publishes the full record under that user's identity. */
    method OnMouseMoveCorrected(x: int, y: int, now: string)
      requires Valid()
      modifies presence, presence.channelRef
      ensures Valid()
      ensures presence.channelRef == old(presence.channelRef)
      ensures old(presence.heartbeatActive) ==> presence.cursor == Presence.Cursor(x, y)
      ensures old(presence.channelRef) != null && Enabled(user, status) && user.value.id != "" ==>
        presence.channelRef.calls == old(presence.channelRef.calls)
          + [TrackCall(Presence.FullRecord(Presence.Identity(user.value.id, user.value.handle, user.value.avatar),
                                           Presence.Cursor(x, y), currentUserTyping, now, Presence.NoUpdates))]
    {
      if presence.heartbeatActive {
        presence.CursorMovedCorrected(x, y, now);
      }
    }

    /** `handleTyping(text)`: the own bubble's text and the published typing text. */
    method HandleTyping(text: string, now: string)
      requires presence.Valid()
      modifies this, presence, presence.channelRef
      ensures currentUserTyping == text && presence.typing == text
      ensures recentMessages == old(recentMessages) && status == old(status) && presence.me == old(presence.me)
      ensures presence.channelRef == old(presence.channelRef)
      ensures old(presence.channelRef) != null && presence.me.userId != "" ==>
        presence.channelRef.calls == old(presence.channelRef.calls)
          + [TrackCall(Presence.FullRecord(presence.me, presence.cursor, text, now, Presence.NoUpdates))]
      ensures presence.Valid() && presence.onlineUsers == old(presence.onlineUsers)
    {
      currentUserTyping := text;
      presence.UpdateTyping(text, now);
    }

    /** One callback of the capture: a typing preview goes to `handleTyping`, a send to the chat
        hook, whose outcome is `reply`. */
    method Deliver(o: InputCapture.Output, now: string, messageId: string, reply: SendReply)
      requires presence.Valid() && chat.Valid()
      modifies this, presence, presence.channelRef, chat, chat.channelRef
      ensures presence.Valid() && chat.Valid()
      ensures presence.channelRef == old(presence.channelRef) && chat.channelRef == old(chat.channelRef)
      ensures recentMessages == old(recentMessages) && status == old(status)
      ensures presence.me == old(presence.me) && chat.me == old(chat.me)
      ensures o.Typing? ==> currentUserTyping == o.text && presence.typing == o.text
      ensures o.SendText? ==> currentUserTyping == old(currentUserTyping) && presence.typing == old(presence.typing)
    {
      match o {
        case Typing(t) =>
          HandleTyping(t, now);
        case SendText(t) =>
          var _ := chat.SendMessage(t, messageId, now, reply);
      }
    }

    /** The capture's callbacks for one key press, in order: afterwards the own bubble and the
        published typing text are the last typing preview among them, if there was one. */
    method DeliverAll(emitted: seq<InputCapture.Output>, now: string, messageId: string, reply: SendReply)
      requires presence.Valid() && chat.Valid() && presence.typing == currentUserTyping
      modifies this, presence, presence.channelRef, chat, chat.channelRef
      ensures presence.Valid() && chat.Valid() && presence.typing == currentUserTyping
      ensures presence.channelRef == old(presence.channelRef) && chat.channelRef == old(chat.channelRef)
      ensures recentMessages == old(recentMessages) && status == old(status)
      ensures presence.me == old(presence.me) && chat.me == old(chat.me)
      ensures currentUserTyping == InputCapture.LastTyping(emitted).GetOr(old(currentUserTyping))
    {
      var i := 0;
      while i < |emitted|
        invariant 0 <= i <= |emitted|
        invariant presence.Valid() && chat.Valid() && presence.typing == currentUserTyping
        invariant presence.channelRef == old(presence.channelRef) && chat.channelRef == old(chat.channelRef)
        invariant recentMessages == old(recentMessages) && status == old(status)
        invariant presence.me == old(presence.me) && chat.me == old(chat.me)
        invariant currentUserTyping == InputCapture.LastTyping(emitted[..i]).GetOr(old(currentUserTyping))
        decreases |emitted| - i
      {
        Deliver(emitted[i], now, messageId, reply);
        assert emitted[..i + 1][..i] == emitted[..i];
        i := i + 1;
      }
      assert emitted[..|emitted|] == emitted;
    }

    /** A key press reaches the capture (only rendered for a signed-in user) and its callbacks are
        delivered in order. */
    method OnKeyDown(e: InputCapture.KeyEvent, now: string, messageId: string, reply: SendReply)
      requires Valid()
      modifies this, input, presence, presence.channelRef, chat, chat.channelRef
      ensures Valid()
      ensures recentMessages == old(recentMessages)
      ensures user.None? ==> input.State() == old(input.State()) && input.outputs == old(input.outputs)
      ensures user.Some? ==> input.State() == InputCapture.KeyDown(old(input.State()), e).0
    {
      if user.None? {
        return;
      }
      var before := |input.outputs|;
      input.HandleKeyDown(e);
      var emitted := input.outputs[before..];
      DeliverAll(emitted, now, messageId, reply);
    }

    /** The recent-messages effect after the chat history changed, followed by the bubbles'
        effect when the window was replaced. */
    method OnMessagesChanged()
      requires Valid()
      modifies this, bubbles
      ensures Valid()
      ensures recentMessages == RecentAfter(old(recentMessages), chat.messages)
      ensures chat.messages != [] ==> bubbles.State() == ReceiveAll(old(bubbles.State()), recentMessages)
      ensures chat.messages == [] ==> bubbles.State() == old(bubbles.State())
      ensures currentUserTyping == old(currentUserTyping)
    {
      if chat.messages != [] {
        recentMessages := RecentAfter(recentMessages, chat.messages);
        bubbles.OnRecentMessages(recentMessages);
      }
    }

    /** The cursors drawn for others: every online user except the signed-in one. */
    function DrawnOthers(): (r: set<string>)
      requires user.Some?
      reads this, presence
      ensures user.value.id !in r
    {
      DrawnCursors(presence.onlineUsers, user.value.id)
    }

    /** The signed-in user's own bubble. */
    function OwnBubbleText(): (r: Option<string>)
      requires user.Some?
      reads this, bubbles
      ensures currentUserTyping != "" ==> r == Some(currentUserTyping)
    {
      OwnBubble(currentUserTyping, bubbles.visible, user.value.id)
    }
  }

  // ---------------------------------------------------------------------------------------
  // The window and the bubbles together

  /** What the bubbles look like after one more message has passed through the window. */
  function AfterMessage(s: Scheduler, window: seq<RecentMessage>, m: Chat.ChatMessage): Scheduler {
    ReceiveAll(s, RecentAfter(window, [m]))
  }

  /** "A" says "hi" at t0; "B" says "yo" at t10. */
  const Hi := Chat.ChatMessage("1", "A", "a", "", "hi", "t0")
  const Yo := Chat.ChatMessage("2", "B", "b", "", "yo", "t10")

  /** After "hi": the window holds it, and its bubble, key and expiry timer are set. */
  lemma HiShown()
    ensures RecentAfter([], [Hi]) == [Project(Hi)]
    ensures ReceiveAll(Initial, [Project(Hi)])
      == Scheduler({KeyOf(Project(Hi))}, map["A" := Bubble("hi", "t0")], [Expiry(Project(Hi))])
  {
    ReceiveAllOne(Initial, Project(Hi));
  }

  /** Its expiry removes the bubble and its release forgets the key: nothing is left. */
  lemma HiForgotten()
    ensures var s1 := Scheduler({KeyOf(Project(Hi))}, map["A" := Bubble("hi", "t0")], [Expiry(Project(Hi))]);
      ReleaseKey(Expire(s1, 0), 0) == Scheduler({}, map[], [])
  {
    var s1 := Scheduler({KeyOf(Project(Hi))}, map["A" := Bubble("hi", "t0")], [Expiry(Project(Hi))]);
    var s2 := Expire(s1, 0);
    assert s2.visible == map[] && s2.timers == [Release(KeyOf(Project(Hi)))];
  }

  /** "yo" arrives with "hi" still in the window, and the forgotten "hi" is shown again. */
  lemma YoBringsBackHi()
    ensures var s := AfterMessage(Scheduler({}, map[], []), [Project(Hi)], Yo);
      "A" in s.visible && s.visible["A"] == Bubble("hi", "t0")
  {
    var s3 := Scheduler({}, map[], []);
    assert RecentAfter([Project(Hi)], [Yo]) == [Project(Hi), Project(Yo)];
    ReceiveAllTwo(s3, Project(Hi), Project(Yo));
    assert KeyOf(Project(Yo)) != KeyOf(Project(Hi)) by {
      assert KeyOf(Project(Yo))[0] == 'B' && KeyOf(Project(Hi))[0] == 'A';
    }
  }

  /** As written, a message that has expired and whose key has been released is shown again when
      the next message arrives, because it is still inside the five-entry window: "A" says "hi",
      its bubble goes after 3 s, its key is forgotten 1 s later, "B" writes, and "hi" is back. */
  lemma ExpiredBubbleReappears()
    ensures var w1 := RecentAfter([], [Hi]);
      var s1 := ReceiveAll(Initial, w1);
      && s1.visible == map["A" := Bubble("hi", "t0")] && s1.timers == [Expiry(Project(Hi))]
      && var s3 := ReleaseKey(Expire(s1, 0), 0);
      && s3 == Scheduler({}, map[], [])
      && AfterMessage(s3, w1, Yo).visible["A"] == Bubble("hi", "t0")
  {
    HiShown();
    HiForgotten();
    YoBringsBackHi();
  }

  lemma ReceiveAllOne(s: Scheduler, a: RecentMessage)
    ensures ReceiveAll(s, [a]) == Receive(s, a)
  {
    assert [a][..0] == [];
  }

  lemma ReceiveAllTwo(s: Scheduler, a: RecentMessage, b: RecentMessage)
    ensures ReceiveAll(s, [a, b]) == Receive(Receive(s, a), b)
  {
    assert [a, b][..1] == [a];
    ReceiveAllOne(s, a);
  }

  /** Corrected, a window only ever adds the bubble of the message that just arrived: every older
      entry was in the previous window, whose keys are all still remembered, whatever timers have
      fired since. */
  lemma {:induction false} CorrectedShowsOnlyNewMessage(s: Scheduler, window: seq<RecentMessage>, m: Chat.ChatMessage)
    requires WindowKeys(window) <= s.processed
    ensures ReceiveWindowCorrected(s, RecentAfter(window, [m])).visible == Receive(s, Project(m)).visible
    ensures ReceiveWindowCorrected(s, RecentAfter(window, [m])).processed == WindowKeys(RecentAfter(window, [m]))
  {
    var w := RecentAfter(window, [m]);
    var init := w[..|w| - 1];
    assert forall x :: x in init ==> x in window by {
      forall x | x in init ensures x in window {
        var k :| 0 <= k < |init| && init[k] == x;
        assert x == (window + [Project(m)])[|window| + 1 - |w| + k];
      }
    }
    ReceiveAllSeen(s, init);
    assert w[|w| - 1] == Project(m);
  }

  /** Under the corrected rules the window's keys stay remembered through any expiry. */
  lemma CorrectedKeepsWindowKeys(s: Scheduler, window: seq<RecentMessage>, i: nat)
    requires i < |ReceiveWindowCorrected(s, window).timers| && ReceiveWindowCorrected(s, window).timers[i].Expiry?
    ensures WindowKeys(window) <= ExpireCorrected(ReceiveWindowCorrected(s, window), i).processed
  {
  }
}
