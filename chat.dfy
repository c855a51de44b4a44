/** The chat hook of one client (`hooks/useChat.ts`): a broadcast channel, a bounded history
    buffer fed by received messages and by acknowledged sends, and the connection flag.
    Message ids, timestamps and the service's replies are parameters. */
module Chat {
  import opened Common
  import opened Transport

  datatype ChatMessage = ChatMessage(
    id: string, userId: string, username: string, avatar: string,
    message: string, timestamp: string)

  /** The hook's `currentUser`; an empty `id` disables chat. */
  datatype ChatIdentity = ChatIdentity(id: string, username: string, avatar: string)

  const DefaultMaxMessages: nat := 100

  /** `[...prev, m].slice(-maxMessages)`, the update both append paths apply. */
  function AppendBounded(buffer: seq<ChatMessage>, m: ChatMessage, maxMessages: nat): (r: seq<ChatMessage>)
    ensures |r| > 0 && r[|r| - 1] == m
    ensures |r| <= |buffer| + 1
    ensures maxMessages > 0 ==> |r| == Min(|buffer| + 1, maxMessages)
  {
    SliceLast(buffer + [m], maxMessages)
  }

  /** The new message always ends the buffer, and the buffer is what remains of the old
      buffer followed by the message once the oldest entries beyond the bound are dropped. */
  lemma AppendKeepsOrder(buffer: seq<ChatMessage>, m: ChatMessage, maxMessages: nat)
    ensures var r := AppendBounded(buffer, m, maxMessages);
      && |r| > 0 && r[|r| - 1] == m
      && r == (buffer + [m])[|buffer| + 1 - |r|..]
      && (maxMessages == 0 || |buffer| < maxMessages ==> r == buffer + [m])
      && (0 < maxMessages <= |buffer| ==> r == buffer[|buffer| - maxMessages + 1..] + [m])
  {
    var r := AppendBounded(buffer, m, maxMessages);
    if 0 < maxMessages <= |buffer| {
      assert r == (buffer + [m])[|buffer| + 1 - maxMessages..];
      assert (buffer + [m])[|buffer| + 1 - maxMessages..] == buffer[|buffer| - maxMessages + 1..] + [m];
    }
  }

  /** A positive bound is never exceeded by an append to a buffer within it. */
  lemma AppendBounds(buffer: seq<ChatMessage>, m: ChatMessage, maxMessages: nat)
    requires maxMessages > 0 && |buffer| <= maxMessages
    ensures |AppendBounded(buffer, m, maxMessages)| <= maxMessages
    ensures |AppendBounded(buffer, m, maxMessages)| == Min(|buffer| + 1, maxMessages)
  {
  }

  /** The message `sendMessage(text)` broadcasts: fresh id, the sender's identity and the
      trimmed text. */
  function Compose(me: ChatIdentity, text: string, id: string, now: string): (m: ChatMessage)
    ensures m.userId == me.id && m.username == me.username && m.avatar == me.avatar
    ensures m.message == Trim(text) && m.id == id && m.timestamp == now
  {
    ChatMessage(id, me.id, me.username, me.avatar, Trim(text), now)
  }

  class ChatRoom {
    /** The identity of the current render; an empty `id` disables chat. */
    var me: ChatIdentity
    const roomId: string
    const maxMessages: nat

    var messages: seq<ChatMessage>
    var isConnected: bool
    /** `channelRef.current`: the channel of the running effect, nulled by its cleanup. The
        service delivers events only for a subscribed channel, so the handlers act only while
        it is held. */
    var channelRef: Channel?<ChatMessage>

    ghost predicate Valid()
      reads this
    {
      && (maxMessages > 0 ==> |messages| <= maxMessages)
      && (me.id == "" ==> channelRef == null && messages == [] && !isConnected)
    }

    /** Mounting the hook and running its effect: without a user id nothing is opened;
        otherwise one channel on `chat:<roomId>` is created and subscribed. */
    constructor (me: ChatIdentity, roomId: string, maxMessages: nat)
      ensures Valid()
      ensures this.me == me && this.roomId == roomId && this.maxMessages == maxMessages
      ensures messages == [] && !isConnected
      ensures me.id == "" ==> channelRef == null
      ensures me.id != "" ==>
        && channelRef != null && fresh(channelRef)
        && channelRef.topic == "chat:" + roomId && channelRef.calls == [SubscribeCall]
    {
      this.me := me;
      this.roomId := roomId;
      this.maxMessages := maxMessages;
      messages := [];
      isConnected := false;
      if me.id == "" {
        channelRef := null;
      } else {
        var ch := new Channel<ChatMessage>("chat:" + roomId);
        ch.Subscribe();
        channelRef := ch;
      }
    }

    /** A render with another identity. `sendMessage` always uses the current identity; the
        effect depends only on the user id, so only a different id runs the cleanup and then
        the effect again on the same instance. The history survives that, except that an
        identity without a user id clears it. */
    method ChangeIdentity(newMe: ChatIdentity)
      requires Valid()
      modifies this, channelRef
      ensures Valid()
      ensures me == newMe
      ensures newMe.id == old(me.id) ==>
        channelRef == old(channelRef) && messages == old(messages) && isConnected == old(isConnected)
      ensures newMe.id != old(me.id) && old(channelRef) != null ==>
        old(channelRef).calls == old(channelRef.calls) + [UnsubscribeCall]
      ensures newMe.id != old(me.id) ==> !isConnected
      ensures newMe.id != old(me.id) && newMe.id == "" ==> channelRef == null && messages == []
      ensures newMe.id != old(me.id) && newMe.id != "" ==>
        && channelRef != null && fresh(channelRef)
        && channelRef.topic == "chat:" + roomId && channelRef.calls == [SubscribeCall]
        && messages == old(messages)
    {
      if newMe.id == me.id {
        me := newMe;
        return;
      }
      Teardown();
      me := newMe;
      if newMe.id == "" {
        messages := [];
      } else {
        var ch := new Channel<ChatMessage>("chat:" + roomId);
        ch.Subscribe();
        channelRef := ch;
      }
    }

    /** The `chat-message` broadcast handler. */
    method OnBroadcast(m: ChatMessage)
      requires Valid()
      modifies this
      ensures Valid()
      ensures messages == if old(channelRef) != null then AppendBounded(old(messages), m, maxMessages) else old(messages)
      ensures isConnected == old(isConnected) && channelRef == old(channelRef) && me == old(me)
    {
      if channelRef != null {
        messages := AppendBounded(messages, m, maxMessages);
      }
    }

    /** The subscribe callback. There is no retry path: TIMED_OUT is not handled at all. */
    method OnStatus(status: Status)
      requires Valid()
      modifies this
      ensures Valid()
      ensures messages == old(messages) && channelRef == old(channelRef) && me == old(me)
      ensures isConnected == if old(channelRef) == null then old(isConnected) else
        match status
        case Subscribed => true
        case ChannelError => false
        case Closed => false
        case TimedOut => old(isConnected)
    {
      if channelRef != null {
        match status
        case Subscribed => isConnected := true;
        case ChannelError => isConnected := false;
        case Closed => isConnected := false;
        case TimedOut =>
      }
    }

    /** `sendMessage(text)`: false without a channel or on text that trims to nothing, i.e.
        blank text (nothing is sent);
        otherwise one broadcast of the composed message, and only an `'ok'` reply appends the
        local echo and yields true. */
    method SendMessage(text: string, id: string, now: string, reply: SendReply) returns (sent: bool)
      requires Valid()
      modifies this, channelRef
      ensures Valid()
      ensures channelRef == old(channelRef) && me == old(me) && isConnected == old(isConnected)
      ensures old(channelRef) == null || Trim(text) == "" ==> !sent && messages == old(messages)
      ensures old(channelRef) != null && Trim(text) == "" ==> channelRef.calls == old(channelRef.calls)
      ensures old(channelRef) != null && Trim(text) != "" ==>
        && channelRef.calls == old(channelRef.calls) + [SendCall(Compose(me, text, id, now))]
        && sent == (reply == Ok)
        && messages == if sent then AppendBounded(old(messages), Compose(me, text, id, now), maxMessages)
                       else old(messages)
    {
      if channelRef == null || Trim(text) == [] {
        return false;
      }
      var message := Compose(me, text, id, now);
      var resp := channelRef.Send(message, reply);
      if resp == Ok {
        messages := AppendBounded(messages, message, maxMessages);
        assert maxMessages > 0 ==> |messages| <= maxMessages;
        return true;
      }
      return false;
    }

    /** `clearMessages()`. */
    method ClearMessages()
      requires Valid()
      modifies this
      ensures Valid()
      ensures messages == []
      ensures isConnected == old(isConnected) && channelRef == old(channelRef) && me == old(me)
    {
      messages := [];
    }

    /** The effect's cleanup: unsubscribe and drop the held channel, mark disconnected. A
        second teardown unsubscribes nothing, and every later send fails. */
    method Teardown()
      requires Valid()
      modifies this, channelRef
      ensures Valid()
      ensures channelRef == null && me == old(me) && !isConnected && messages == old(messages)
      ensures old(channelRef) != null ==> old(channelRef).calls == old(channelRef.calls) + [UnsubscribeCall]
    {
      if channelRef != null {
        channelRef.Unsubscribe();
        channelRef := null;
      }
      isConnected := false;
    }
  }

  /** The buffer after appending `appended` in order, one message at a time. */
  function AppendAll(buffer: seq<ChatMessage>, appended: seq<ChatMessage>, maxMessages: nat): seq<ChatMessage> {
    AppendEachSliceLast(buffer, appended, maxMessages)
  }

  /** Appending is order-preserving and bounded: after any run of appends the buffer is exactly
      the last `maxMessages` of the old buffer followed by everything appended, the oldest
      dropped first, and a positive bound is never exceeded. */
  lemma BufferIsBoundedSuffix(buffer: seq<ChatMessage>, appended: seq<ChatMessage>, maxMessages: nat)
    requires maxMessages == 0 || |buffer| <= maxMessages
    ensures AppendAll(buffer, appended, maxMessages) == SliceLast(buffer + appended, maxMessages)
    ensures maxMessages > 0 ==> |AppendAll(buffer, appended, maxMessages)| == Min(|buffer| + |appended|, maxMessages)
  {
    AppendEachSliceLastIsSuffix(buffer, appended, maxMessages);
  }
}
