/** The global keyboard capture of `components/features/cursor-chat.tsx`: typing anywhere on
    the page builds a message of at most 50 characters, every change of it is passed on as the
    typing preview, Enter sends the trimmed text, Backspace and Escape edit or cancel. The two
    callbacks it is given are recorded as an output log. */
module InputCapture {
  import opened Common

  const MaxTypingLength: nat := 50

  /** The parts of a `KeyboardEvent` the handler reads. `key` is the key's name, a single
      character for printable keys. */
  datatype KeyEvent = KeyEvent(key: string, ctrl: bool, meta: bool, alt: bool, targetIsTextField: bool)

  /** A call of one of the component's callbacks: `onTyping(text)` or `onSendMessage(text)`. */
  datatype Output = Typing(text: string) | SendText(text: string)

  /** The component's two state variables. */
  datatype InputState = InputState(isTyping: bool, currentMessage: string)

  const Idle := InputState(false, "")

  /** The composing flag is set exactly while there is text, and the text fits the limit. */
  predicate Valid(st: InputState) {
    (st.isTyping <==> st.currentMessage != "") && |st.currentMessage| <= MaxTypingLength
  }

  /** The typing preview the outputs leave peers with: the text of the last `onTyping` call. */
  function LastTyping(outputs: seq<Output>): Option<string>
    decreases |outputs|
  {
    if outputs == [] then None
    else if outputs[|outputs| - 1].Typing? then Some(outputs[|outputs| - 1].text)
    else LastTyping(outputs[..|outputs| - 1])
  }

  /** `handleSendMessage()`: on non-blank text clear the state, clear the preview, then send
      the trimmed text; on blank text do nothing. */
  function SendMessage(st: InputState): (r: (InputState, seq<Output>))
    ensures Trim(st.currentMessage) == "" ==> r == (st, [])
    ensures Trim(st.currentMessage) != "" ==> r == (Idle, [Typing(""), SendText(Trim(st.currentMessage))])
  {

    if Trim(st.currentMessage) != "" then (Idle, [Typing(""), SendText(Trim(st.currentMessage))])
    else (st, [])
  }

  /** A printable key: it starts composing, or extends the text, while the result fits. */
  function TypeKey(st: InputState, key: string): (r: (InputState, seq<Output>))
    requires |key| == 1
    ensures Valid(st) ==> Valid(r.0)
    ensures |st.currentMessage + key| <= MaxTypingLength || !st.isTyping ==>
      && r.0.isTyping && r.0.currentMessage == (if st.isTyping then st.currentMessage + key else key)
      && r.1 == [Typing(r.0.currentMessage)]
    ensures !(|st.currentMessage + key| <= MaxTypingLength || !st.isTyping) ==> r == (st, [])
  {
    if !st.isTyping then
      if |key| <= MaxTypingLength then (InputState(true, key), [Typing(key)]) else (st, [])
    else
      var newMessage := st.currentMessage + key;
      if |newMessage| <= MaxTypingLength then (InputState(true, newMessage), [Typing(newMessage)])
      else (st, [])
  }

  /** Backspace while composing: `slice(0, -1)` drops the last character, the rest is
      previewed, and when nothing is left composing ends with a second, empty preview. */
  function Backspace(st: InputState): (r: (InputState, seq<Output>))
    ensures Valid(st) ==> Valid(r.0)
    ensures st.currentMessage != "" ==> r.0.currentMessage == st.currentMessage[..|st.currentMessage| - 1]
    ensures st.currentMessage == "" ==> r.0.currentMessage == ""
    ensures r.0.isTyping <==> r.0.currentMessage != ""
    ensures r.1 == [Typing(r.0.currentMessage)] + (if r.0.currentMessage == "" then [Typing("")] else [])
  {
    var newMessage := if st.currentMessage == "" then "" else st.currentMessage[..|st.currentMessage| - 1];
    if newMessage == "" then (InputState(false, newMessage), [Typing(newMessage), Typing("")])
    else (InputState(true, newMessage), [Typing(newMessage)])
  }

  /** The `keydown` handler: the new state and the callbacks it makes, in order. */
  function KeyDown(st: InputState, e: KeyEvent): (r: (InputState, seq<Output>))
    ensures Valid(st) ==> Valid(r.0)
    ensures e.targetIsTextField ==> r == (st, [])
    // a printable key grows the text by that key while it fits, and is otherwise ignored
    ensures !e.targetIsTextField && |e.key| == 1 && !e.ctrl && !e.meta && !e.alt ==>
      if |st.currentMessage + e.key| <= MaxTypingLength || !st.isTyping
      then r.0.isTyping && r.0.currentMessage == (if st.isTyping then st.currentMessage + e.key else e.key)
           && r.1 == [Typing(r.0.currentMessage)]
      else r == (st, [])
    // every callback burst leaves the preview equal to the text being composed, and a key
    // that makes no callback changes nothing
    ensures r.1 != [] ==> LastTyping(r.1) == Some(r.0.currentMessage)
    ensures r.1 == [] ==> r.0 == st
    // only Enter sends, only while composing, and only the non-empty trimmed text
    ensures forall o :: o in r.1 && o.SendText? ==>
      e.key == "Enter" && st.isTyping && o.text == Trim(st.currentMessage) && o.text != ""
  {
    if e.targetIsTextField then (st, [])
    else if |e.key| == 1 && !e.ctrl && !e.meta && !e.alt then TypeKey(st, e.key)
    else if e.key == "Backspace" && st.isTyping then Backspace(st)
    else if e.key == "Enter" && st.isTyping && Trim(st.currentMessage) != "" then
      SendMessage(st)
    else if e.key == "Escape" && st.isTyping then
      (Idle, [Typing("")])
    else (st, [])
  }

  /** The editing keys of the `keydown` handler. */
  lemma KeyDownEditingKeys(st: InputState, e: KeyEvent)
    // Backspace while composing drops the last character (`slice(0, -1)`) and previews the
    // rest; when nothing is left composing ends and an empty preview follows
    ensures var r := KeyDown(st, e); !e.targetIsTextField && e.key == "Backspace" && st.isTyping ==>
      && (st.currentMessage != "" ==> r.0.currentMessage == st.currentMessage[..|st.currentMessage| - 1])
      && (st.currentMessage == "" ==> r.0.currentMessage == "")
      && (r.0.isTyping <==> r.0.currentMessage != "")
      && r.1 == [Typing(r.0.currentMessage)] + (if r.0.currentMessage == "" then [Typing("")] else [])
    // Enter while composing non-blank text is `handleSendMessage()`: clear, then send
    ensures var r := KeyDown(st, e); !e.targetIsTextField && e.key == "Enter" && st.isTyping && !IsBlank(st.currentMessage) ==>
      r == (Idle, [Typing(""), SendText(Trim(st.currentMessage))])
    // Escape while composing cancels: the text is discarded and the preview cleared
    ensures var r := KeyDown(st, e); !e.targetIsTextField && e.key == "Escape" && st.isTyping ==> r == (Idle, [Typing("")])
    // Backspace, Enter and Escape outside composing, Enter on blank text, and every other
    // non-printable or modified key are ignored
    ensures var r := KeyDown(st, e); (e.key == "Backspace" || e.key == "Escape") && !st.isTyping ==> r == (st, [])
    ensures var r := KeyDown(st, e); e.key == "Enter" && (!st.isTyping || IsBlank(st.currentMessage)) ==> r == (st, [])
    ensures var r := KeyDown(st, e); ((|e.key| != 1 || e.ctrl || e.meta || e.alt)
             && e.key != "Backspace" && e.key != "Enter" && e.key != "Escape") ==> r == (st, [])
  {
  }

  /** A run of key presses: the final state and every callback, in order. */
  function KeyDownAll(st: InputState, events: seq<KeyEvent>): (InputState, seq<Output>)
    decreases |events|
  {
    if events == [] then (st, [])
    else
      var step := KeyDown(st, events[0]);
      var rest := KeyDownAll(step.0, events[1..]);
      (rest.0, step.1 + rest.1)
  }

  /** Any run of key presses from a valid state keeps the state valid. */
  lemma {:induction false} KeyDownAllKeepsValid(st: InputState, events: seq<KeyEvent>)
    requires Valid(st)
    ensures Valid(KeyDownAll(st, events).0)
    decreases |events|
  {
    if events != [] {
      KeyDownAllKeepsValid(KeyDown(st, events[0]).0, events[1..]);
    }
  }

  function Press(key: string): KeyEvent {
    KeyEvent(key, false, false, false, false)
  }

  /** Typing "h", "i", then Backspace twice: the preview goes "h", "hi", "h", and the second
      Backspace clears it twice, once as the edited text and once as the end of composing. */
  lemma BackspaceToEmpty()
    ensures KeyDownAll(Idle, [Press("h"), Press("i"), Press("Backspace"), Press("Backspace")])
         == (Idle, [Typing("h"), Typing("hi"), Typing("h"), Typing(""), Typing("")])
  {
    var s1 := InputState(true, "h");
    var s2 := InputState(true, "hi");
    var events := [Press("h"), Press("i"), Press("Backspace"), Press("Backspace")];
    assert "h" + "i" == "hi";
    assert "hi"[..1] == "h";
    assert KeyDown(Idle, Press("h")) == (s1, [Typing("h")]);
    assert KeyDown(s1, Press("i")) == (s2, [Typing("hi")]);
    assert KeyDown(s2, Press("Backspace")) == (s1, [Typing("h")]);
    assert KeyDown(s1, Press("Backspace")) == (Idle, [Typing(""), Typing("")]);
    assert events[3..][1..] == [] && events[2..][1..] == events[3..] && events[1..][1..] == events[2..];
    assert [Typing(""), Typing("")] + [] == [Typing(""), Typing("")];
    assert KeyDownAll(s1, events[3..]) == (Idle, [Typing(""), Typing("")]);
    assert [Typing("h")] + [Typing(""), Typing("")] == [Typing("h"), Typing(""), Typing("")];
    assert KeyDownAll(s2, events[2..]) == (Idle, [Typing("h"), Typing(""), Typing("")]);
    assert [Typing("hi")] + [Typing("h"), Typing(""), Typing("")] == [Typing("hi"), Typing("h"), Typing(""), Typing("")];
    assert KeyDownAll(s1, events[1..]) == (Idle, [Typing("hi"), Typing("h"), Typing(""), Typing("")]);
    assert [Typing("h")] + [Typing("hi"), Typing("h"), Typing(""), Typing("")]
        == [Typing("h"), Typing("hi"), Typing("h"), Typing(""), Typing("")];
  }

  /** The component instance: its state and the log of callback calls it has made. */
  class CursorChat {
    var isTyping: bool
    var currentMessage: string
    var outputs: seq<Output>

    function State(): InputState
      reads this
    {
      InputState(isTyping, currentMessage)
    }

    constructor ()
      ensures State() == Idle && outputs == []
    {
      isTyping, currentMessage, outputs := false, "", [];
    }

    /** `handleSendMessage()`. */
    method HandleSendMessage()
      modifies this
      ensures State() == SendMessage(old(State())).0
      ensures outputs == old(outputs) + SendMessage(old(State())).1
    {
      ghost var st := State();
      var trimmed := Trim(currentMessage);
      if trimmed != "" {
        ghost var emitted := SendMessage(st).1;
        assert emitted == [Typing(""), SendText(trimmed)];
        currentMessage := "";
        isTyping := false;
        outputs := outputs + [Typing("")];
        outputs := outputs + [SendText(trimmed)];
        assert outputs == old(outputs) + emitted;
      } else {
        assert SendMessage(st) == (st, []);
        assert outputs + [] == outputs;
      }
    }

    /** The window `keydown` listener. */
    method HandleKeyDown(e: KeyEvent)
      requires Valid(State())
      modifies this
      ensures Valid(State())
      ensures State() == KeyDown(old(State()), e).0
      ensures outputs == old(outputs) + KeyDown(old(State()), e).1
    {
      if e.targetIsTextField {
        return;
      }
      if |e.key| == 1 && !e.ctrl && !e.meta && !e.alt {
        if !isTyping {
          var newChar := e.key;
          if |newChar| <= MaxTypingLength {
            isTyping := true;
            currentMessage := newChar;
            outputs := outputs + [Typing(newChar)];
          }
        } else {
          var newMessage := currentMessage + e.key;
          if |newMessage| <= MaxTypingLength {
            currentMessage := newMessage;
            outputs := outputs + [Typing(newMessage)];
          }
        }
      } else if e.key == "Backspace" && isTyping {
        var newMessage := if currentMessage == "" then "" else currentMessage[..|currentMessage| - 1];
        currentMessage := newMessage;
        outputs := outputs + [Typing(newMessage)];
        if newMessage == "" {
          isTyping := false;
          outputs := outputs + [Typing("")];
        }
      } else if e.key == "Enter" && isTyping && Trim(currentMessage) != "" {
        HandleSendMessage();
      } else if e.key == "Escape" && isTyping {
        isTyping := false;
        currentMessage := "";
        outputs := outputs + [Typing("")];
      }
    }
  }
}
