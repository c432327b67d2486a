/**
 * The pure parts of the frontend in text mode: what a key press does to the
 * input buffer and to the two outgoing queues, and how the conversation is
 * laid out and scrolled on screen.
 */
module FrontendView {
  import opened Options
  import opened Messages
  import opened Events

  /** The keys the frontend tells apart; every other key is `Other`. */
  datatype Key = Esc | Enter | Backspace | Char(c: char) | Other(code: nat)

  datatype Input = Input(key: Key, ctrl: bool, alt: bool)

  /** The input buffer: its lines, the cursor kept at the end of the last one. */
  datatype TextArea = TextArea(lines: seq<string>)

  /** A buffer always has at least one (possibly empty) line. */
  type Buffer = t: TextArea | |t.lines| > 0 witness TextArea([""])

  /** `TextArea::default()`. */
  const EMPTY_BUFFER: Buffer := TextArea([""])

  /** `TextArea::is_empty`: a single empty line. */
  predicate IsEmpty(t: Buffer)
  {
    t.lines == [""]
  }

  /**
   * The text editor's own handling of a key press that reaches it. The
   * editor widget is a library this model does not look into, so it is a
   * parameter: any function from a buffer and a key press to a buffer.
   */
  type Editor = (Buffer, Input) -> Buffer

  /** What a key press produces: the new buffer and the events sent to the app and to the backend. */
  datatype KeyEffect = KeyEffect(textarea: Buffer, toApp: seq<Event>, toBackend: seq<Event>)

  /** `handle_user_input`, for one key press, on the given turn. */
  function HandleKey(edit: Editor, turn: TurnToSpeak, t: Buffer, i: Input): (r: KeyEffect)
    ensures r.toApp == [] || r.toApp == [Quit]
    ensures |r.toBackend| <= 1 && (r.toBackend != [] ==> turn == User && r.textarea == EMPTY_BUFFER)
  {
    match i.key
    case Esc => KeyEffect(t, [Quit], [])
    case Enter =>
      if IsEmpty(t) then KeyEffect(t, [], [])
      else if turn == User then KeyEffect(EMPTY_BUFFER, [], [UserMessage(t.lines[0])])
      else KeyEffect(t, [], [])
    case _ =>
      if i.key == Char('m') && i.ctrl && !i.alt then KeyEffect(t, [], [])
      else KeyEffect(edit(t, i), [], [])
  }

  /** A run of key presses, handled in order, with the turn fixed throughout. */
  function HandleKeys(edit: Editor, turn: TurnToSpeak, t: Buffer, inputs: seq<Input>): (r: KeyEffect)
    ensures |r.toApp| <= |inputs|
  {
    if inputs == [] then KeyEffect(t, [], [])
    else
      var e := HandleKeys(edit, turn, t, inputs[..|inputs| - 1]);
      var k := HandleKey(edit, turn, e.textarea, inputs[|inputs| - 1]);
      KeyEffect(k.textarea, e.toApp + k.toApp, e.toBackend + k.toBackend)
  }

  /** Handling one more key press extends the run by that key's effect. */
  lemma HandleKeysStep(edit: Editor, turn: TurnToSpeak, t: Buffer, inputs: seq<Input>, i: nat)
    requires i < |inputs|
    ensures var e := HandleKeys(edit, turn, t, inputs[..i]);
      var k := HandleKey(edit, turn, e.textarea, inputs[i]);
      HandleKeys(edit, turn, t, inputs[..i + 1]) == KeyEffect(k.textarea, e.toApp + k.toApp, e.toBackend + k.toBackend)
  {
    assert inputs[..i + 1][..i] == inputs[..i];
  }

  /** Esc asks the app to quit and touches neither the buffer nor the backend queue. */
  lemma EscSendsQuit(edit: Editor, turn: TurnToSpeak, t: Buffer, ctrl: bool, alt: bool)
    ensures HandleKey(edit, turn, t, Input(Esc, ctrl, alt)) == KeyEffect(t, [Quit], [])
  {
  }

  /**
   * Enter sends nothing from an empty buffer or on the bot's turn, and then
   * keeps the buffer; otherwise it sends the buffer's first line only and
   * empties the buffer.
   */
  lemma EnterSendsFirstLineOnUsersTurn(edit: Editor, turn: TurnToSpeak, t: Buffer, ctrl: bool, alt: bool)
    ensures var e := HandleKey(edit, turn, t, Input(Enter, ctrl, alt));
      && e.toApp == []
      && (IsEmpty(t) || turn == Bot ==> e.toBackend == [] && e.textarea == t)
      && (!IsEmpty(t) && turn == User ==> e.toBackend == [UserMessage(t.lines[0])] && e.textarea == EMPTY_BUFFER)
  {
  }

  /** Ctrl+M without Alt is ignored; every other key but Esc and Enter goes to the editor. */
  lemma OtherKeysGoToTheEditor(edit: Editor, turn: TurnToSpeak, t: Buffer, i: Input)
    requires i.key != Esc && i.key != Enter
    ensures var e := HandleKey(edit, turn, t, i);
      && e.toApp == [] && e.toBackend == []
      && (i.key == Char('m') && i.ctrl && !i.alt ==> e.textarea == t)
      && (!(i.key == Char('m') && i.ctrl && !i.alt) ==> e.textarea == edit(t, i))
  {
  }

  /**
   * On the bot's turn no key press reaches the backend, and the app hears
   * only of quit requests, however many keys are pressed.
   */
  lemma {:induction false} NothingReachesBackendOnBotsTurn(edit: Editor, t: Buffer, inputs: seq<Input>)
    ensures HandleKeys(edit, Bot, t, inputs).toBackend == []
    ensures forall k :: 0 <= k < |HandleKeys(edit, Bot, t, inputs).toApp| ==> HandleKeys(edit, Bot, t, inputs).toApp[k] == Quit
    decreases |inputs|
  {
    if inputs != [] {
      NothingReachesBackendOnBotsTurn(edit, t, inputs[..|inputs| - 1]);
    }
  }

  /**
   * Key press `j` of a run is an Enter on the user's turn, pressed on a
   * non-empty buffer, and `e` is the message holding that buffer's first line.
   */
  predicate SentAt(edit: Editor, turn: TurnToSpeak, t: Buffer, inputs: seq<Input>, j: nat, e: Event)
  {
    && j < |inputs| && inputs[j].key == Enter && turn == User
    && var before := HandleKeys(edit, turn, t, inputs[..j]).textarea;
       !IsEmpty(before) && e == UserMessage(before.lines[0])
  }

  /** `e` was sent by one of the key presses of the run. */
  predicate SentByAKeyPress(edit: Editor, turn: TurnToSpeak, t: Buffer, inputs: seq<Input>, e: Event)
  {
    exists j: nat | j < |inputs| :: SentAt(edit, turn, t, inputs, j, e)
  }

  /**
   * Every message the frontend sends to the backend is the first line of a
   * non-empty buffer, sent by an Enter on the user's turn; there is at most
   * one per key press.
   */
  lemma {:induction false} SentMessagesComeFromNonEmptyBuffers(edit: Editor, turn: TurnToSpeak, t: Buffer, inputs: seq<Input>)
    ensures forall k :: 0 <= k < |HandleKeys(edit, turn, t, inputs).toBackend| ==>
              SentByAKeyPress(edit, turn, t, inputs, HandleKeys(edit, turn, t, inputs).toBackend[k])
    ensures |HandleKeys(edit, turn, t, inputs).toBackend| <= |inputs|
    decreases |inputs|
  {
    if inputs != [] {
      var n := |inputs| - 1;
      var init := inputs[..n];
      SentMessagesComeFromNonEmptyBuffers(edit, turn, t, init);
      var before := HandleKeys(edit, turn, t, init);
      var sent := HandleKeys(edit, turn, t, inputs).toBackend;
      var key := HandleKey(edit, turn, before.textarea, inputs[n]);
      assert sent == before.toBackend + key.toBackend;
      forall k | 0 <= k < |sent|
        ensures SentByAKeyPress(edit, turn, t, inputs, sent[k])
      {
        if k < |before.toBackend| {
          var j: nat :| j < |init| && SentAt(edit, turn, t, init, j, before.toBackend[k]);
          assert inputs[..j] == init[..j];
          assert SentAt(edit, turn, t, inputs, j, sent[k]);
        } else {
          assert inputs[..n] == init;
          assert SentAt(edit, turn, t, inputs, n, sent[k]);
        }
      }
    }
  }

  /** One line of the conversation pane. */
  datatype Line = Header(sender: string, timestamp: int) | Body(content: string) | Blank

  /** The conversation pane: a header, the content and a blank line per message. */
  function ConversationLines(conversation: seq<Message>): (r: seq<Line>)
    ensures |r| == 3 * |conversation|
  {
    if conversation == [] then []
    else
      var m := conversation[|conversation| - 1];
      ConversationLines(conversation[..|conversation| - 1]) + [Header(m.sender, m.timestamp), Body(m.content), Blank]
  }

  /** The pane holds exactly three lines per message, in the conversation's order. */
  lemma {:induction false} ThreeLinesPerMessage(conversation: seq<Message>)
    ensures |ConversationLines(conversation)| == 3 * |conversation|
    ensures forall i :: 0 <= i < |conversation| ==>
              && ConversationLines(conversation)[3 * i] == Header(conversation[i].sender, conversation[i].timestamp)
              && ConversationLines(conversation)[3 * i + 1] == Body(conversation[i].content)
              && ConversationLines(conversation)[3 * i + 2] == Blank
    decreases |conversation|
  {
    if conversation != [] {
      var init := conversation[..|conversation| - 1];
      ThreeLinesPerMessage(init);
      forall i | 0 <= i < |init|
        ensures init[i] == conversation[i]
      {
      }
    }
  }

  /** Terminal coordinates are `u16`. */
  type U16 = x: int | 0 <= x < 0x1_0000

  /** `entries.len() as u16`: the line count, truncated to 16 bits. */
  function LineCount(conversation: seq<Message>): (r: U16)
    ensures 3 * |conversation| < 0x1_0000 ==> r == |ConversationLines(conversation)|
    ensures r == |ConversationLines(conversation)| % 0x1_0000
  {
    (3 * |conversation|) % 0x1_0000
  }

  /**
   * The scroll offset that keeps the newest line in view, computed in `u16`.
   * The offset is zero while everything fits; otherwise it is the line count
   * less the pane's bottom row, plus one. The subtraction never goes below
   * zero, but the addition overflows when the bottom is row 0 (a terminal
   * under two rows high, where the layout's margin leaves an empty pane) and
   * the line count is 65535: a debug build panics there, modelled as an error.
   */
  function ScrollOffset(lineCount: U16, bottom: U16): (r: Result<U16, string>)
    ensures r.Err? <==> bottom == 0 && lineCount == 0xFFFF
    ensures lineCount <= bottom ==> r == Ok(0)
    ensures lineCount > bottom && r.Ok? ==> r.value > 0 && r.value + bottom == lineCount + 1
    ensures bottom > 0 && r.Ok? ==> r.value <= lineCount
  {
    if bottom < lineCount then
      if lineCount - bottom + 1 < 0x1_0000 then Ok(lineCount - bottom + 1)
      else Err("attempt to add with overflow")
    else Ok(0)
  }

  /** What the conversation pane shows. */
  datatype Pane = NewConversationHint | Scrolled(lines: seq<Line>, offset: U16)

  /** One redraw: the conversation pane, the input buffer and the status line. */
  datatype Frame = Frame(pane: Pane, input: Buffer, status: string)

  /**
   * `redraw_terminal`, on a pane whose bottom edge is at row `bottom`. It
   * fails only where the scroll offset overflows.
   */
  function Draw(conversation: seq<Message>, textarea: Buffer, status: Status, bottom: U16): (r: Result<Frame, string>)
    ensures r.Err? <==> conversation != [] && ScrollOffset(LineCount(conversation), bottom).Err?
    ensures conversation == [] ==> r == Ok(Frame(NewConversationHint, textarea, Render(status)))
  {
    if conversation == [] then Ok(Frame(NewConversationHint, textarea, Render(status)))
    else
      match ScrollOffset(LineCount(conversation), bottom)
      case Ok(offset) => Ok(Frame(Scrolled(ConversationLines(conversation), offset), textarea, Render(status)))
      case Err(e) => Err(e)
  }
}
