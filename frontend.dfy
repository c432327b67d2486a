/**
 * The frontend actor: it reads key presses, mirrors the conversation and
 * status the backend sends, works out whose turn it is, and redraws.
 */
module Frontend {
  import opened Options
  import opened Messages
  import opened Events
  import opened FrontendView
  import Backend

  /** The part of the frontend's state the backend's events update. */
  datatype Mirror = Mirror(conversation: seq<Message>, status: Status, turn: TurnToSpeak)

  /** The frontend's turn rule: the bot speaks next exactly when the user spoke last. */
  function TurnAfter(yourName: string, conversation: seq<Message>): TurnToSpeak
  {
    if conversation != [] && conversation[|conversation| - 1].sender == yourName then Bot else User
  }

  /** One event received from the backend. */
  function Apply(yourName: string, m: Mirror, e: Event): (r: Mirror)
    ensures m.turn == TurnAfter(yourName, m.conversation) ==> r.turn == TurnAfter(yourName, r.conversation)
  {
    match e
    case ConversationUpdated(c) => Mirror(c, m.status, TurnAfter(yourName, c))
    case StatusUpdated(s) => m.(status := s)
    case _ => m
  }

  /** Every event waiting in the queue, oldest first. */
  function ApplyAll(yourName: string, m: Mirror, es: seq<Event>): Mirror
  {
    if es == [] then m else Apply(yourName, ApplyAll(yourName, m, es[..|es| - 1]), es[|es| - 1])
  }

  /** Events after position `n` that carry no conversation leave the conversation and the turn alone. */
  lemma {:induction false} QuietTailKeepsConversation(yourName: string, m: Mirror, es: seq<Event>, n: nat)
    requires n <= |es|
    requires forall j :: n <= j < |es| ==> !es[j].ConversationUpdated?
    ensures ApplyAll(yourName, m, es).conversation == ApplyAll(yourName, m, es[..n]).conversation
    ensures ApplyAll(yourName, m, es).turn == ApplyAll(yourName, m, es[..n]).turn
    decreases |es|
  {
    if |es| > n {
      var init := es[..|es| - 1];
      assert init[..n] == es[..n];
      QuietTailKeepsConversation(yourName, m, init, n);
    } else {
      assert es[..n] == es;
    }
  }

  /** Events after position `n` that carry no status leave the status alone. */
  lemma {:induction false} QuietTailKeepsStatus(yourName: string, m: Mirror, es: seq<Event>, n: nat)
    requires n <= |es|
    requires forall j :: n <= j < |es| ==> !es[j].StatusUpdated?
    ensures ApplyAll(yourName, m, es).status == ApplyAll(yourName, m, es[..n]).status
    decreases |es|
  {
    if |es| > n {
      var init := es[..|es| - 1];
      assert init[..n] == es[..n];
      QuietTailKeepsStatus(yourName, m, init, n);
    } else {
      assert es[..n] == es;
    }
  }

  /** Applying the events up to and including position `k` ends with event `k`. */
  lemma PrefixEndsWith(yourName: string, m: Mirror, es: seq<Event>, k: nat)
    requires k < |es|
    ensures ApplyAll(yourName, m, es[..k + 1]) == Apply(yourName, ApplyAll(yourName, m, es[..k]), es[k])
  {
    assert es[..k + 1][..k] == es[..k];
  }

  /**
   * Draining the queue keeps only the latest conversation, and the turn
   * follows it; with no conversation in the queue both are left as they were.
   */
  lemma LatestConversationWins(yourName: string, m: Mirror, es: seq<Event>)
    ensures forall k :: 0 <= k < |es| && es[k].ConversationUpdated? &&
                        (forall j :: k < j < |es| ==> !es[j].ConversationUpdated?) ==>
              && ApplyAll(yourName, m, es).conversation == es[k].conversation
              && ApplyAll(yourName, m, es).turn == TurnAfter(yourName, es[k].conversation)
    ensures (forall j :: 0 <= j < |es| ==> !es[j].ConversationUpdated?) ==>
              ApplyAll(yourName, m, es).conversation == m.conversation && ApplyAll(yourName, m, es).turn == m.turn
  {
    forall k | 0 <= k < |es| && es[k].ConversationUpdated? && (forall j :: k < j < |es| ==> !es[j].ConversationUpdated?)
      ensures ApplyAll(yourName, m, es).conversation == es[k].conversation
      ensures ApplyAll(yourName, m, es).turn == TurnAfter(yourName, es[k].conversation)
    {
      QuietTailKeepsConversation(yourName, m, es, k + 1);
      PrefixEndsWith(yourName, m, es, k);
    }
    if forall j :: 0 <= j < |es| ==> !es[j].ConversationUpdated? {
      QuietTailKeepsConversation(yourName, m, es, 0);
      assert es[..0] == [];
    }
  }

  /** Draining the queue keeps only the latest status; with none in the queue the status stays. */
  lemma LatestStatusWins(yourName: string, m: Mirror, es: seq<Event>)
    ensures forall k :: 0 <= k < |es| && es[k].StatusUpdated? &&
                        (forall j :: k < j < |es| ==> !es[j].StatusUpdated?) ==>
              ApplyAll(yourName, m, es).status == es[k].status
    ensures (forall j :: 0 <= j < |es| ==> !es[j].StatusUpdated?) ==>
              ApplyAll(yourName, m, es).status == m.status
  {
    forall k | 0 <= k < |es| && es[k].StatusUpdated? && (forall j :: k < j < |es| ==> !es[j].StatusUpdated?)
      ensures ApplyAll(yourName, m, es).status == es[k].status
    {
      QuietTailKeepsStatus(yourName, m, es, k + 1);
      PrefixEndsWith(yourName, m, es, k);
    }
    if forall j :: 0 <= j < |es| ==> !es[j].StatusUpdated? {
      QuietTailKeepsStatus(yourName, m, es, 0);
      assert es[..0] == [];
    }
  }

  /** The mirrored turn always agrees with the mirrored conversation. */
  lemma {:induction false} TurnStaysInSync(yourName: string, m: Mirror, es: seq<Event>)
    requires m.turn == TurnAfter(yourName, m.conversation)
    ensures ApplyAll(yourName, m, es).turn == TurnAfter(yourName, ApplyAll(yourName, m, es).conversation)
    decreases |es|
  {
    if es != [] {
      TurnStaysInSync(yourName, m, es[..|es| - 1]);
    }
  }

  /**
   * The frontend and the backend use different turn rules. They agree when
   * the last speaker is one of the two names and the names differ ...
   */
  lemma TurnRulesAgreeOnTwoSpeakers(yourName: string, theirName: string, conversation: seq<Message>)
    requires yourName != theirName
    requires conversation != [] ==> conversation[|conversation| - 1].sender in {yourName, theirName}
    ensures TurnAfter(yourName, conversation) == User <==> Backend.IsUsersTurn(conversation, theirName)
  {
  }

  /**
   * ... but a conversation whose last speaker is neither name (a renamed
   * user or bot, say) is the user's turn for the frontend and the bot's
   * turn for the backend.
   */
  lemma TurnRulesDisagreeOnAThirdSpeaker(yourName: string, theirName: string, m: Message)
    requires m.sender != yourName && m.sender != theirName
    ensures TurnAfter(yourName, [m]) == User
    ensures !Backend.IsUsersTurn([m], theirName)
  {
    assert [m][|[m]| - 1] == m;
  }

  class FrontendState {
    const env: Env
    /** The text editor widget's key handling. */
    const edit: Editor
    var conversation: seq<Message>
    var status: Status
    var textarea: Buffer
    var turnToSpeak: TurnToSpeak
    /** Events sent by the backend and not yet received. */
    var rx: seq<Event>
    /** Everything sent to the backend, oldest first. */
    var backendTx: seq<Event>
    /** Everything sent to the app, oldest first. */
    var appTx: seq<Event>
    /** The last frame drawn, if any. */
    var frame: Option<Frame>

    function View(): Mirror
      reads this
    {
      Mirror(conversation, status, turnToSpeak)
    }

    /** The turn shown is the one the shown conversation implies. */
    ghost predicate Valid()
      reads this
    {
      turnToSpeak == TurnAfter(env.yourName, conversation)
    }

    /** `State::new`: an empty conversation, the loading status, an empty buffer, the user's turn. */
    constructor (env: Env, edit: Editor)
      ensures Valid()
      ensures this.env == env && this.edit == edit
      ensures View() == Mirror([], LoadingChatbot, User)
      ensures textarea == EMPTY_BUFFER
      ensures rx == [] && backendTx == [] && appTx == [] && frame == None
    {
      this.env := env;
      this.edit := edit;
      conversation := [];
      status := LoadingChatbot;
      textarea := EMPTY_BUFFER;
      turnToSpeak := User;
      rx := [];
      backendTx := [];
      appTx := [];
      frame := None;
    }

    /** The backend's send on the frontend's queue. */
    method Enqueue(e: Event)
      modifies this
      ensures rx == old(rx) + [e]
      ensures View() == old(View()) && textarea == old(textarea)
      ensures backendTx == old(backendTx) && appTx == old(appTx) && frame == old(frame)
    {
      rx := rx + [e];
    }

    /** One key press of `handle_user_input`'s loop. */
    method HandleKeyPress(input: Input)
      modifies this
      ensures var e := HandleKey(edit, turnToSpeak, old(textarea), input);
        && textarea == e.textarea
        && appTx == old(appTx) + e.toApp
        && backendTx == old(backendTx) + e.toBackend
      ensures conversation == old(conversation) && status == old(status) && turnToSpeak == old(turnToSpeak)
      ensures rx == old(rx) && frame == old(frame)
    {
      match input.key {
        case Esc =>
          appTx := appTx + [Quit];
        case Enter =>
          if IsEmpty(textarea) {
          } else if turnToSpeak == User {
            var content := textarea.lines[0];
            textarea := EMPTY_BUFFER;
            backendTx := backendTx + [UserMessage(content)];
          } else {
          }
        case _ =>
          if input.key == Char('m') && input.ctrl && !input.alt {
          } else {
            textarea := edit(textarea, input);
          }
      }
    }

    /** `handle_user_input`: the key presses that arrived within the poll window, in order. */
    method HandleUserInput(inputs: seq<Input>)
      modifies this
      ensures var k := HandleKeys(edit, old(turnToSpeak), old(textarea), inputs);
        && textarea == k.textarea
        && appTx == old(appTx) + k.toApp
        && backendTx == old(backendTx) + k.toBackend
      ensures View() == old(View()) && rx == old(rx) && frame == old(frame)
    {
      var i := 0;
      while i < |inputs|
        invariant 0 <= i <= |inputs|
        invariant var k := HandleKeys(edit, old(turnToSpeak), old(textarea), inputs[..i]);
          && textarea == k.textarea
          && appTx == old(appTx) + k.toApp
          && backendTx == old(backendTx) + k.toBackend
        invariant conversation == old(conversation) && status == old(status) && turnToSpeak == old(turnToSpeak)
        invariant rx == old(rx) && frame == old(frame)
      {
        HandleKeysStep(edit, old(turnToSpeak), old(textarea), inputs, i);
        HandleKeyPress(inputs[i]);
        i := i + 1;
      }
      assert inputs[..|inputs|] == inputs;
    }

    /** `receive_events`: empty the queue from the backend, applying each event. */
    method ReceiveEvents()
      requires Valid()
      modifies this
      ensures Valid()
      ensures View() == ApplyAll(env.yourName, old(View()), old(rx))
      ensures rx == []
      ensures textarea == old(textarea) && backendTx == old(backendTx) && appTx == old(appTx) && frame == old(frame)
    {
      ghost var queued := rx;
      ghost var i := 0;
      while rx != []
        invariant 0 <= i <= |queued| && rx == queued[i..]
        invariant View() == ApplyAll(env.yourName, old(View()), queued[..i])
        invariant textarea == old(textarea) && backendTx == old(backendTx) && appTx == old(appTx) && frame == old(frame)
        decreases |rx|
      {
        var event := rx[0];
        rx := rx[1..];
        assert queued[..i + 1][..i] == queued[..i];
        match event {
          case ConversationUpdated(c) =>
            if c != [] && c[|c| - 1].sender == env.yourName {
              turnToSpeak := Bot;
            } else {
              turnToSpeak := User;
            }
            conversation := c;
          case StatusUpdated(s) =>
            status := s;
          case _ =>
        }
        i := i + 1;
      }
      assert queued[..i] == queued;
      TurnStaysInSync(env.yourName, old(View()), queued);
    }

    /**
     * `tick`: handle the key presses, then drain the backend's events, then
     * redraw. The redraw may fail, or panic on a scroll offset that
     * overflows; the input and the events are handled either way.
     */
    method Tick(inputs: seq<Input>, bottom: U16, drawFails: bool) returns (r: Outcome<string>)
      requires Valid()
      modifies this
      ensures Valid()
      ensures var k := HandleKeys(edit, old(turnToSpeak), old(textarea), inputs);
        && textarea == k.textarea
        && appTx == old(appTx) + k.toApp
        && backendTx == old(backendTx) + k.toBackend
      ensures View() == ApplyAll(env.yourName, old(View()), old(rx))
      ensures rx == []
      ensures drawFails ==> r == Fail("failed to draw to terminal") && frame == old(frame)
      ensures var d := Draw(conversation, textarea, status, bottom);
        && (!drawFails && d.Err? ==> r == Fail(d.error) && frame == old(frame))
        && (!drawFails && d.Ok? ==> r == Pass && frame == Some(d.value))
    {
      HandleUserInput(inputs);
      ReceiveEvents();
      if drawFails {
        return Fail("failed to draw to terminal");
      }
      var d := Draw(conversation, textarea, status, bottom);
      if d.Err? {
        return Fail(d.error);
      }
      frame := Some(d.value);
      return Pass;
    }
  }
}
