/**
 * The bot's state machine of the newer backend snapshot, shared by its two
 * modes: in text mode the spawned task asks the completion service for a
 * reply, in call mode it first uploads and transcribes speech and then asks
 * for the reply. Whose turn it is is a separate field, `turnToSpeak`.
 */
module BotMachine {
  import opened Options
  import opened Messages
  import opened Events
  import opened Prompt

  /** The request states; both loading states own the reply slot. */
  datatype Inner =
    | SendRequest
    | LoadingBotResponse(start: int, rx: Handle)
    | TakingAWhileToLoadBotResponse(start: int, rx: Handle)

  /** The mode the session was started in (`Action`). */
  datatype Mode = Text | Call

  /** Everything one step can change. */
  datatype MachineView = MachineView(
    conversation: seq<Message>,
    inner: Inner,
    turnToSpeak: TurnToSpeak,
    sent: seq<Event>,
    requests: seq<Request>)

  function TaskFor(mode: Mode): TaskKind
  {
    match mode
    case Text => TextCompletion
    case Call => SpeechThenCompletion
  }

  /**
   * The request dispatched for the current conversation. The prompt builder
   * these files import from the message module is not defined there; it is
   * taken to be the windowed builder of the backend's state module.
   */
  function RequestFor(env: Env, mode: Mode, conversation: seq<Message>): (r: Request)
    ensures r.id == |conversation|
    ensures r.kind == TextCompletion <==> mode == Text
  {
    Request(TaskFor(mode), |conversation|,
            WindowedPrompt(env.startingPrompt, conversation, env.promptContextLength),
            env.theirName, env.modelName, env.tokenLimit)
  }

  /** `run_bot_state_machine` at time `now`. */
  function Step(env: Env, mode: Mode, now: int, v: MachineView): (w: MachineView)
    ensures v.conversation <= w.conversation && |w.conversation| <= |v.conversation| + 1
    ensures v.requests <= w.requests && |w.requests| <= |v.requests| + 1
    ensures v.sent <= w.sent
  {
    match v.inner
    case SendRequest =>
      v.(inner := LoadingBotResponse(now, Handle(|v.conversation|, None)),
         requests := v.requests + [RequestFor(env, mode, v.conversation)])
    case LoadingBotResponse(start, rx) =>
      if Elapsed(start, now) > env.expectedResponseTime then
        v.(inner := TakingAWhileToLoadBotResponse(start, rx))
      else
        var sent := v.sent + [StatusUpdated(WaitingForBot)];
        var (reply, rest) := CheckForBotResponse(rx);
        if reply.None? then v.(sent := sent, inner := LoadingBotResponse(start, rest))
        else
          var conversation := v.conversation + [reply.value];
          v.(conversation := conversation,
             sent := sent + [ConversationUpdated(conversation), StatusUpdated(BotResponded(Elapsed(start, now)))],
             turnToSpeak := User,
             inner := SendRequest)
    case TakingAWhileToLoadBotResponse(start, rx) =>
      var sent := v.sent + [StatusUpdated(TakingAWhile(WholeSeconds(Elapsed(start, now))))];
      var (reply, rest) := CheckForBotResponse(rx);
      if reply.None? then v.(sent := sent, inner := TakingAWhileToLoadBotResponse(start, rest))
      else
        var conversation := v.conversation + [reply.value];
        v.(conversation := conversation,
           sent := sent + [ConversationUpdated(conversation), StatusUpdated(BotSlowlyResponded(Elapsed(start, now)))],
           turnToSpeak := User,
           inner := SendRequest)
  }

  /** Successive steps at the given clock readings, with no delivery in between. */
  function Run(env: Env, mode: Mode, v: MachineView, clock: seq<int>): (w: MachineView)
    ensures v.conversation <= w.conversation && |w.conversation| <= |v.conversation| + |clock|
    ensures v.requests <= w.requests && |w.requests| <= |v.requests| + |clock|
    ensures v.sent <= w.sent
  {
    if clock == [] then v
    else Step(env, mode, clock[|clock| - 1], Run(env, mode, v, clock[..|clock| - 1]))
  }

  /** The slot being waited on belongs to the request for the current conversation. */
  predicate HandleTracksConversation(env: Env, v: MachineView)
  {
    !v.inner.SendRequest? ==>
      && v.inner.rx.requestId == |v.conversation|
      && (v.inner.rx.reply.Some? ==>
            v.inner.rx.reply.value.id == v.inner.rx.requestId
            && v.inner.rx.reply.value.sender == env.theirName)
  }

  /** The spawned task's delivery: the reply it fills the slot with. */
  function Deliver(env: Env, v: MachineView, content: string, timestamp: int): MachineView
    requires !v.inner.SendRequest? && v.inner.rx.reply.None?
  {
    var reply := Message(v.inner.rx.requestId, env.theirName, content, timestamp);
    v.(inner := v.inner.(rx := v.inner.rx.(reply := Some(reply))))
  }

  /**
   * From `SendRequest` exactly one request is dispatched, numbered by the
   * conversation length, and the machine waits on a fresh empty slot;
   * conversation, turn and sent events are untouched.
   */
  lemma SendRequestDispatchesOnce(env: Env, mode: Mode, now: int, v: MachineView)
    requires v.inner == SendRequest
    ensures var w := Step(env, mode, now, v);
      && w.requests == v.requests + [RequestFor(env, mode, v.conversation)]
      && w.requests[|v.requests|].id == |v.conversation|
      && w.inner == LoadingBotResponse(now, Handle(|v.conversation|, None))
      && w.conversation == v.conversation && w.turnToSpeak == v.turnToSpeak && w.sent == v.sent
  {
  }

  /** Only `SendRequest` dispatches. */
  lemma OnlySendRequestDispatches(env: Env, mode: Mode, now: int, v: MachineView)
    requires !v.inner.SendRequest?
    ensures Step(env, mode, now, v).requests == v.requests
  {
  }

  /**
   * Escalation happens iff the elapsed time strictly exceeds the expected
   * response time; it keeps the start time and the slot, sends nothing and
   * polls nothing. A loading tick that does not escalate first reports that
   * it is waiting, then polls.
   */
  lemma EscalationIsStrict(env: Env, mode: Mode, now: int, v: MachineView)
    requires v.inner.LoadingBotResponse?
    ensures var w := Step(env, mode, now, v);
      && (w.inner.TakingAWhileToLoadBotResponse? <==> Elapsed(v.inner.start, now) > env.expectedResponseTime)
      && (w.inner.TakingAWhileToLoadBotResponse? ==>
            w.inner == TakingAWhileToLoadBotResponse(v.inner.start, v.inner.rx)
            && w.sent == v.sent && w.conversation == v.conversation && w.turnToSpeak == v.turnToSpeak)
      && (!w.inner.TakingAWhileToLoadBotResponse? ==>
            |w.sent| > |v.sent| && w.sent[|v.sent|] == StatusUpdated(WaitingForBot))
  {
  }

  /**
   * A reply in the slot of a polled loading state is appended, the new
   * conversation is announced before the status, the turn goes to the user
   * and the machine is re-armed. With an empty slot only a status is sent.
   */
  lemma ReplyHandsTurnToUser(env: Env, mode: Mode, now: int, v: MachineView)
    requires v.inner.TakingAWhileToLoadBotResponse?
             || (v.inner.LoadingBotResponse? && Elapsed(v.inner.start, now) <= env.expectedResponseTime)
    ensures var w, elapsed := Step(env, mode, now, v), Elapsed(v.inner.start, now);
      var waiting := if v.inner.LoadingBotResponse? then WaitingForBot else TakingAWhile(WholeSeconds(elapsed));
      var responded := if v.inner.LoadingBotResponse? then BotResponded(elapsed) else BotSlowlyResponded(elapsed);
      && w.requests == v.requests
      && (v.inner.rx.reply.Some? ==>
            && w.conversation == v.conversation + [v.inner.rx.reply.value]
            && w.sent == v.sent + [StatusUpdated(waiting), ConversationUpdated(w.conversation), StatusUpdated(responded)]
            && w.turnToSpeak == User
            && w.inner == SendRequest)
      && (v.inner.rx.reply.None? ==>
            && w.conversation == v.conversation
            && w.turnToSpeak == v.turnToSpeak
            && w.inner == v.inner
            && w.sent == v.sent + [StatusUpdated(waiting)])
  {
  }

  /**
   * The slow state reports the elapsed whole seconds on every tick and only
   * ever leaves for `SendRequest`; it never returns to `LoadingBotResponse`.
   */
  lemma SlowStateOnlyLeavesToSendRequest(env: Env, mode: Mode, now: int, v: MachineView)
    requires v.inner.TakingAWhileToLoadBotResponse?
    ensures var w := Step(env, mode, now, v);
      && w.sent[|v.sent|] == StatusUpdated(TakingAWhile(WholeSeconds(Elapsed(v.inner.start, now))))
      && (w.inner.TakingAWhileToLoadBotResponse? || w.inner == SendRequest)
      && !w.inner.LoadingBotResponse?
  {
  }

  /** The two modes behave alike; they differ only in what the spawned task does. */
  lemma ModesDifferOnlyInTask(env: Env, now: int, v: MachineView)
    ensures var t := Step(env, Text, now, v);
            var c := Step(env, Call, now, v);
      && t.conversation == c.conversation && t.inner == c.inner
      && t.turnToSpeak == c.turnToSpeak && t.sent == c.sent
      && |t.requests| == |c.requests|
      && (forall i :: 0 <= i < |t.requests| ==> t.requests[i].(kind := c.requests[i].kind) == c.requests[i])
  {
  }

  /** A step keeps the slot invariant, and a reply lands at the position its id names. */
  lemma StepKeepsHandleInvariant(env: Env, mode: Mode, now: int, v: MachineView)
    requires HandleTracksConversation(env, v)
    ensures var w := Step(env, mode, now, v);
      && HandleTracksConversation(env, w)
      && (|w.conversation| > |v.conversation| ==>
            w.conversation == v.conversation + [w.conversation[|v.conversation|]]
            && w.conversation[|v.conversation|].id == |v.conversation|
            && w.conversation[|v.conversation|].sender == env.theirName)
  {
  }

  /**
   * However many ticks run while the slot stays empty, at most one request
   * is dispatched, and none at all once a request is outstanding.
   */
  lemma {:induction false} AtMostOneDispatchPerTurn(env: Env, mode: Mode, v: MachineView, clock: seq<int>)
    requires !v.inner.SendRequest? ==> v.inner.rx.reply.None?
    ensures var w := Run(env, mode, v, clock);
      && |v.requests| <= |w.requests| <= |v.requests| + 1
      && (!v.inner.SendRequest? ==> w.requests == v.requests)
      && (clock != [] ==> !w.inner.SendRequest? && w.inner.rx.reply.None?)
      && w.conversation == v.conversation
    decreases |clock|
  {
    if clock != [] {
      var init := clock[..|clock| - 1];
      AtMostOneDispatchPerTurn(env, mode, v, init);
      var u := Run(env, mode, v, init);
      if init != [] {
        assert !u.inner.SendRequest?;
        OnlySendRequestDispatches(env, mode, clock[|clock| - 1], u);
      }
    }
  }

  /** `Elapsed` never decreases as the clock advances. */
  lemma ElapsedIsMonotone(start: int, a: int, b: int)
    requires a <= b
    ensures Elapsed(start, a) <= Elapsed(start, b)
  {
  }

  /**
   * With a clock that never runs backwards and a slot that stays empty, the
   * machine is in the slow state after a tick iff the time elapsed since the
   * request strictly exceeds the expected response time; the start time and
   * the slot are kept, and the machine never falls back to plain loading.
   */
  lemma {:induction false} SlowIffOverdue(env: Env, mode: Mode, v: MachineView, clock: seq<int>)
    requires v.inner.LoadingBotResponse? && v.inner.rx.reply.None?
    requires forall i, j :: 0 <= i <= j < |clock| ==> clock[i] <= clock[j]
    ensures var w := Run(env, mode, v, clock);
      && (w.inner.LoadingBotResponse? || w.inner.TakingAWhileToLoadBotResponse?)
      && w.inner.start == v.inner.start && w.inner.rx == v.inner.rx
      && (w.inner.TakingAWhileToLoadBotResponse? <==>
            clock != [] && Elapsed(v.inner.start, clock[|clock| - 1]) > env.expectedResponseTime)
      && w.conversation == v.conversation && w.requests == v.requests
    decreases |clock|
  {
    if clock != [] {
      var init := clock[..|clock| - 1];
      SlowIffOverdue(env, mode, v, init);
      if init != [] {
        ElapsedIsMonotone(v.inner.start, init[|init| - 1], clock[|clock| - 1]);
      }
    }
  }

  /** The backend state of the newer snapshot, as far as the machine touches it. */
  class State {
    const env: Env
    var conversation: seq<Message>
    var inner: Inner
    var turnToSpeak: TurnToSpeak
    /** Everything sent to the frontend, oldest first. */
    var frontendTx: seq<Event>
    /** Every request handed to a spawned task, oldest first. */
    var requests: seq<Request>

    function View(): MachineView
      reads this
    {
      MachineView(conversation, inner, turnToSpeak, frontendTx, requests)
    }

    ghost predicate Valid()
      reads this
    {
      HandleTracksConversation(env, View())
    }

    /** The spawned task filling its slot with the bot's reply. */
    method Respond(content: string, timestamp: int)
      requires Valid()
      requires !inner.SendRequest? && inner.rx.reply.None?
      modifies this
      ensures Valid()
      ensures View() == Deliver(env, old(View()), content, timestamp)
    {
      var reply := Message(inner.rx.requestId, env.theirName, content, timestamp);
      inner := inner.(rx := inner.rx.(reply := Some(reply)));
    }

    /** `run_bot_state_machine`, for either mode. */
    method RunBotStateMachine(mode: Mode, now: int)
      requires Valid()
      modifies this
      ensures Valid()
      ensures View() == Step(env, mode, now, old(View()))
    {
      StepKeepsHandleInvariant(env, mode, now, View());
      match inner {
        case SendRequest =>
          var id := |conversation|;
          var prompt := CreatePromptFromMessages(env.startingPrompt, conversation, env.promptContextLength);
          requests := requests + [Request(TaskFor(mode), id, prompt, env.theirName, env.modelName, env.tokenLimit)];
          inner := LoadingBotResponse(now, Handle(id, None));
        case LoadingBotResponse(start, handle) =>
          if Elapsed(start, now) > env.expectedResponseTime {
            inner := TakingAWhileToLoadBotResponse(start, handle);
            return;
          }
          frontendTx := frontendTx + [StatusUpdated(WaitingForBot)];
          var (reply, rest) := CheckForBotResponse(handle);
          inner := LoadingBotResponse(start, rest);
          if reply.Some? {
            conversation := conversation + [reply.value];
            frontendTx := frontendTx + [ConversationUpdated(conversation)];
            frontendTx := frontendTx + [StatusUpdated(BotResponded(Elapsed(start, now)))];
            turnToSpeak := User;
            inner := SendRequest;
          }
        case TakingAWhileToLoadBotResponse(start, handle) =>
          frontendTx := frontendTx + [StatusUpdated(TakingAWhile(WholeSeconds(Elapsed(start, now))))];
          var (reply, rest) := CheckForBotResponse(handle);
          inner := TakingAWhileToLoadBotResponse(start, rest);
          if reply.Some? {
            conversation := conversation + [reply.value];
            frontendTx := frontendTx + [ConversationUpdated(conversation)];
            frontendTx := frontendTx + [StatusUpdated(BotSlowlyResponded(Elapsed(start, now)))];
            turnToSpeak := User;
            inner := SendRequest;
          }
      }
    }
  }
}
