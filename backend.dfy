/**
 * The backend actor of the older snapshot: it owns the authoritative
 * conversation, drains the events the frontend sends it and drives at most
 * one outstanding completion request through the states of `Inner`.
 */
module Backend {
  import opened Options
  import opened Messages
  import opened Events
  import opened Prompt
  import opened Persistence

  /** The backend's state machine; both loading states own the reply slot. */
  datatype Inner =
    | BotsTurn
    | LoadingBotResponse(start: int, rx: Handle)
    | TakingAWhileToLoadBotResponse(start: int, rx: Handle)
    | UsersTurn
  {
    predicate Loading()
    {
      LoadingBotResponse? || TakingAWhileToLoadBotResponse?
    }
  }

  /** The backend's rule: the user speaks next iff nobody spoke yet or the bot spoke last. */
  predicate IsUsersTurn(conversation: seq<Message>, theirName: string)
  {
    conversation == [] || conversation[|conversation| - 1].sender == theirName
  }

  /** The state a session starts in, derived from the loaded conversation. */
  function InitialInner(conversation: seq<Message>, theirName: string): (inner: Inner)
    ensures inner == UsersTurn || inner == BotsTurn
    ensures inner == UsersTurn <==> IsUsersTurn(conversation, theirName)
  {
    if IsUsersTurn(conversation, theirName) then UsersTurn else BotsTurn
  }

  /** The events the constructor sends: the loaded conversation, then one status. */
  function Greeting(conversation: seq<Message>, theirName: string): (sent: seq<Event>)
    ensures |sent| == 2
    ensures sent[0] == ConversationUpdated(conversation)
    ensures sent[1].StatusUpdated? && sent[1].status == ReadyToChat(theirName)
  {
    [ConversationUpdated(conversation), StatusUpdated(ReadyToChat(theirName))]
  }

  /**
   * Everything a tick can change: the conversation, the state machine,
   * everything sent to the frontend so far, and every request dispatched.
   */
  datatype BackendView = BackendView(conversation: seq<Message>, inner: Inner, sent: seq<Event>, requests: seq<Request>)

  /** How the backend answers one event from its queue. */
  function Receive(env: Env, now: int, v: BackendView, e: Event): (w: BackendView)
    ensures w.requests == v.requests
    ensures v.conversation <= w.conversation && |w.conversation| <= |v.conversation| + 1
    ensures v.sent <= w.sent
    ensures !e.UserMessage? ==> w == v
  {
    match e
    case UserMessage(content) =>
      var conversation := v.conversation + [Message(|v.conversation|, env.yourName, content, now)];
      v.(conversation := conversation,
         sent := v.sent + [ConversationUpdated(conversation)],
         inner := BotsTurn)
    case _ => v
  }

  /** Draining the queue: the events are answered in the order they were sent. */
  function ReceiveAll(env: Env, now: int, v: BackendView, events: seq<Event>): (w: BackendView)
    ensures w.requests == v.requests
  {
    if events == [] then v
    else Receive(env, now, ReceiveAll(env, now, v, events[..|events| - 1]), events[|events| - 1])
  }

  /** The request a bot's turn dispatches. */
  function RequestFor(env: Env, conversation: seq<Message>): (r: Request)
    ensures r.kind == TextCompletion && r.id == |conversation|
  {
    Request(TextCompletion, |conversation|,
            WindowedPrompt(env.startingPrompt, conversation, env.promptContextLength),
            env.theirName, env.modelName, env.tokenLimit)
  }

  /** One step of the state machine at time `now`. */
  function Advance(env: Env, now: int, v: BackendView): (w: BackendView)
    ensures v.conversation <= w.conversation && |w.conversation| <= |v.conversation| + 1
    ensures v.requests <= w.requests && |w.requests| <= |v.requests| + 1
    ensures v.sent <= w.sent
  {
    match v.inner
    case BotsTurn =>
      v.(inner := LoadingBotResponse(now, Handle(|v.conversation|, None)),
         requests := v.requests + [RequestFor(env, v.conversation)])
    case LoadingBotResponse(start, rx) =>
      if Elapsed(start, now) > env.expectedResponseTime then
        v.(inner := TakingAWhileToLoadBotResponse(start, rx))
      else
        var sent := v.sent + [StatusUpdated(WaitingForBot)];
        var (reply, rest) := CheckForBotResponse(rx);
        if reply.None? then v.(sent := sent, inner := LoadingBotResponse(start, rest))
        else
          var conversation := v.conversation + [reply.value];
          v.(conversation := conversation,
             sent := sent + [ConversationUpdated(conversation), StatusUpdated(BotResponded(Elapsed(start, now)))],
             inner := UsersTurn)
    case TakingAWhileToLoadBotResponse(start, rx) =>
      var sent := v.sent + [StatusUpdated(TakingAWhile(WholeSeconds(Elapsed(start, now))))];
      var (reply, rest) := CheckForBotResponse(rx);
      if reply.None? then v.(sent := sent, inner := TakingAWhileToLoadBotResponse(start, rest))
      else
        var conversation := v.conversation + [reply.value];
        v.(conversation := conversation,
           sent := sent + [ConversationUpdated(conversation), StatusUpdated(BotSlowlyResponded(Elapsed(start, now)))],
           inner := UsersTurn)
    case UsersTurn => v
  }

  /** A whole tick: drain the queue, then advance the state machine once. */
  function AfterTick(env: Env, now: int, v: BackendView, events: seq<Event>): (w: BackendView)
    ensures v.requests <= w.requests && |w.requests| <= |v.requests| + 1
  {
    Advance(env, now, ReceiveAll(env, now, v, events))
  }

  /**
   * The slot being waited on belongs to the task dispatched for the current
   * conversation length, and a reply in it carries that id and the bot's name.
   */
  predicate HandleTracksConversation(env: Env, v: BackendView)
  {
    v.inner.Loading() ==>
      && v.inner.rx.requestId == |v.conversation|
      && (v.inner.rx.reply.Some? ==>
            v.inner.rx.reply.value.id == v.inner.rx.requestId
            && v.inner.rx.reply.value.sender == env.theirName)
  }

  /** Every message from position `from` on has its position as its id. */
  predicate IdsArePositionsFrom(conversation: seq<Message>, from: nat)
  {
    forall k :: from <= k < |conversation| ==> conversation[k].id == k
  }

  /** The messages a drain appends for the given contents, numbered from `first`. */
  function Stamped(name: string, now: int, first: nat, contents: seq<string>): (ms: seq<Message>)
    ensures |ms| == |contents|
    ensures forall j :: 0 <= j < |ms| ==> ms[j] == Message(first + j, name, contents[j], now)
  {
    seq(|contents|, j requires 0 <= j < |contents| => Message(first + j, name, contents[j], now))
  }

  /** The contents of the `UserMessage` events of a queue, in order. */
  function UserContents(events: seq<Event>): seq<string>
  {
    if events == [] then []
    else
      var last := events[|events| - 1];
      UserContents(events[..|events| - 1]) + (if last.UserMessage? then [last.content] else [])
  }

  /**
   * Draining appends exactly one message per `UserMessage`, sent by the user,
   * numbered by position; it dispatches nothing; it notifies the frontend of
   * each new conversation right after the append; and it moves to `BotsTurn`
   * as soon as one user message arrived, whatever the state was.
   */
  lemma {:induction false} ReceiveAllAppendsUserMessages(env: Env, now: int, v: BackendView, events: seq<Event>)
    ensures var w := ReceiveAll(env, now, v, events);
      && w.conversation == v.conversation + Stamped(env.yourName, now, |v.conversation|, UserContents(events))
      && w.requests == v.requests
      && w.inner == (if UserContents(events) == [] then v.inner else BotsTurn)
      && |w.sent| == |v.sent| + |UserContents(events)|
      && w.sent[..|v.sent|] == v.sent
      && (forall j :: |v.sent| <= j < |w.sent| ==>
            w.sent[j] == ConversationUpdated(w.conversation[..|v.conversation| + (j - |v.sent|) + 1]))
    decreases |events|
  {
    if events != [] {
      var init := events[..|events| - 1];
      var last := events[|events| - 1];
      ReceiveAllAppendsUserMessages(env, now, v, init);
      var u := ReceiveAll(env, now, v, init);
      var cs := UserContents(init);
      var n := |v.conversation|;
      if last.UserMessage? {
        var w := Receive(env, now, u, last);
        assert UserContents(events) == cs + [last.content];
        var stamped := Stamped(env.yourName, now, n, cs + [last.content]);
        assert stamped == Stamped(env.yourName, now, n, cs) + [Message(n + |cs|, env.yourName, last.content, now)];
        assert w.conversation == v.conversation + stamped;
        forall j | |v.sent| <= j < |w.sent|
          ensures w.sent[j] == ConversationUpdated(w.conversation[..n + (j - |v.sent|) + 1])
        {
          if j < |u.sent| {
            assert w.conversation[..n + (j - |v.sent|) + 1] == u.conversation[..n + (j - |v.sent|) + 1];
          } else {
            assert w.conversation[..n + (j - |v.sent|) + 1] == w.conversation;
          }
        }
      } else {
        assert UserContents(events) == cs;
      }
    }
  }

  /** Only `BotsTurn` dispatches, exactly one request, and it changes nothing else but the state. */
  lemma OnlyBotsTurnDispatches(env: Env, now: int, v: BackendView)
    ensures var w := Advance(env, now, v);
      && |w.requests| == |v.requests| + (if v.inner == BotsTurn then 1 else 0)
      && w.requests[..|v.requests|] == v.requests
      && (v.inner == BotsTurn ==>
            && w.requests[|v.requests|] == RequestFor(env, v.conversation)
            && w.requests[|v.requests|].id == |v.conversation|
            && w.inner == LoadingBotResponse(now, Handle(|v.conversation|, None))
            && w.conversation == v.conversation
            && w.sent == v.sent)
  {
  }

  /**
   * A loading tick escalates exactly when the elapsed time is strictly above
   * the expected response time; escalation keeps the start time and the slot
   * and neither sends a status nor polls the slot.
   */
  lemma EscalationIsStrict(env: Env, now: int, v: BackendView)
    requires v.inner.LoadingBotResponse?
    ensures var w := Advance(env, now, v);
      && (w.inner.TakingAWhileToLoadBotResponse? <==> Elapsed(v.inner.start, now) > env.expectedResponseTime)
      && (w.inner.TakingAWhileToLoadBotResponse? ==>
            w.inner.start == v.inner.start && w.inner.rx == v.inner.rx
            && w.sent == v.sent && w.conversation == v.conversation)
      && (!w.inner.TakingAWhileToLoadBotResponse? ==>
            |w.sent| > |v.sent| && w.sent[|v.sent|] == StatusUpdated(WaitingForBot))
  {
  }

  /** No state other than `BotsTurn` moves into `LoadingBotResponse`, and the slow state only leaves for the user's turn. */
  lemma NoReturnToLoading(env: Env, now: int, v: BackendView)
    ensures Advance(env, now, v).inner.LoadingBotResponse? ==> v.inner.BotsTurn? || v.inner.LoadingBotResponse?
    ensures v.inner.TakingAWhileToLoadBotResponse? ==>
              Advance(env, now, v).inner.TakingAWhileToLoadBotResponse? || Advance(env, now, v).inner == UsersTurn
  {
  }

  /**
   * A reply waiting in the slot of a polled loading state is appended; the
   * frontend hears of the new conversation before the status; the turn goes
   * back to the user. An empty slot changes neither conversation nor state.
   */
  lemma ReplyIsAppendedThenAnnounced(env: Env, now: int, v: BackendView)
    requires v.inner.TakingAWhileToLoadBotResponse?
             || (v.inner.LoadingBotResponse? && Elapsed(v.inner.start, now) <= env.expectedResponseTime)
    ensures var w, elapsed := Advance(env, now, v), Elapsed(v.inner.start, now);
      var waiting := if v.inner.LoadingBotResponse? then WaitingForBot else TakingAWhile(WholeSeconds(elapsed));
      var responded := if v.inner.LoadingBotResponse? then BotResponded(elapsed) else BotSlowlyResponded(elapsed);
      && w.requests == v.requests
      && (v.inner.rx.reply.Some? ==>
            && w.conversation == v.conversation + [v.inner.rx.reply.value]
            && w.sent == v.sent + [StatusUpdated(waiting), ConversationUpdated(w.conversation), StatusUpdated(responded)]
            && w.inner == UsersTurn)
      && (v.inner.rx.reply.None? ==>
            && w.conversation == v.conversation
            && w.inner == v.inner
            && w.sent == v.sent + [StatusUpdated(waiting)])
  {
  }

  /** On the user's turn a tick sends nothing and changes nothing. */
  lemma UsersTurnIsInert(env: Env, now: int, v: BackendView)
    requires v.inner == UsersTurn
    ensures Advance(env, now, v) == v
  {
  }

  /** Draining keeps the slot invariant: a user message drops the slot altogether. */
  lemma {:induction false} ReceiveAllKeepsHandleInvariant(env: Env, now: int, v: BackendView, events: seq<Event>)
    requires HandleTracksConversation(env, v)
    ensures HandleTracksConversation(env, ReceiveAll(env, now, v, events))
    decreases |events|
  {
    if events != [] {
      ReceiveAllKeepsHandleInvariant(env, now, v, events[..|events| - 1]);
    }
  }

  /**
   * A tick keeps the slot invariant, and every message it appends, from the
   * user or from the bot, has its position in the conversation as its id.
   */
  lemma TickNumbersMessagesByPosition(env: Env, now: int, v: BackendView, events: seq<Event>)
    requires HandleTracksConversation(env, v)
    ensures var w := AfterTick(env, now, v, events);
      && HandleTracksConversation(env, w)
      && |v.conversation| <= |w.conversation|
      && w.conversation[..|v.conversation|] == v.conversation
      && IdsArePositionsFrom(w.conversation, |v.conversation|)
  {
    ReceiveAllAppendsUserMessages(env, now, v, events);
    ReceiveAllKeepsHandleInvariant(env, now, v, events);
    var u := ReceiveAll(env, now, v, events);
    assert IdsArePositionsFrom(u.conversation, |v.conversation|);
    var w := Advance(env, now, u);
    assert w.conversation == u.conversation || w.conversation == u.conversation + [u.inner.rx.reply.value];
  }

  /**
   * The defect of the source, made visible: a user message that arrives while
   * a reply is still loading drops the pending slot and re-arms `BotsTurn`,
   * so the same tick dispatches a second request for the same bot turn.
   */
  lemma UserMessageMidRequestRedispatches(env: Env, now: int, v: BackendView, content: string)
    requires v.inner.Loading() && HandleTracksConversation(env, v)
    ensures var w := AfterTick(env, now, v, [UserMessage(content)]);
      && |w.requests| == |v.requests| + 1
      && w.requests[|v.requests|].id == |v.conversation| + 1
      && w.inner == LoadingBotResponse(now, Handle(|v.conversation| + 1, None))
      && w.inner.rx != v.inner.rx
  {
    var queue := [UserMessage(content)];
    assert queue[..|queue| - 1] == [] && queue[|queue| - 1] == UserMessage(content);
    assert ReceiveAll(env, now, v, queue[..|queue| - 1]) == v;
    var u := ReceiveAll(env, now, v, queue);
    assert u == Receive(env, now, v, UserMessage(content));
    assert u.inner == BotsTurn && |u.conversation| == |v.conversation| + 1;
  }

  /** The spawned task's delivery: the reply it fills the slot with. */
  function Deliver(env: Env, v: BackendView, content: string, timestamp: int): BackendView
    requires v.inner.Loading() && v.inner.rx.reply.None?
  {
    var reply := Message(v.inner.rx.requestId, env.theirName, content, timestamp);
    v.(inner := v.inner.(rx := v.inner.rx.(reply := Some(reply))))
  }

  /** A delivery keeps the slot invariant and changes nothing the frontend can see. */
  lemma DeliverKeepsHandleInvariant(env: Env, v: BackendView, content: string, timestamp: int)
    requires v.inner.Loading() && v.inner.rx.reply.None?
    requires HandleTracksConversation(env, v)
    ensures var w := Deliver(env, v, content, timestamp);
      && HandleTracksConversation(env, w)
      && w.conversation == v.conversation && w.sent == v.sent && w.requests == v.requests
      && w.inner.rx.reply.Some? && w.inner.rx.reply.value.content == content
  {
  }

  /** `BackendState`: the actor, with its queues as sequences. */
  class BackendState {
    const env: Env
    var conn: Store
    var conversation: seq<Message>
    var inner: Inner
    /** Events sent by the frontend and not yet received. */
    var rx: seq<Event>
    /** Everything sent to the frontend, oldest first. */
    var frontendTx: seq<Event>
    /** Every request handed to the completion service, oldest first. */
    var requests: seq<Request>

    function View(): BackendView
      reads this
    {
      BackendView(conversation, inner, frontendTx, requests)
    }

    ghost predicate Valid()
      reads this
    {
      HandleTracksConversation(env, View())
    }

    /** `BackendState::new`: load, derive the turn, greet the frontend. */
    constructor (env: Env, store: Store)
      ensures Valid()
      ensures this.env == env
      ensures (conn, conversation) == LoadPrevious(store)
      ensures inner == InitialInner(conversation, env.theirName)
      ensures frontendTx == Greeting(conversation, env.theirName)
      ensures rx == [] && requests == []
    {
      this.env := env;
      var (c, previous) := LoadPrevious(store);
      conn := c;
      conversation := previous;
      inner := if IsUsersTurn(previous, env.theirName) then UsersTurn else BotsTurn;
      var sent := [ConversationUpdated(previous)];
      sent := sent + [StatusUpdated(ReadyToChat(env.theirName))];
      frontendTx := sent;
      rx := [];
      requests := [];
    }

    /** The frontend's send on the backend's queue. */
    method Enqueue(e: Event)
      modifies this
      ensures rx == old(rx) + [e]
      ensures View() == old(View()) && conn == old(conn)
    {
      rx := rx + [e];
    }

    /** The spawned task filling its slot with the bot's reply. */
    method Respond(content: string, timestamp: int)
      requires Valid()
      requires inner.Loading() && inner.rx.reply.None?
      modifies this
      ensures Valid()
      ensures View() == Deliver(env, old(View()), content, timestamp)
      ensures rx == old(rx) && conn == old(conn)
    {
      var reply := Message(inner.rx.requestId, env.theirName, content, timestamp);
      inner := inner.(rx := inner.rx.(reply := Some(reply)));
    }

    /** `tick`: drain the queue, then drive the state machine once. */
    method Tick(now: int)
      requires Valid()
      modifies this
      ensures Valid()
      ensures View() == AfterTick(env, now, old(View()), old(rx))
      ensures rx == [] && conn == old(conn)
    {
      ReceiveEvents(now);
      DriveStateMachine(now);
    }

    /** The first half of `tick`: every queued event, oldest first. */
    method ReceiveEvents(now: int)
      requires Valid()
      modifies this
      ensures Valid()
      ensures View() == ReceiveAll(env, now, old(View()), old(rx))
      ensures rx == [] && conn == old(conn)
    {
      ghost var queued := rx;
      ghost var start := View();
      var i := 0;
      while rx != []
        invariant 0 <= i <= |queued|
        invariant rx == queued[i..]
        invariant View() == ReceiveAll(env, now, start, queued[..i])
        invariant conn == old(conn)
        decreases |rx|
      {
        var event := rx[0];
        rx := rx[1..];
        match event {
          case UserMessage(content) =>
            var message := Message(|conversation|, env.yourName, content, now);
            conversation := conversation + [message];
            frontendTx := frontendTx + [ConversationUpdated(conversation)];
            inner := BotsTurn;
          case _ =>
        }
        assert queued[..i + 1][..i] == queued[..i];
        i := i + 1;
      }
      assert queued[..i] == queued;
      ReceiveAllKeepsHandleInvariant(env, now, start, queued);
    }

    /** The second half of `tick`: one step of the state machine. */
    method DriveStateMachine(now: int)
      requires Valid()
      modifies this
      ensures Valid()
      ensures View() == Advance(env, now, old(View()))
      ensures rx == old(rx) && conn == old(conn)
    {
      match inner {
        case BotsTurn =>
          var id := |conversation|;
          var prompt := CreatePromptFromMessages(env.startingPrompt, conversation, env.promptContextLength);
          requests := requests + [Request(TextCompletion, id, prompt, env.theirName, env.modelName, env.tokenLimit)];
          inner := LoadingBotResponse(now, Handle(id, None));
        case LoadingBotResponse(startTime, handle) =>
          if Elapsed(startTime, now) > env.expectedResponseTime {
            inner := TakingAWhileToLoadBotResponse(startTime, handle);
            return;
          }
          frontendTx := frontendTx + [StatusUpdated(WaitingForBot)];
          var (reply, rest) := CheckForBotResponse(handle);
          inner := LoadingBotResponse(startTime, rest);
          if reply.Some? {
            conversation := conversation + [reply.value];
            frontendTx := frontendTx + [ConversationUpdated(conversation)];
            frontendTx := frontendTx + [StatusUpdated(BotResponded(Elapsed(startTime, now)))];
            inner := UsersTurn;
          }
        case TakingAWhileToLoadBotResponse(startTime, handle) =>
          frontendTx := frontendTx + [StatusUpdated(TakingAWhile(WholeSeconds(Elapsed(startTime, now))))];
          var (reply, rest) := CheckForBotResponse(handle);
          inner := TakingAWhileToLoadBotResponse(startTime, rest);
          if reply.Some? {
            conversation := conversation + [reply.value];
            frontendTx := frontendTx + [ConversationUpdated(conversation)];
            frontendTx := frontendTx + [StatusUpdated(BotSlowlyResponded(Elapsed(startTime, now)))];
            inner := UsersTurn;
          }
        case UsersTurn =>
      }
    }

    /**
     * `quit`: commit the conversation under the starting prompt, then write
     * the database to its file. Either step may fail (`commitFails`,
     * `saveFails`); a failed commit leaves the store as it was and skips
     * the save. An empty conversation commits nothing and cannot fail.
     * Through a file connection the commit reaches the file even when the
     * save then fails.
     */
    method Quit(commitFails: bool, saveFails: bool) returns (r: Outcome<PersistenceError>)
      modifies this
      ensures conversation == old(conversation) && inner == old(inner)
      ensures conversation != [] && commitFails ==> r == Fail(CommitFailed) && conn == old(conn)
      ensures (conversation == [] || !commitFails) && saveFails ==>
                r == Fail(SaveFailed) && conn == Commit(old(conn), env.startingPrompt, conversation)
      ensures (conversation == [] || !commitFails) && !saveFails ==>
                r == Pass && conn == SaveToFile(Commit(old(conn), env.startingPrompt, conversation))
    {
      if conversation != [] && commitFails {
        return Fail(CommitFailed);
      }
      conn := Commit(conn, env.startingPrompt, conversation);
      if saveFails {
        return Fail(SaveFailed);
      }
      conn := SaveToFile(conn);
      r := Pass;
    }
  }
}
