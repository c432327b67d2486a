/**
 * The vocabulary the actors share: the events they exchange over their
 * queues, whose turn it is, the status lines the backend reports, the
 * configuration record, the requests handed to the completion service and
 * the single-slot handle through which one reply comes back.
 */
module Events {
  import opened Options
  import opened Messages

  /** `app::Event`, the closed set of messages carried by every queue. */
  datatype Event =
    | Quit
    | UserMessage(content: string)
    | ConversationUpdated(conversation: seq<Message>)
    | StatusUpdated(status: Status)

  /** Who may produce the next message. */
  datatype TurnToSpeak = User | Bot

  /**
   * The status lines the backend sends. Each one is kept as a tag with its
   * payload; `Render` spells out the fixed text around the payload.
   * Durations are in milliseconds, the slow-response counter in whole seconds.
   */
  datatype Status =
    | LoadingChatbot
    | ReadyToChat(theirName: string)
    | WaitingForBot
    | TakingAWhile(seconds: nat)
    | BotResponded(elapsed: nat)
    | BotSlowlyResponded(elapsed: nat)

  /** Decimal digits of a natural number. */
  function Digits(n: nat): (s: string)
    ensures |s| > 0
    ensures forall i :: 0 <= i < |s| ==> '0' <= s[i] <= '9'
    decreases n
  {
    var d := ['0' + (n % 10) as char];
    if n < 10 then d else Digits(n / 10) + d
  }

  function Render(s: Status): string
  {
    match s
    case LoadingChatbot => "loading the chatbot..."
    case ReadyToChat(name) => name + " is ready to chat. Please type your input and press ENTER"
    case WaitingForBot => "Waiting for bot's response"
    case TakingAWhile(secs) => "Waiting for bot's response, It's taking a while (" + Digits(secs) + "s)"
    case BotResponded(ms) => "Bot responded in " + Digits(ms) + "ms"
    case BotSlowlyResponded(ms) => "Bot slowly responded in " + Digits(ms) + "ms"
  }

  /**
   * The configuration both actors read (`app::env::Env`). Durations are in
   * milliseconds; `tokenLimit` is a `u32` in the source.
   */
  datatype Env = Env(
    yourName: string,
    theirName: string,
    startingPrompt: string,
    modelName: string,
    expectedResponseTime: nat,
    promptContextLength: nat,
    userInputPollDuration: nat,
    tokenLimit: nat)

  /** The values `Env::new` falls back to when a variable is unset. */
  const DEFAULT_YOUR_NAME: string := "User"
  const DEFAULT_THEIR_NAME: string := "Bot"
  const DEFAULT_MODEL_NAME: string := "text-davinci-003"
  const DEFAULT_TOKEN_LIMIT: nat := 100
  const DEFAULT_EXPECTED_RESPONSE_TIME: nat := 5000
  const DEFAULT_PROMPT_CONTEXT_LENGTH: nat := 5
  const DEFAULT_USER_INPUT_POLL_DURATION: nat := 10

  /**
   * What the spawned task does with the request: the text mode asks for a
   * completion; the call mode first uploads and transcribes speech.
   */
  datatype TaskKind = TextCompletion | SpeechThenCompletion

  /** The arguments of one `fetch_response_to_prompt` call, i.e. one dispatch. */
  datatype Request = Request(
    kind: TaskKind,
    id: nat,
    prompt: string,
    responder: string,
    model: string,
    tokenLimit: nat)

  /**
   * The receiving half of the reply channel of one spawned task. The task
   * was given the id `requestId`; `reply` is the one message it may deliver.
   * A task that fails never fills the slot, so `reply` may stay `None` forever.
   */
  datatype Handle = Handle(requestId: nat, reply: Option<Message>)

  /**
   * `check_for_bot_response`: a non-blocking poll of the slot. A waiting
   * reply is taken out of the slot; an empty slot is left as it is.
   */
  function CheckForBotResponse(rx: Handle): (r: (Option<Message>, Handle))
    ensures r.1.requestId == rx.requestId
    ensures r.1.reply == None
    ensures rx.reply.None? ==> r == (None, rx)
    ensures rx.reply.Some? ==> r.0 == rx.reply
  {
    (rx.reply, rx.(reply := None))
  }

  /** `Instant::elapsed`: time since `start`, saturating at zero. */
  function Elapsed(start: int, now: int): (d: nat)
    ensures now >= start ==> d == now - start
    ensures now < start ==> d == 0
  {
    if now >= start then now - start else 0
  }

  /** `Duration::as_secs` of an elapsed time in milliseconds. */
  function WholeSeconds(ms: nat): (s: nat)
    ensures s * 1000 <= ms < s * 1000 + 1000
  {
    ms / 1000
  }
}
