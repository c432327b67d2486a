/**
 * The older, single-threaded chat state: a list of messages and a small
 * typing/sent state machine.
 */
module LegacyState {
  import opened Options
  import opened Messages

  datatype Inner =
    | BotIsTyping
    | BotSentMessage(message: Message)
    | UserIsTyping
    | UserSentMessage(message: Message)
    | Quitting

  /** The status line for each state. */
  function StatusMessage(inner: Inner): string
  {
    match inner
    case BotIsTyping => "Bot is typing..."
    case BotSentMessage(_) => "Bot sent a message"
    case UserIsTyping => "User is typing..."
    case UserSentMessage(_) => "User sent a message"
    case Quitting => "Quitting..."
  }

  /** Two states share a status line exactly when they are the same kind of state. */
  lemma StatusMessageNamesTheState(a: Inner, b: Inner)
    ensures StatusMessage(a) == StatusMessage(b) <==>
      && a.BotIsTyping? == b.BotIsTyping? && a.BotSentMessage? == b.BotSentMessage?
      && a.UserIsTyping? == b.UserIsTyping? && a.UserSentMessage? == b.UserSentMessage?
  {
  }

  /** The state a message may be sent from: it must be someone's turn to type. */
  predicate MaySend(inner: Inner)
  {
    inner == BotIsTyping || inner == UserIsTyping
  }

  /** What sending `m` makes of the state: the typist becomes the sender of `m`. */
  function AfterSend(inner: Inner, m: Message): (r: Inner)
    requires MaySend(inner)
    ensures inner == BotIsTyping <==> r == BotSentMessage(m)
    ensures inner == UserIsTyping <==> r == UserSentMessage(m)
  {
    if inner == BotIsTyping then BotSentMessage(m) else UserSentMessage(m)
  }

  /**
   * `new_testing`: the canned conversation, given the user's and the bot's
   * names and the six clock readings taken while building it.
   */
  function TestingMessages(userName: string, botName: string, clock: seq<int>): (ms: seq<Message>)
    requires |clock| == 6
    ensures |ms| == 6
    ensures forall i :: 0 <= i < 6 ==> ms[i].id == i + 1 && ms[i].timestamp == clock[i]
    ensures forall i :: 0 <= i < 6 ==> ms[i].sender == if i % 2 == 0 then userName else botName
  {
    [ Message(1, userName, "Hello bot.", clock[0]),
      Message(2, botName, "Hello user.", clock[1]),
      Message(3, userName, "How are you?", clock[2]),
      Message(4, botName, "I'm fine, thanks. How are you?", clock[3]),
      Message(5, userName, "I'm fine too. Goodbye for now, bot.", clock[4]),
      Message(6, botName, "Goodbye user.", clock[5]) ]
  }

  /**
   * Assuming clock readings at least 10 ms apart, as the sleeps between
   * the pushes intend (the wall clock promises no such thing), the canned
   * messages are in strictly increasing order under the message ordering.
   */
  lemma TestingMessagesAreOrdered(userName: string, botName: string, clock: seq<int>)
    requires |clock| == 6
    requires forall i :: 0 < i < 6 ==> clock[i] >= clock[i - 1] + 10
    ensures var ms := TestingMessages(userName, botName, clock);
      forall i, j :: 0 <= i < j < 6 ==> PartialCmp(ms[i], ms[j]) == Some(Less)
  {
    var ms := TestingMessages(userName, botName, clock);
    forall i, j | 0 <= i < j < 6
      ensures ms[i].timestamp < ms[j].timestamp
    {
      var k := i;
      while k < j
        invariant i <= k <= j && clock[i] <= clock[k]
      {
        k := k + 1;
      }
    }
  }

  class State {
    var messages: seq<Message>
    var shouldQuit: bool
    var inner: Inner

    /** `user_is_typing`. */
    predicate UserIsTyping()
      reads this
    {
      inner == Inner.UserIsTyping
    }

    /** `status_message`. */
    function Status(): string
      reads this
    {
      StatusMessage(inner)
    }

    /** `next_message_id`: the number of messages so far. */
    function NextMessageId(): nat
      reads this
    {
      |messages|
    }

    /**
     * `load`: the database path always comes back empty, so the state is
     * always the canned testing conversation, with the user typing.
     */
    constructor Load(userName: string, botName: string, clock: seq<int>)
      requires |clock| == 6
      ensures messages == TestingMessages(userName, botName, clock)
      ensures inner == Inner.UserIsTyping && !shouldQuit
    {
      var ms: seq<Message> := [];
      ms := ms + [Message(1, userName, "Hello bot.", clock[0])];
      ms := ms + [Message(2, botName, "Hello user.", clock[1])];
      ms := ms + [Message(3, userName, "How are you?", clock[2])];
      ms := ms + [Message(4, botName, "I'm fine, thanks. How are you?", clock[3])];
      ms := ms + [Message(5, userName, "I'm fine too. Goodbye for now, bot.", clock[4])];
      ms := ms + [Message(6, botName, "Goodbye user.", clock[5])];
      messages := ms;
      shouldQuit := false;
      inner := Inner.UserIsTyping;
    }

    /** `send_message`: append the message; the typist becomes its sender. */
    method SendMessage(m: Message)
      requires MaySend(inner)
      modifies this
      ensures messages == old(messages) + [m]
      ensures inner == AfterSend(old(inner), m)
      ensures shouldQuit == old(shouldQuit)
      ensures NextMessageId() == old(NextMessageId()) + 1
    {
      messages := messages + [m];
      match inner {
        case BotIsTyping =>
          inner := BotSentMessage(m);
        case UserIsTyping =>
          inner := UserSentMessage(m);
      }
    }
  }

  /**
   * The canned ids start at 1 while `next_message_id` counts from 0, so the
   * first id handed out after `load` is the id of the last canned message,
   * and a message built with it compares equal to that message.
   */
  lemma NextIdAfterLoadRepeatsLastId(userName: string, botName: string, clock: seq<int>, sender: string, content: string, timestamp: int)
    requires |clock| == 6
    ensures var ms := TestingMessages(userName, botName, clock);
      && |ms| == ms[|ms| - 1].id
      && SameMessage(Message(|ms|, sender, content, timestamp), ms[|ms| - 1])
  {
    var ms := TestingMessages(userName, botName, clock);
    assert ms[5].id == 6;
  }
}
