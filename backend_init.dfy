/**
 * Construction of the backend in the newer snapshot: the session either
 * resumes the most recently stored conversation or begins a new one, the
 * initial state follows from the last sender, and the frontend is sent the
 * conversation and one greeting status.
 */
module BackendInit {
  import opened Messages
  import opened Events
  import opened Persistence
  import Backend

  /** What `State::new` produces, apart from the channels and configuration. */
  datatype Initial = Initial(conn: Store, conversation: seq<Message>, inner: Backend.Inner, sent: seq<Event>)

  /** `State::new`. */
  function New(env: Env, store: Store, resume: bool): (s: Initial)
    ensures resume ==> (s.conn, s.conversation) == LoadPrevious(store)
    ensures !resume ==> (s.conn, s.conversation) == BeginNew(store)
    ensures s.inner == Backend.InitialInner(s.conversation, env.theirName)
    ensures s.sent == Backend.Greeting(s.conversation, env.theirName)
  {
    var (conn, previous) := if resume then LoadPrevious(store) else BeginNew(store);
    Initial(conn, previous, Backend.InitialInner(previous, env.theirName), Backend.Greeting(previous, env.theirName))
  }

  /**
   * Fresh sessions and resumed ones: a new session is empty and the user's
   * turn whatever was stored; a resumed one is the user's turn when the bot
   * spoke last and the bot's turn when anyone else did.
   */
  lemma ResumeOrFresh(env: Env, store: Store)
    ensures New(env, store, false).conversation == []
    ensures New(env, store, false).inner == Backend.UsersTurn
    ensures store.file.conversations == [] ==> New(env, store, true).conversation == []
    ensures store.file.conversations != [] ==>
              New(env, store, true).conversation == MessagesOf(store.file.messages, Latest(store.file.conversations))
    ensures var c := New(env, store, true).conversation;
      c != [] && c[|c| - 1].sender == env.theirName ==> New(env, store, true).inner == Backend.UsersTurn
    ensures var c := New(env, store, true).conversation;
      c != [] && c[|c| - 1].sender != env.theirName ==> New(env, store, true).inner == Backend.BotsTurn
  {
  }
}
