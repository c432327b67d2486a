/**
 * The SQLite conversation store behind the backend. Both tables are kept as
 * sequences of rows, and a row's id is its position plus one, as SQLite
 * numbers the rows of a table nobody deletes from. A connection is either
 * the database file itself or a private in-memory database; writes through
 * a file connection reach the file at once.
 */
module Persistence {
  import opened Messages

  /** A row of the `conversations` table: the first message's time and the prompt. */
  datatype ConversationRow = ConversationRow(createdAt: int, prompt: string)

  /** A row of the `messages` table; `conversation` is the id of the conversation row. */
  datatype MessageRow = MessageRow(sender: string, content: string, createdAt: int, conversation: nat)

  datatype Database = Database(conversations: seq<ConversationRow>, messages: seq<MessageRow>)

  /** What `initialize_database` creates: both tables, empty. */
  const EMPTY_DATABASE: Database := Database([], [])

  /** The foreign key holds: every message points at a stored conversation. */
  predicate Valid(db: Database)
  {
    forall k :: 0 <= k < |db.messages| ==> 1 <= db.messages[k].conversation <= |db.conversations|
  }

  /** The open connection: the database file, or an in-memory database of its own. */
  datatype Connection = ToFile | InMemory(db: Database)

  /** The open connection and the content of the database file. */
  datatype Store = Store(conn: Connection, file: Database)

  /** What the open connection sees. */
  function Content(s: Store): Database
  {
    match s.conn
    case ToFile => s.file
    case InMemory(db) => db
  }

  datatype PersistenceError = CommitFailed | SaveFailed

  /**
   * `ORDER BY created_at DESC LIMIT 1`: the id of a conversation created no
   * earlier than any other. Among conversations created at the same time the
   * later row is taken.
   */
  function Latest(conversations: seq<ConversationRow>): (id: nat)
    requires conversations != []
    ensures 1 <= id <= |conversations|
    ensures forall k :: 0 <= k < |conversations| ==> conversations[k].createdAt <= conversations[id - 1].createdAt
    ensures forall k :: id <= k < |conversations| ==> conversations[k].createdAt < conversations[id - 1].createdAt
  {
    var n := |conversations| - 1;
    if n == 0 then 1
    else
      var best := Latest(conversations[..n]);
      if conversations[n].createdAt >= conversations[best - 1].createdAt then n + 1 else best
  }

  /** A message row read back as a message; the row id becomes the message id. */
  function ReadBack(row: MessageRow, id: nat): Message
  {
    Message(id, row.sender, row.content, row.createdAt)
  }

  /**
   * `get_messages_by_conversation_id`: the rows of one conversation, in row
   * order, each read back with its row id.
   */
  function MessagesOf(rows: seq<MessageRow>, conversation: nat): (r: seq<Message>)
    ensures |r| <= |rows|
  {
    if rows == [] then []
    else
      var n := |rows| - 1;
      var init := MessagesOf(rows[..n], conversation);
      if rows[n].conversation == conversation then init + [ReadBack(rows[n], n + 1)] else init
  }

  /** Each of `loaded` is a row of `conversation` read back with its id, in increasing id order. */
  predicate ReadFromRows(loaded: seq<Message>, rows: seq<MessageRow>, conversation: nat)
  {
    && (forall i :: 0 <= i < |loaded| ==>
          && 1 <= loaded[i].id <= |rows|
          && rows[loaded[i].id - 1].conversation == conversation
          && loaded[i] == ReadBack(rows[loaded[i].id - 1], loaded[i].id))
    && (forall i, j :: 0 <= i < j < |loaded| ==> loaded[i].id < loaded[j].id)
  }

  /**
   * Every message loaded for a conversation is one of its rows, read back
   * with that row's id, and the ids increase.
   */
  lemma {:induction false} MessagesOfReadsItsRows(rows: seq<MessageRow>, conversation: nat)
    ensures ReadFromRows(MessagesOf(rows, conversation), rows, conversation)
    decreases |rows|
  {
    if rows != [] {
      var n := |rows| - 1;
      var init := MessagesOf(rows[..n], conversation);
      MessagesOfReadsItsRows(rows[..n], conversation);
      forall i | 0 <= i < |init|
        ensures rows[init[i].id - 1] == rows[..n][init[i].id - 1]
      {
      }
      if rows[n].conversation == conversation {
        assert MessagesOf(rows, conversation) == init + [ReadBack(rows[n], n + 1)];
      } else {
        assert MessagesOf(rows, conversation) == init;
      }
    }
  }

  /** A conversation with no rows loads as an empty one. */
  lemma {:induction false} MessagesOfNone(rows: seq<MessageRow>, conversation: nat)
    requires forall k :: 0 <= k < |rows| ==> rows[k].conversation != conversation
    ensures MessagesOf(rows, conversation) == []
    decreases |rows|
  {
    if rows != [] {
      MessagesOfNone(rows[..|rows| - 1], conversation);
    }
  }

  /** Consecutive rows read back with consecutive ids from `first` on. */
  function ReadAll(rows: seq<MessageRow>, first: nat): (r: seq<Message>)
    ensures |r| == |rows|
    ensures forall i :: 0 <= i < |rows| ==> r[i] == ReadBack(rows[i], first + i)
  {
    seq(|rows|, i requires 0 <= i < |rows| => ReadBack(rows[i], first + i))
  }

  /** The messages with their ids replaced by consecutive ones from `first` on. */
  function Renumbered(conversation: seq<Message>, first: nat): (r: seq<Message>)
    ensures |r| == |conversation|
    ensures forall i :: 0 <= i < |r| ==> r[i] == conversation[i].(id := first + i)
  {
    seq(|conversation|, i requires 0 <= i < |conversation| => conversation[i].(id := first + i))
  }

  /** The rows `commit_conversation_to_database` inserts for the messages of one conversation. */
  function RowsOf(conversation: seq<Message>, id: nat): (r: seq<MessageRow>)
    ensures |r| == |conversation|
    ensures forall i :: 0 <= i < |r| ==>
              r[i] == MessageRow(conversation[i].sender, conversation[i].content, conversation[i].timestamp, id)
  {
    seq(|conversation|, i requires 0 <= i < |conversation| =>
      MessageRow(conversation[i].sender, conversation[i].content, conversation[i].timestamp, id))
  }

  /**
   * `load_previous_conversation_from_database`. With a stored conversation
   * the connection is the file and the messages are the newest
   * conversation's. With none (the source's query finds no row, or the file
   * has no tables) it falls back to a fresh in-memory database and an empty
   * conversation. The file itself is not changed.
   */
  function LoadPrevious(s: Store): (r: (Store, seq<Message>))
    ensures r.0.file == s.file
    ensures s.file.conversations == [] ==> r.0.conn == InMemory(EMPTY_DATABASE) && r.1 == []
    ensures s.file.conversations != [] ==>
              r.0.conn == ToFile && r.1 == MessagesOf(s.file.messages, Latest(s.file.conversations))
  {
    if s.file.conversations == [] then (Store(InMemory(EMPTY_DATABASE), s.file), [])
    else (Store(ToFile, s.file), MessagesOf(s.file.messages, Latest(s.file.conversations)))
  }

  /** `begin_new_conversation`: the store opened as for loading, and an empty conversation. */
  function BeginNew(s: Store): (r: (Store, seq<Message>))
    ensures r.0 == LoadPrevious(s).0 && r.1 == []
  {
    (LoadPrevious(s).0, [])
  }

  /**
   * `commit_conversation_to_database` when its transaction succeeds. An
   * empty conversation changes nothing. Otherwise one conversation row,
   * stamped with the first message's time, and one row per message,
   * pointing at it, are added to what the connection sees. Through a file
   * connection that is the file itself; an in-memory one leaves it alone.
   */
  function Commit(s: Store, prompt: string, conversation: seq<Message>): (r: Store)
    ensures conversation == [] ==> r == s
    ensures conversation != [] ==>
              var before, after := Content(s), Content(r);
              && |after.conversations| == |before.conversations| + 1
              && after.conversations[..|before.conversations|] == before.conversations
              && after.conversations[|before.conversations|] == ConversationRow(conversation[0].timestamp, prompt)
              && after.messages == before.messages + RowsOf(conversation, |after.conversations|)
    ensures s.conn == ToFile ==> r.conn == ToFile && r.file == Content(r)
    ensures s.conn.InMemory? ==> r.conn.InMemory? && r.file == s.file
    ensures Valid(Content(s)) ==> Valid(Content(r))
  {
    if conversation == [] then s
    else
      var db := Content(s);
      var id := |db.conversations| + 1;
      var next := Database(db.conversations + [ConversationRow(conversation[0].timestamp, prompt)],
                           db.messages + RowsOf(conversation, id));
      match s.conn
      case ToFile => Store(ToFile, next)
      case InMemory(_) => Store(InMemory(next), s.file)
  }

  /** `save_database_to_file` when the backup succeeds: the file becomes what the connection sees. */
  function SaveToFile(s: Store): (r: Store)
    ensures r.conn == s.conn && r.file == Content(s) && Content(r) == Content(s)
  {
    Store(s.conn, Content(s))
  }

  /** Rows appended for one conversation are read back after its earlier rows, numbered on. */
  lemma {:induction false} MessagesOfAppend(rows: seq<MessageRow>, more: seq<MessageRow>, conversation: nat)
    requires forall k :: 0 <= k < |more| ==> more[k].conversation == conversation
    ensures MessagesOf(rows + more, conversation) == MessagesOf(rows, conversation) + ReadAll(more, |rows| + 1)
    decreases |more|
  {
    if more == [] {
      assert rows + more == rows;
    } else {
      var n, first := |more| - 1, |rows| + 1;
      var init, last := MessagesOf(rows, conversation), ReadBack(more[n], first + n);
      calc {
        MessagesOf(rows + more, conversation);
        { assert rows + more == (rows + more[..n]) + [more[n]]; }
        MessagesOf((rows + more[..n]) + [more[n]], conversation);
        { MessagesOfSnoc(rows + more[..n], more[n], conversation); }
        MessagesOf(rows + more[..n], conversation) + [last];
        { MessagesOfAppend(rows, more[..n], conversation); }
        (init + ReadAll(more[..n], first)) + [last];
        init + (ReadAll(more[..n], first) + [last]);
        { ReadAllSnoc(more, first); }
        init + ReadAll(more, first);
      }
    }
  }

  lemma MessagesOfSnoc(rows: seq<MessageRow>, row: MessageRow, conversation: nat)
    requires row.conversation == conversation
    ensures MessagesOf(rows + [row], conversation) == MessagesOf(rows, conversation) + [ReadBack(row, |rows| + 1)]
  {
    assert (rows + [row])[..|rows|] == rows;
  }

  lemma ReadAllSnoc(rows: seq<MessageRow>, first: nat)
    requires rows != []
    ensures ReadAll(rows, first) == ReadAll(rows[..|rows| - 1], first) + [ReadBack(rows[|rows| - 1], first + |rows| - 1)]
  {
  }

  /** After a commit that starts no earlier than every stored conversation, the new one is the newest. */
  lemma CommittedIsLatest(db: Database, row: ConversationRow)
    requires forall k :: 0 <= k < |db.conversations| ==> db.conversations[k].createdAt <= row.createdAt
    ensures Latest(db.conversations + [row]) == |db.conversations| + 1
  {
    var all := db.conversations + [row];
    assert all[|all| - 1] == row;
  }

  /** What a commit of a non-empty conversation leaves the connection seeing. */
  lemma CommitContent(s: Store, prompt: string, conversation: seq<Message>)
    requires conversation != []
    ensures var db := Content(s);
      Content(Commit(s, prompt, conversation)) ==
        Database(db.conversations + [ConversationRow(conversation[0].timestamp, prompt)],
                 db.messages + RowsOf(conversation, |db.conversations| + 1))
  {
  }

  /**
   * In a valid database, rows added under a new conversation that is
   * created no earlier than any other are exactly what loading reads back.
   */
  lemma NewestRowsAreLoaded(db: Database, row: ConversationRow, rows: seq<MessageRow>)
    requires Valid(db)
    requires forall k :: 0 <= k < |db.conversations| ==> db.conversations[k].createdAt <= row.createdAt
    requires forall k :: 0 <= k < |rows| ==> rows[k].conversation == |db.conversations| + 1
    ensures MessagesOf(db.messages + rows, Latest(db.conversations + [row])) == ReadAll(rows, |db.messages| + 1)
  {
    var id := |db.conversations| + 1;
    CommittedIsLatest(db, row);
    MessagesOfNone(db.messages, id);
    MessagesOfAppend(db.messages, rows, id);
  }

  /**
   * A conversation committed and saved is the one the next resumed session
   * loads, provided it starts no earlier than every stored one: the same
   * senders, contents and times in the same order. The ids are not kept:
   * the messages come back numbered by their rows, after every message
   * already stored.
   */
  lemma SavedConversationIsResumed(s: Store, prompt: string, conversation: seq<Message>)
    requires Valid(Content(s)) && conversation != []
    requires forall k :: 0 <= k < |Content(s).conversations| ==>
               Content(s).conversations[k].createdAt <= conversation[0].timestamp
    ensures LoadPrevious(SaveToFile(Commit(s, prompt, conversation))).1
              == Renumbered(conversation, |Content(s).messages| + 1)
  {
    var db := Content(s);
    var row := ConversationRow(conversation[0].timestamp, prompt);
    var rows := RowsOf(conversation, |db.conversations| + 1);
    CommitContent(s, prompt, conversation);
    var saved := SaveToFile(Commit(s, prompt, conversation));
    assert saved.file == Database(db.conversations + [row], db.messages + rows);
    NewestRowsAreLoaded(db, row, rows);
    assert LoadPrevious(saved).1 == ReadAll(rows, |db.messages| + 1);
    ReadBackRestoresAllButIds(conversation, |db.conversations| + 1, |db.messages| + 1);
  }

  /** Reading back the rows of a conversation restores everything but the ids. */
  lemma ReadBackRestoresAllButIds(conversation: seq<Message>, id: nat, first: nat)
    ensures ReadAll(RowsOf(conversation, id), first) == Renumbered(conversation, first)
  {
  }

  /** Renumbering messages already numbered from `first` on changes nothing. */
  lemma RenumberingInPlace(conversation: seq<Message>, first: nat)
    requires forall i :: 0 <= i < |conversation| ==> conversation[i].id == first + i
    ensures Renumbered(conversation, first) == conversation
  {
  }

  /** Into a fresh database, a conversation numbered 1, 2, ... comes back unchanged, ids included. */
  lemma FreshDatabaseKeepsIds(file: Database, prompt: string, conversation: seq<Message>)
    requires conversation != []
    requires forall i :: 0 <= i < |conversation| ==> conversation[i].id == i + 1
    ensures LoadPrevious(SaveToFile(Commit(Store(InMemory(EMPTY_DATABASE), file), prompt, conversation))).1 == conversation
  {
    var s := Store(InMemory(EMPTY_DATABASE), file);
    assert |Content(s).messages| == 0;
    SavedConversationIsResumed(s, prompt, conversation);
    RenumberingInPlace(conversation, 1);
  }

  /**
   * The backend numbers messages from 0, so the first message of a saved
   * conversation never comes back as the same message.
   */
  lemma ResumedIdsAreRenumbered(s: Store, prompt: string, conversation: seq<Message>)
    requires Valid(Content(s)) && conversation != [] && conversation[0].id == 0
    requires forall k :: 0 <= k < |Content(s).conversations| ==>
               Content(s).conversations[k].createdAt <= conversation[0].timestamp
    ensures var loaded := LoadPrevious(SaveToFile(Commit(s, prompt, conversation))).1;
      loaded != [] && !SameMessage(loaded[0], conversation[0])
  {
    SavedConversationIsResumed(s, prompt, conversation);
  }
}
