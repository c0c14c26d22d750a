/** An in-memory stand-in for the Postgres database: the `messages` and
    `channels` tables, the read-only `system_prompts` table, the row-level
    statements the core issues, and a transaction as a working copy that is
    written back on commit. */
module Store {
  import opened Results
  import opened Db

  /** The primary key orders the table: rows are kept strictly ascending by id. */
  predicate SortedById(rows: seq<Message>) {
    forall i, j :: 0 <= i < j < |rows| ==> rows[i].id < rows[j].id
  }

  /** `SELECT ... FROM messages WHERE id = $1` */
  function Find(rows: seq<Message>, id: Id): (r: Option<Message>)
    ensures r.Some? ==> r.value in rows && r.value.id == id
    ensures r.None? ==> forall k :: 0 <= k < |rows| ==> rows[k].id != id
  {
    if rows == [] then None
    else if rows[0].id == id then Some(rows[0])
    else
      var r := Find(rows[1..], id);
      assert r.None? ==> forall k :: 1 <= k < |rows| ==> rows[k] == rows[1..][k - 1];
      r
  }

  predicate Stored(rows: seq<Message>, id: Id) {
    Find(rows, id).Some?
  }

  const DuplicateKey := "duplicate key value violates unique constraint"

  /** A row with id `id` is stored exactly when `Find` finds one. */
  lemma StoredIff(rows: seq<Message>, id: Id)
    ensures Stored(rows, id) <==> exists m :: m in rows && m.id == id
  {
    if !Stored(rows, id) {
      forall m | m in rows ensures m.id != id {
        var k :| 0 <= k < |rows| && rows[k] == m;
      }
    }
  }

  /** `INSERT INTO messages ...`: the row goes in at its place in id order;
      an id that is already stored violates the primary key. */
  function InsertRow(rows: seq<Message>, m: Message): (r: Option<seq<Message>>)
    requires SortedById(rows)
    ensures r.None? <==> Stored(rows, m.id)
    ensures r.Some? ==> SortedById(r.value) && |r.value| == |rows| + 1
    ensures r.Some? ==> forall x :: x in r.value <==> x in rows || x == m
  {
    if rows == [] then Some([m])
    else if rows[0].id == m.id then None
    else if m.id < rows[0].id then
      assert forall x :: x in rows ==> x.id != m.id;
      Some([m] + rows)
    else
      match InsertRow(rows[1..], m)
      case None => None
      case Some(rest) =>
        assert forall x :: x in rest ==> rows[0].id < x.id by {
          forall x | x in rest ensures rows[0].id < x.id {
            if x != m {
              var k :| 0 <= k < |rows[1..]| && rows[1..][k] == x;
              assert rows[k + 1] == x;
            }
          }
        }
        assert forall x :: x in rows ==> x == rows[0] || x in rows[1..];
        Some([rows[0]] + rest)
  }

  /** The column defaults of a `channels` row created by an INSERT that names
      only some columns. */
  datatype Defaults = Defaults(chatMode: ChatMode, contextWindow: nat, systemPrompt: int)

  function NewChannel(id: Id, d: Defaults): Channel {
    Channel(id, d.chatMode, d.contextWindow, d.systemPrompt)
  }

  /** `INSERT INTO channels (id) VALUES ($1) ON CONFLICT (id) DO NOTHING` */
  function EnsuredChannel(channels: map<Id, Channel>, id: Id, d: Defaults): (r: map<Id, Channel>)
    ensures r.Keys == channels.Keys + {id}
    ensures id in channels ==> r == channels
    ensures id !in channels ==> r[id] == NewChannel(id, d)
    ensures forall k :: k in channels ==> r[k] == channels[k]
  {
    if id in channels then channels else channels[id := NewChannel(id, d)]
  }

  /** `INSERT INTO channels (id, chat_mode) ... ON CONFLICT (id) DO UPDATE SET chat_mode`:
      an upsert that touches nothing but the chat mode of one row. */
  function WithChatMode(channels: map<Id, Channel>, id: Id, mode: ChatMode, d: Defaults): (r: map<Id, Channel>)
    ensures r.Keys == channels.Keys + {id}
    ensures r[id].chatMode == mode && r[id].id == (if id in channels then channels[id].id else id)
    ensures id in channels ==>
      r[id].contextWindow == channels[id].contextWindow && r[id].systemPrompt == channels[id].systemPrompt
    ensures id !in channels ==> r[id].contextWindow == d.contextWindow && r[id].systemPrompt == d.systemPrompt
    ensures forall k :: k in channels && k != id ==> r[k] == channels[k]
  {
    if id in channels then channels[id := channels[id].(chatMode := mode)]
    else channels[id := NewChannel(id, d).(chatMode := mode)]
  }

  /** `UPDATE channels SET system_prompt = $1 WHERE id = $2`: update-only. */
  function WithSystemPrompt(channels: map<Id, Channel>, id: Id, prompt: int): (r: map<Id, Channel>)
    ensures r.Keys == channels.Keys
    ensures id in channels ==>
      r[id] == Channel(channels[id].id, channels[id].chatMode, channels[id].contextWindow, prompt)
    ensures forall k :: k in channels && k != id ==> r[k] == channels[k]
  {
    if id in channels then channels[id := channels[id].(systemPrompt := prompt)] else channels
  }

  /** `UPDATE channels SET context_window = $2 WHERE id = $1`: update-only. */
  function WithContextWindow(channels: map<Id, Channel>, id: Id, window: nat): (r: map<Id, Channel>)
    ensures r.Keys == channels.Keys
    ensures id in channels ==>
      r[id] == Channel(channels[id].id, channels[id].chatMode, window, channels[id].systemPrompt)
    ensures forall k :: k in channels && k != id ==> r[k] == channels[k]
  {
    if id in channels then channels[id := channels[id].(contextWindow := window)] else channels
  }

  /** `SELECT * FROM system_prompts WHERE id = $1` */
  function PromptById(prompts: seq<SystemPrompt>, id: int): (r: Option<SystemPrompt>)
    ensures r.Some? ==> r.value in prompts && r.value.id == id
    ensures r.None? ==> forall k :: 0 <= k < |prompts| ==> prompts[k].id != id
  {
    if prompts == [] then None
    else if prompts[0].id == id then Some(prompts[0])
    else
      var r := PromptById(prompts[1..], id);
      assert r.None? ==> forall k :: 1 <= k < |prompts| ==> prompts[k] == prompts[1..][k - 1];
      r
  }

  /** `SELECT * FROM system_prompts WHERE name = $1` */
  function PromptByName(prompts: seq<SystemPrompt>, name: string): (r: Option<SystemPrompt>)
    ensures r.Some? ==> r.value in prompts && r.value.name == name
    ensures r.None? ==> forall k :: 0 <= k < |prompts| ==> prompts[k].name != name
  {
    if prompts == [] then None
    else if prompts[0].name == name then Some(prompts[0])
    else
      var r := PromptByName(prompts[1..], name);
      assert r.None? ==> forall k :: 1 <= k < |prompts| ==> prompts[k] == prompts[1..][k - 1];
      r
  }

  /** The mutable tables as one value. */
  datatype Tables = Tables(messages: seq<Message>, channels: map<Id, Channel>)

  /** The table invariants: id order on messages, and every channel row is
      filed under its own id. */
  ghost predicate Consistent(t: Tables) {
    && SortedById(t.messages)
    && forall id :: id in t.channels ==> t.channels[id].id == id
  }

  /** The committed database state, as reached through the connection pool. */
  class Database {
    var messages: seq<Message>
    var channels: map<Id, Channel>
    const prompts: seq<SystemPrompt>
    const defaults: Defaults

    function View(): Tables
      reads this
    {
      Tables(messages, channels)
    }

    ghost predicate Valid()
      reads this
    {
      Consistent(View())
    }

    constructor (initial: Tables, prompts: seq<SystemPrompt>, defaults: Defaults)
      requires Consistent(initial)
      ensures Valid() && View() == initial
      ensures this.prompts == prompts && this.defaults == defaults
    {
      messages, channels := initial.messages, initial.channels;
      this.prompts, this.defaults := prompts, defaults;
    }

    method UpsertChatMode(id: Id, mode: ChatMode)
      requires Valid()
      modifies this
      ensures Valid()
      ensures View() == old(View()).(channels := WithChatMode(old(channels), id, mode, defaults))
    {
      channels := WithChatMode(channels, id, mode, defaults);
    }

    method UpdateSystemPrompt(id: Id, prompt: int)
      requires Valid()
      modifies this
      ensures Valid()
      ensures View() == old(View()).(channels := WithSystemPrompt(old(channels), id, prompt))
    {
      channels := WithSystemPrompt(channels, id, prompt);
    }

    method UpdateContextWindow(id: Id, window: nat)
      requires Valid()
      modifies this
      ensures Valid()
      ensures View() == old(View()).(channels := WithContextWindow(old(channels), id, window))
    {
      channels := WithContextWindow(channels, id, window);
    }
  }

  /** A transaction: statements act on a private copy of the tables; a
      statement that fails on a constraint leaves the transaction aborted,
      and committing an aborted transaction rolls it back. */
  class Transaction {
    const db: Database
    var messages: seq<Message>
    var channels: map<Id, Channel>
    var aborted: bool

    function View(): Tables
      reads this
    {
      Tables(messages, channels)
    }

    ghost predicate Valid()
      reads this
    {
      Consistent(View())
    }

    constructor Begin(db: Database)
      requires db.Valid()
      ensures Valid() && this.db == db && View() == db.View() && !aborted
    {
      this.db := db;
      messages, channels := db.messages, db.channels;
      aborted := false;
    }

    method Insert(m: Message) returns (r: Result<()>)
      requires Valid()
      modifies this
      ensures Valid() && channels == old(channels)
      ensures match InsertRow(old(messages), m)
              case None => r == Err(DuplicateKey) && messages == old(messages) && aborted
              case Some(rows) => r == Ok(()) && messages == rows && aborted == old(aborted)
    {
      match InsertRow(messages, m)
      case None =>
        aborted := true;
        r := Err(DuplicateKey);
      case Some(rows) =>
        messages := rows;
        r := Ok(());
    }

    method EnsureChannel(id: Id)
      requires Valid()
      modifies this
      ensures Valid() && aborted == old(aborted)
      ensures View() == old(View()).(channels := EnsuredChannel(old(channels), id, db.defaults))
    {
      channels := EnsuredChannel(channels, id, db.defaults);
    }

    method UpdateContextWindow(id: Id, window: nat)
      requires Valid()
      modifies this
      ensures Valid() && aborted == old(aborted)
      ensures View() == old(View()).(channels := WithContextWindow(old(channels), id, window))
    {
      channels := WithContextWindow(channels, id, window);
    }

    method Commit()
      requires Valid() && db.Valid()
      modifies db
      ensures db.Valid()
      ensures db.View() == if aborted then old(db.View()) else View()
    {
      if !aborted {
        db.messages, db.channels := messages, channels;
      }
    }
  }
}
