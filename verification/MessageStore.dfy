/** The message log, its full-text index and the conversation summaries (memory.py):
    three tables are changed statement by statement and have to stay in agreement. */
module MessageStore {
  import opened Wrappers
  import opened Text
  import opened Fts
  import opened Tenancy

  // ---- tables ----

  datatype Row = Row(
    ns: Namespace, scope: string, channel: string, user: string, username: string,
    message: string, createAt: real, postType: string, rootId: string)

  datatype Segment = Segment(
    ns: Namespace, channel: string, startedAt: real, topic: string, summary: string, active: bool)

  /** `message_log` by its global primary key, `message_log_fts` and `message_log_fts_map` by
      row number, `conversation_segments` in order of their ascending ids. */
  datatype Tables = Tables(
    log: map<string, Row>, fts: map<nat, string>, index: map<nat, string>, segments: seq<Segment>)

  const EMPTY := Tables(map[], map[], map[], [])

  /** The index is a bijection between its rows and the logged messages, and every row holds
      the tokenized form of what its message says now. */
  ghost predicate Agree(t: Tables) {
    && t.fts.Keys == t.index.Keys
    && RowsCurrent(t)
    && RowsDistinct(t)
    && AllIndexed(t)
  }

  ghost predicate RowsCurrent(t: Tables)
    requires t.fts.Keys == t.index.Keys
  {
    forall r <- t.index :: t.index[r] in t.log && t.fts[r] == Tokenized(t.log[t.index[r]].message)
  }

  ghost predicate RowsDistinct(t: Tables) {
    forall r <- t.index, s <- t.index :: t.index[r] == t.index[s] ==> r == s
  }

  ghost predicate AllIndexed(t: Tables) {
    forall id <- t.log :: exists r :: r in t.index && t.index[r] == id
  }

  // ---- statements: the tables afterwards, or None when a constraint is violated ----

  function InsertLog(t: Tables, id: string, row: Row): Option<Tables> {
    if id in t.log then None else Some(t.(log := t.log[id := row]))
  }

  function InsertFts(t: Tables, row: nat, text: string): Option<Tables> {
    if row in t.fts then None else Some(t.(fts := t.fts[row := text]))
  }

  /** The row number is the primary key, the message id unique and a foreign key. */
  function InsertIndex(t: Tables, row: nat, id: string): Option<Tables> {
    if row in t.index || id in t.index.Values || id !in t.log then None
    else Some(t.(index := t.index[row := id]))
  }

  predicate Owns(t: Tables, ns: Namespace, id: string) {
    id in t.log && t.log[id].ns == ns
  }

  function UpdateLog(t: Tables, ns: Namespace, id: string, message: string): Option<Tables> {
    Some(if Owns(t, ns, id) then t.(log := t.log[id := t.log[id].(message := message)]) else t)
  }

  function UpdateFts(t: Tables, row: nat, text: string): Option<Tables> {
    Some(if row in t.fts then t.(fts := t.fts[row := text]) else t)
  }

  function DeleteFts(t: Tables, row: nat): Option<Tables> {
    Some(t.(fts := t.fts - {row}))
  }

  function DeleteIndex(t: Tables, id: string): Option<Tables> {
    Some(t.(index := map r | r in t.index && t.index[r] != id :: t.index[r]))
  }

  /** Rows of the index that refer to the message go with it. */
  function DeleteLog(t: Tables, ns: Namespace, id: string): Option<Tables> {
    if !Owns(t, ns, id) then Some(t)
    else Some(t.(log := t.log - {id}, index := map r | r in t.index && t.index[r] != id :: t.index[r]))
  }

  predicate Of(s: Segment, ns: Namespace, channel: string) {
    s.ns == ns && s.channel == channel
  }

  function MarkStale(t: Tables, ns: Namespace, channel: string): Option<Tables> {
    Some(t.(segments := seq(|t.segments|, i requires 0 <= i < |t.segments| =>
      if Of(t.segments[i], ns, channel) then t.segments[i].(active := false) else t.segments[i])))
  }

  function InsertSegment(t: Tables, s: Segment): Option<Tables> {
    Some(t.(segments := t.segments + [s]))
  }

  // ---- operations ----

  datatype Post = Post(
    id: string, message: string, channel: string, user: string, username: string,
    createAt: int, postType: string, rootId: string, scope: string)

  predicate Storable(id: string, message: string) {
    id != "" && message != "" && |message| <= 50000
  }

  function Cut(message: string): string {
    if |message| > 10000 then message[..10000] else message
  }

  function RowOf(ns: Namespace, post: Post): Row {
    Row(ns, post.scope, post.channel, post.user, post.username, Cut(post.message),
        post.createAt as real / 1000.0, post.postType, post.rootId)
  }

  /** What is kept of a text: all of it, or the first 10000 characters. */
  ghost predicate Kept(stored: string, message: string) {
    stored <= message && (stored == message || |stored| == 10000 < |message|) && |stored| <= 10000
  }

  /** The row of a post, column by column; times are stored in seconds. */
  ghost predicate RowTells(row: Row, ns: Namespace, post: Post) {
    && row.ns == ns && row.scope == post.scope && row.channel == post.channel
    && row.user == post.user && row.username == post.username
    && Kept(row.message, post.message) && row.createAt * 1000.0 == post.createAt as real
    && row.postType == post.postType && row.rootId == post.rootId
  }

  datatype Op =
    | Log(ns: Namespace, post: Post)
    | Edit(ns: Namespace, id: string, message: string)
    | Delete(ns: Namespace, id: string)
    | Save(segment: Segment)
    | Failed

  ghost predicate Logged(t: Tables, ns: Namespace, post: Post, t': Tables) {
    Storable(post.id, post.message) && post.id !in t.log &&
    exists row: nat :: row !in t.fts && row !in t.index &&
      t' == t.(log := t.log[post.id := RowOf(ns, post)],
               fts := t.fts[row := Tokenized(Cut(post.message))],
               index := t.index[row := post.id])
  }

  ghost predicate Edited(t: Tables, ns: Namespace, id: string, message: string, t': Tables) {
    Storable(id, message) && Owns(t, ns, id) &&
    exists row: nat :: row in t.index && t.index[row] == id &&
      t' == t.(log := t.log[id := t.log[id].(message := Cut(message))],
               fts := t.fts[row := Tokenized(Cut(message))])
  }

  ghost predicate Deleted(t: Tables, ns: Namespace, id: string, t': Tables) {
    Owns(t, ns, id) &&
    exists row: nat :: row in t.index && t.index[row] == id &&
      t' == MarkStale(t, ns, t.log[id].channel).value
              .(log := t.log - {id}, fts := t.fts - {row}, index := t.index - {row})
  }

  /** Log, index and text gain one row each, the text being that of the log row. */
  ghost predicate LogTells(t: Tables, ns: Namespace, post: Post, t': Tables) {
    && t'.log.Keys == t.log.Keys + {post.id} && (forall id <- t.log :: t'.log[id] == t.log[id])
    && RowTells(t'.log[post.id], ns, post) && t'.segments == t.segments
    && exists row: nat :: row !in t.index && t'.index == t.index[row := post.id]
                          && t'.fts == t.fts[row := Tokenized(t'.log[post.id].message)]
  }

  lemma LoggedTells(t: Tables, ns: Namespace, post: Post, t': Tables)
    requires Logged(t, ns, post, t')
    ensures LogTells(t, ns, post, t')
  {
  }

  /** The text of one log row changes, and that of its index row. */
  ghost predicate EditTells(t: Tables, id: string, message: string, t': Tables) {
    && id in t.log && t'.log.Keys == t.log.Keys && Kept(t'.log[id].message, message)
    && (forall other <- t.log :: t'.log[other] ==
          if other == id then t.log[id].(message := t'.log[id].message) else t.log[other])
    && t'.index == t.index && t'.segments == t.segments
    && exists row <- t.index :: t.index[row] == id && t'.fts == t.fts[row := Tokenized(t'.log[id].message)]
  }

  lemma EditedTells(t: Tables, ns: Namespace, id: string, message: string, t': Tables)
    requires Edited(t, ns, id, message, t')
    ensures EditTells(t, id, message, t')
  {
  }

  /** One row goes from log, index and text; the summaries of its channel are no longer active. */
  ghost predicate DeleteTells(t: Tables, ns: Namespace, id: string, t': Tables) {
    && id in t.log && t'.log == t.log - {id}
    && (exists row <- t.index :: t.index[row] == id && t'.index == t.index - {row} && t'.fts == t.fts - {row})
    && |t'.segments| == |t.segments|
    && forall i :: 0 <= i < |t.segments| ==>
         t'.segments[i] == if t.segments[i].ns == ns && t.segments[i].channel == t.log[id].channel
                           then t.segments[i].(active := false) else t.segments[i]
  }

  lemma DeletedTells(t: Tables, ns: Namespace, id: string, t': Tables)
    requires Deleted(t, ns, id, t')
    ensures DeleteTells(t, ns, id, t')
  {
  }

  /** A call that fails changes nothing, but its rollback may take along the last summaries, those
      that were inserted and never committed. */
  ghost predicate Dropped(t: Tables, t': Tables) {
    t'.segments <= t.segments && t' == t.(segments := t'.segments)
  }

  ghost predicate Step(t: Tables, op: Op, t': Tables) {
    match op
    case Log(ns, post) => Logged(t, ns, post, t')
    case Edit(ns, id, message) => Edited(t, ns, id, message, t')
    case Delete(ns, id) => Deleted(t, ns, id, t')
    case Save(segment) => segment.active && t' == t.(segments := t.segments + [segment])
    case Failed => Dropped(t, t')
  }

  // ---- the database connection ----

  class Connection {
    var work: Tables
    var committed: Tables

    constructor ()
      ensures work == committed == EMPTY
    {
      work, committed := EMPTY, EMPTY;
    }

    /** One statement. It changes nothing when it fails. */
    method Execute(result: Option<Tables>, broken: bool) returns (ok: bool)
      modifies this`work
      ensures ok == (result.Some? && !broken)
      ensures work == if ok then result.value else old(work)
    {
      ok := result.Some? && !broken;
      if ok { work := result.value; }
    }

    method Commit(broken: bool) returns (ok: bool)
      modifies this`committed
      ensures ok == !broken
      ensures committed == if ok then work else old(committed)
    {
      ok := !broken;
      if ok { committed := work; }
    }

    method Rollback()
      modifies this`work
      ensures work == committed
    {
      work := committed;
    }

    /** The row number the full-text table gives to a new row. */
    method NewRow() returns (row: nat)
      ensures row !in work.fts
    {
      row := 1;
      var rest := work.fts.Keys;
      while rest != {}
        invariant rest <= work.fts.Keys
        invariant forall r :: r in work.fts && r !in rest ==> r < row
      {
        var r :| r in rest;
        if r >= row { row := r + 1; }
        rest := rest - {r};
      }
    }

    /** The index row of a message, if it has one. */
    method FindRow(id: string) returns (found: Option<nat>)
      ensures found.Some? ==> found.value in work.index && work.index[found.value] == id
      ensures found.None? ==> forall r <- work.index :: work.index[r] != id
    {
      var rows := set r | r in work.index && work.index[r] == id;
      if rows == {} {
        assert forall r <- work.index :: work.index[r] == id ==> r in rows;
        return None;
      }
      var r :| r in rows;
      return Some(r);
    }
  }

  /** What a call that may raise did. */
  datatype Outcome = Done | Ignored | Raised

  class Memory {
    const db: Connection
    const ns: Namespace

    constructor (db: Connection, ns: Namespace)
      ensures this.db == db && this.ns == ns
    {
      this.db, this.ns := db, ns;
    }

    /** Between calls the tables agree, and nothing is uncommitted but the last summaries. */
    ghost predicate Valid()
      reads db
    {
      Agree(db.work) && Agree(db.committed) && Dropped(db.work, db.committed)
    }

    /** A call that fails leaves what was there, or what was committed. */
    ghost predicate Undone(was: Tables, saved: Tables)
      reads db
    {
      (db.work == was || db.work == saved) && db.committed == saved
    }

    /** `failAt` numbers the statement that fails, the commit included; past the last one
        nothing fails. */
    method LogMessage(post: Post, failAt: nat) returns (inserted: bool)
      requires Valid()
      modifies db
      ensures Valid()
      ensures inserted <==>
        post.id != "" && 0 < |post.message| <= 50000 && post.id !in old(db.work.log) && failAt > 5
      ensures inserted ==> LogTells(old(db.work), ns, post, db.work)
      ensures if inserted then Logged(old(db.work), ns, post, db.work) && db.committed == db.work
              else Undone(old(db.work), old(db.committed))
    {
      hide LogTells;
      if post.message == "" || |post.message| > 50000 { return false; }
      if post.id == "" { return false; }
      var truncated := Cut(post.message);
      if failAt == 0 { db.Rollback(); return false; }
      if Owns(db.work, ns, post.id) { return false; }
      var ok := db.Execute(InsertLog(db.work, post.id, RowOf(ns, post)), failAt == 1);
      if !ok { db.Rollback(); return false; }
      var text := Tokenize(truncated);
      var row := db.NewRow();
      ok := db.Execute(InsertFts(db.work, row, text), failAt == 2);
      if !ok { db.Rollback(); return false; }
      if failAt == 3 { db.Rollback(); return false; }
      ok := db.Execute(InsertIndex(db.work, row, post.id), failAt == 4);
      if !ok { db.Rollback(); return false; }
      ok := db.Commit(failAt == 5);
      if !ok { db.Rollback(); return false; }
      LogKeepsAgreement(old(db.work), ns, post, db.work);
      LoggedTells(old(db.work), ns, post, db.work);
      return true;
    }

    /** The first query is outside the `try`, so its failure is the caller's. */
    method UpdateMessage(id: string, message: string, failAt: nat) returns (outcome: Outcome)
      requires Valid()
      modifies db
      ensures Valid()
      ensures outcome.Done? <==>
        id != "" && 0 < |message| <= 50000 && id in old(db.work.log) && old(db.work.log[id].ns) == ns && failAt > 3
      ensures outcome.Raised? <==> id != "" && 0 < |message| <= 50000 && failAt == 0
      ensures outcome.Done? ==> EditTells(old(db.work), id, message, db.work)
      ensures if outcome.Done? then Edited(old(db.work), ns, id, message, db.work) && db.committed == db.work
              else Undone(old(db.work), old(db.committed))
    {
      hide EditTells, Cut, Tokenized;
      if id == "" || message == "" || |message| > 50000 { return Ignored; }
      var truncated := Cut(message);
      if failAt == 0 { return Raised; }
      var row := db.FindRow(id);
      if !Owns(db.work, ns, id) || row.None? { return Ignored; }
      var ok := db.Execute(UpdateLog(db.work, ns, id, truncated), failAt == 1);
      if !ok { db.Rollback(); return Ignored; }
      var text := Tokenize(truncated);
      ok := db.Execute(UpdateFts(db.work, row.value, text), failAt == 2);
      if !ok { db.Rollback(); return Ignored; }
      ok := db.Commit(failAt == 3);
      if !ok { db.Rollback(); return Ignored; }
      EditKeepsAgreement(old(db.work), ns, id, message, db.work);
      EditedTells(old(db.work), ns, id, message, db.work);
      return Done;
    }

    method DeleteMessage(id: string, failAt: nat) returns (outcome: Outcome)
      requires Valid()
      modifies db
      ensures Valid()
      ensures outcome.Done? <==> id in old(db.work.log) && old(db.work.log[id].ns) == ns && failAt > 5
      ensures outcome.Raised? <==> failAt == 0
      ensures outcome.Done? ==> DeleteTells(old(db.work), ns, id, db.work)
      ensures if outcome.Done? then Deleted(old(db.work), ns, id, db.work) && db.committed == db.work
              else Undone(old(db.work), old(db.committed))
    {
      hide DeleteTells;
      if failAt == 0 { return Raised; }
      if !Owns(db.work, ns, id) { return Ignored; }
      var channel := db.work.log[id].channel;
      var row := db.FindRow(id);
      assert row.Some?;
      DeletionStatements(db.work, ns, id, row.value);
      var ok := true;
      if row.Some? { ok := db.Execute(DeleteFts(db.work, row.value), failAt == 1); }
      if !ok { db.Rollback(); return Ignored; }
      ok := db.Execute(DeleteIndex(db.work, id), failAt == 2);
      if !ok { db.Rollback(); return Ignored; }
      ok := db.Execute(DeleteLog(db.work, ns, id), failAt == 3);
      if !ok { db.Rollback(); return Ignored; }
      ok := db.Execute(MarkStale(db.work, ns, channel), failAt == 4);
      if !ok { db.Rollback(); return Ignored; }
      ok := db.Commit(failAt == 5);
      if !ok { db.Rollback(); return Ignored; }
      DeleteKeepsAgreement(old(db.work), ns, id, db.work);
      DeletedTells(old(db.work), ns, id, db.work);
      return Done;
    }

    /** Nothing is rolled back here: a summary whose commit fails stays in the open transaction,
        for later calls to commit or to roll back. */
    method SaveConversationSegment(channel: string, topic: string, summary: string, now: real, failAt: nat)
      returns (outcome: Outcome)
      requires Valid()
      modifies db
      ensures Valid()
      ensures outcome == if failAt > 1 then Done else Raised
      ensures failAt == 0 ==> db.work == old(db.work)
      ensures failAt > 0 ==> Step(old(db.work), Save(Segment(ns, channel, now - 300.0, topic, summary, true)), db.work)
      ensures db.committed == if outcome.Done? then db.work else old(db.committed)
    {
      var s := Segment(ns, channel, now - 300.0, topic, summary, true);
      var ok := db.Execute(InsertSegment(db.work, s), failAt == 0);
      if !ok { return Raised; }
      ok := db.Commit(failAt == 1);
      return if ok then Done else Raised;
    }

    /** `SummaryRepository.latest`, before the text is read off the row. */
    method LatestSegment(channel: string) returns (found: Option<nat>)
      ensures IsLatest(db.work, ns, channel, found)
    {
      found := None;
      var i := 0;
      while i < |db.work.segments|
        invariant 0 <= i <= |db.work.segments|
        invariant IsLatest(db.work.(segments := db.work.segments[..i]), ns, channel, found)
      {
        var s := db.work.segments[i];
        if Of(s, ns, channel) && s.active && (found.None? || db.work.segments[found.value].startedAt < s.startedAt) {
          found := Some(i);
        }
        i := i + 1;
      }
      assert db.work.segments[..i] == db.work.segments;
    }

    method RecentSummary(channel: string) returns (summary: string)
      ensures exists found: Option<nat> :: IsLatest(db.work, ns, channel, found) &&
                summary == if found.None? then "" else db.work.segments[found.value].summary
    {
      var found := LatestSegment(channel);
      summary := if found.None? then "" else db.work.segments[found.value].summary;
    }
  }

  /** The most recently started active summary of a channel; which one, if several started
      together, is left to the database. */
  ghost predicate IsLatest(t: Tables, ns: Namespace, channel: string, found: Option<nat>) {
    match found
    case None => forall i :: 0 <= i < |t.segments| ==> !ActiveIn(t.segments[i], ns, channel)
    case Some(k) =>
      && k < |t.segments| && ActiveIn(t.segments[k], ns, channel)
      && forall i :: 0 <= i < |t.segments| && ActiveIn(t.segments[i], ns, channel) ==>
           t.segments[i].startedAt <= t.segments[k].startedAt
  }

  ghost predicate ActiveIn(s: Segment, ns: Namespace, channel: string) {
    s.active && s.ns == ns && s.channel == channel
  }

  // ---- what each operation keeps ----

  /** Adding a message with its index row. */
  lemma InsertionKeepsAgreement(t: Tables, id: string, record: Row, row: nat, t': Tables)
    requires Agree(t) && id !in t.log && row !in t.index
    requires t'.log == t.log[id := record] && t'.index == t.index[row := id]
    requires t'.fts == t.fts[row := Tokenized(record.message)]
    ensures Agree(t')
  {
    InsertionKeepsDistinct(t, id, row, t');
    forall other | other in t'.log ensures exists r :: r in t'.index && t'.index[r] == other {
      var r := if other == id then row else RowOfMessage(t, other);
      assert r in t'.index && t'.index[r] == other;
    }
  }

  ghost function RowOfMessage(t: Tables, id: string): (row: nat)
    requires AllIndexed(t) && id in t.log
    ensures row in t.index && t.index[row] == id
  {
    var row: nat :| row in t.index && t.index[row] == id;
    row
  }

  lemma InsertionKeepsDistinct(t: Tables, id: string, row: nat, t': Tables)
    requires RowsDistinct(t) && (forall r <- t.index :: t.index[r] in t.log) && id !in t.log && row !in t.index
    requires t'.index == t.index[row := id]
    ensures RowsDistinct(t')
  {
  }

  lemma LogKeepsAgreement(t: Tables, ns: Namespace, post: Post, t': Tables)
    requires Agree(t) && Logged(t, ns, post, t')
    ensures Agree(t')
  {
    var row: nat :| row !in t.fts && row !in t.index &&
      t' == t.(log := t.log[post.id := RowOf(ns, post)],
               fts := t.fts[row := Tokenized(Cut(post.message))],
               index := t.index[row := post.id]);
    InsertionKeepsAgreement(t, post.id, RowOf(ns, post), row, t');
  }

  lemma EditKeepsAgreement(t: Tables, ns: Namespace, id: string, message: string, t': Tables)
    requires Agree(t) && Edited(t, ns, id, message, t')
    ensures Agree(t')
  {
    var row: nat :| row in t.index && t.index[row] == id &&
      t' == t.(log := t.log[id := t.log[id].(message := Cut(message))], fts := t.fts[row := Tokenized(Cut(message))]);
    assert AllIndexed(t') by {
      forall other | other in t'.log ensures exists r :: r in t'.index && t'.index[r] == other {
        assert RowOfMessage(t, other) in t'.index;
      }
    }
  }

  /** Removing a message with its index row. */
  lemma RemovalKeepsAgreement(t: Tables, id: string, row: nat, t': Tables)
    requires Agree(t) && row in t.index && t.index[row] == id
    requires t'.log == t.log - {id} && t'.fts == t.fts - {row} && t'.index == t.index - {row}
    ensures Agree(t')
  {
    forall other | other in t'.log ensures exists r :: r in t'.index && t'.index[r] == other {
      var r := RowOfMessage(t, other);
      assert r in t'.index && t'.index[r] == other;
    }
  }

  lemma DeleteKeepsAgreement(t: Tables, ns: Namespace, id: string, t': Tables)
    requires Agree(t) && Deleted(t, ns, id, t')
    ensures Agree(t')
  {
    var row: nat :| row in t.index && t.index[row] == id &&
      t' == MarkStale(t, ns, t.log[id].channel).value
              .(log := t.log - {id}, fts := t.fts - {row}, index := t.index - {row});
    RemovalKeepsAgreement(t, id, row, t');
  }

  lemma DeleteIndexIsOneRow(t: Tables, id: string, row: nat)
    requires row in t.index && t.index[row] == id
    requires forall r <- t.index, s <- t.index :: t.index[r] == t.index[s] ==> r == s
    ensures DeleteIndex(t, id).value == t.(index := t.index - {row})
  {
    assert (map r | r in t.index && t.index[r] != id :: t.index[r]) == t.index - {row};
  }

  /** The four statements of a deletion together. */
  lemma DeletionStatements(t: Tables, ns: Namespace, id: string, row: nat)
    requires Agree(t) && Owns(t, ns, id) && row in t.index && t.index[row] == id
    ensures var t1 := DeleteFts(t, row).value;
            var t2 := DeleteIndex(t1, id).value;
            var t3 := DeleteLog(t2, ns, id).value;
            Deleted(t, ns, id, MarkStale(t3, ns, t.log[id].channel).value)
  {
    var t1 := DeleteFts(t, row).value;
    DeleteIndexIsOneRow(t1, id, row);
    var t2 := t1.(index := t.index - {row});
    var t3 := t2.(log := t.log - {id});
    var t4 := MarkStale(t3, ns, t.log[id].channel).value;
    assert t4.segments == MarkStale(t, ns, t.log[id].channel).value.segments;
  }

  lemma StepKeepsAgreement(t: Tables, op: Op, t': Tables)
    requires Agree(t) && Step(t, op, t')
    ensures Agree(t')
  {
    match op
    case Log(ns, post) => LogKeepsAgreement(t, ns, post, t');
    case Edit(ns, id, message) => EditKeepsAgreement(t, ns, id, message, t');
    case Delete(ns, id) => DeleteKeepsAgreement(t, ns, id, t');
    case Save(_) =>
    case Failed =>
  }

  // ---- whole runs, of any number of clients ----

  ghost predicate IsRun(states: seq<Tables>, ops: seq<Op>) {
    && |states| == |ops| + 1
    && states[0] == EMPTY
    && (forall i: nat :: i < |ops| ==> Follows(states, ops, i))
  }

  ghost predicate Follows(states: seq<Tables>, ops: seq<Op>, i: nat)
    requires i < |ops| && |states| == |ops| + 1
  {
    Step(states[i], ops[i], states[i + 1])
  }

  /** However operations and failures are interleaved, index and log agree. */
  lemma {:induction false} RunKeepsAgreement(states: seq<Tables>, ops: seq<Op>, i: nat)
    requires IsRun(states, ops) && i < |states|
    ensures Agree(states[i])
    decreases i
  {
    if i > 0 {
      RunKeepsAgreement(states, ops, i - 1);
      assert Follows(states, ops, i - 1);
      StepKeepsAgreement(states[i - 1], ops[i - 1], states[i]);
    }
  }

  predicate SameSegment(s: Segment, s': Segment) {
    s' == s || s' == s.(active := false)
  }

  /** There is a summary at place `i` at all times from `k` to `j`. */
  ghost predicate Stays(states: seq<Tables>, i: nat, k: nat, j: nat)
    requires j < |states|
  {
    forall l: nat :: k <= l <= j ==> i < |states[l].segments|
  }

  /** Then it is one and the same, and may be marked stale. */
  lemma {:induction false} SegmentAges(states: seq<Tables>, ops: seq<Op>, i: nat, k: nat, j: nat)
    requires IsRun(states, ops) && k <= j < |states| && Stays(states, i, k, j)
    ensures SameSegment(states[k].segments[i], states[j].segments[i])
    decreases j - k
  {
    if k < j {
      SegmentAges(states, ops, i, k, j - 1);
      assert Follows(states, ops, j - 1);
    }
  }

  /** Every stored summary was saved by some earlier step and has stayed since. */
  lemma {:induction false} SegmentWasSaved(states: seq<Tables>, ops: seq<Op>, j: nat, i: nat) returns (m: nat)
    requires IsRun(states, ops) && j < |states| && i < |states[j].segments|
    ensures m < j
    ensures ops[m].Save?
    ensures Stays(states, i, m + 1, j)
    ensures states[m + 1].segments[i] == ops[m].segment
    ensures SameSegment(ops[m].segment, states[j].segments[i])
    decreases j
  {
    assert j > 0;
    assert Follows(states, ops, j - 1);
    if i < |states[j - 1].segments| {
      m := SegmentWasSaved(states, ops, j - 1, i);
    } else {
      m := j - 1;
    }
    SegmentAges(states, ops, i, m + 1, j);
  }

  /** A summary returned for a channel was saved after the last successful deletion of a
      message of that channel: step `m` saved it, and step `k`, a deletion, came before. */
  lemma SummaryIsNewerThanDeletion(states: seq<Tables>, ops: seq<Op>, k: nat, j: nat, ns: Namespace, id: string,
                                   found: nat)
    returns (m: nat)
    requires IsRun(states, ops) && k < j < |states|
    requires ops[k] == Delete(ns, id) && id in states[k].log
    requires IsLatest(states[j], ns, states[k].log[id].channel, Some(found))
    ensures k < m < j
    ensures ops[m].Save?
    ensures ops[m].segment == states[j].segments[found]
  {
    m := SegmentWasSaved(states, ops, j, found);
    assert Follows(states, ops, k);
    if m < k {
      SegmentAges(states, ops, found, m + 1, k);
      SegmentAges(states, ops, found, k + 1, j);
      SegmentAges(states, ops, found, k, j);
    }
  }
}
