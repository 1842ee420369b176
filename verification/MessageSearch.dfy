/** Searching the message log (memory.py, `search_messages` and the two paths below it):
    through index, map and log, or by scanning the log. */
module MessageSearch {
  import opened Wrappers
  import opened Text
  import opened Fts
  import opened Tenancy
  import opened MessageStore

  /** What the database engine adds: how it breaks text into terms, which query strings it
      accepts, how it reads those that are not plain phrases, how it ranks an index row, and
      its `LIKE` test. */
  datatype Engine = Engine(
    terms: string -> seq<string>,
    accepts: string -> bool,
    other: (string, string) -> bool,
    rank: (map<nat, string>, string, nat) -> real,
    like: (string, string) -> bool)

  /** The terms `a` occur one after the other in `b`. */
  predicate Occurs(a: seq<string>, b: seq<string>) {
    |a| <= |b| && (b[..|a|] == a || (b != [] && Occurs(a, b[1..])))
  }

  /** Every phrase occurs in the document, and not all of them are devoid of terms. */
  predicate MatchAll(e: Engine, phrases: seq<string>, doc: string) {
    && (exists i :: 0 <= i < |phrases| && e.terms(phrases[i]) != [])
    && (forall i :: 0 <= i < |phrases| ==> Occurs(e.terms(phrases[i]), e.terms(doc)))
  }

  /** `fts MATCH query`, for an indexed text. */
  predicate FtsMatch(e: Engine, query: string, doc: string) {
    if Phrases(query).Some? then MatchAll(e, Phrases(query).value, doc) else e.other(query, doc)
  }

  /** A string left open is never accepted. */
  predicate Rejected(e: Engine, query: string) {
    Phrases(query).None? && (LeftOpen(query) || !e.accepts(query))
  }

  // ---- conditions ----

  /** Empty texts stand for conditions that are not given. */
  datatype Filters = Filters(channel: string, user: string, before: Option<real>, after: Option<real>)

  predicate Passes(f: Filters, row: Row) {
    && (f.channel != "" ==> row.channel == f.channel)
    && (f.user != "" ==> row.user == f.user)
    && (f.before.Some? ==> row.createAt < f.before.value)
    && (f.after.Some? ==> row.createAt > f.after.value)
  }

  datatype Clause =
    | MatchIs(query: string)
    | LikeIs(query: string)
    | InstallationIs(installation: string)
    | TenantIs(tenant: string)
    | ChannelIs(channel: string)
    | UserIs(user: string)
    | BeforeIs(before: real)
    | AfterIs(after: real)

  predicate Holds(e: Engine, c: Clause, row: Row, doc: string) {
    match c
    case MatchIs(query) => FtsMatch(e, query, doc)
    case LikeIs(query) => e.like(row.message, query)
    case InstallationIs(installation) => row.ns.installation == installation
    case TenantIs(tenant) => row.ns.tenant == tenant
    case ChannelIs(channel) => row.channel == channel
    case UserIs(user) => row.user == user
    case BeforeIs(before) => row.createAt < before
    case AfterIs(after) => row.createAt > after
  }

  /** `" AND ".join(clauses)`. */
  predicate All(e: Engine, clauses: seq<Clause>, row: Row, doc: string) {
    forall i :: 0 <= i < |clauses| ==> Holds(e, clauses[i], row, doc)
  }

  lemma AllConcat(e: Engine, a: seq<Clause>, b: seq<Clause>, row: Row, doc: string)
    ensures All(e, a + b, row, doc) <==> All(e, a, row, doc) && All(e, b, row, doc)
  {
    if All(e, a + b, row, doc) {
      forall i | 0 <= i < |a| ensures Holds(e, a[i], row, doc) { assert (a + b)[i] == a[i]; }
      forall i | 0 <= i < |b| ensures Holds(e, b[i], row, doc) { assert (a + b)[|a| + i] == b[i]; }
    }
  }

  function Given(condition: bool, c: Clause): seq<Clause> { if condition then [c] else [] }

  lemma AllGiven(e: Engine, condition: bool, c: Clause, row: Row, doc: string)
    ensures All(e, Given(condition, c), row, doc) <==> (condition ==> Holds(e, c, row, doc))
  {
    if condition { assert Given(condition, c)[0] == c; }
  }

  function FilterClauses(f: Filters): seq<Clause> {
    Given(f.channel != "", ChannelIs(f.channel)) + Given(f.user != "", UserIs(f.user))
    + (if f.before.Some? then [BeforeIs(f.before.value)] else [])
    + (if f.after.Some? then [AfterIs(f.after.value)] else [])
  }

  lemma FilterClausesSay(e: Engine, f: Filters, row: Row, doc: string)
    ensures All(e, FilterClauses(f), row, doc) <==> Passes(f, row)
  {
    var c, u := Given(f.channel != "", ChannelIs(f.channel)), Given(f.user != "", UserIs(f.user));
    var b := Given(f.before.Some?, BeforeIs(if f.before.Some? then f.before.value else 0.0));
    var a := Given(f.after.Some?, AfterIs(if f.after.Some? then f.after.value else 0.0));
    assert FilterClauses(f) == c + u + b + a;
    AllConcat(e, c + u + b, a, row, doc);
    AllConcat(e, c + u, b, row, doc);
    AllConcat(e, c, u, row, doc);
    AllGiven(e, f.channel != "", ChannelIs(f.channel), row, doc);
    AllGiven(e, f.user != "", UserIs(f.user), row, doc);
    AllGiven(e, f.before.Some?, BeforeIs(if f.before.Some? then f.before.value else 0.0), row, doc);
    AllGiven(e, f.after.Some?, AfterIs(if f.after.Some? then f.after.value else 0.0), row, doc);
  }

  function Clauses(first: seq<Clause>, ns: Namespace, f: Filters): seq<Clause> {
    first + [InstallationIs(ns.installation), TenantIs(ns.tenant)] + FilterClauses(f)
  }

  lemma ClausesSay(e: Engine, first: seq<Clause>, ns: Namespace, f: Filters, row: Row, doc: string)
    ensures All(e, Clauses(first, ns, f), row, doc) <==> All(e, first, row, doc) && row.ns == ns && Passes(f, row)
  {
    var own := [InstallationIs(ns.installation), TenantIs(ns.tenant)];
    AllConcat(e, first + own, FilterClauses(f), row, doc);
    AllConcat(e, first, own, row, doc);
    FilterClausesSay(e, f, row, doc);
    assert All(e, own, row, doc) <==> Holds(e, own[0], row, doc) && Holds(e, own[1], row, doc);
  }

  lemma AllOne(e: Engine, c: Clause, row: Row, doc: string)
    ensures All(e, [c], row, doc) <==> Holds(e, c, row, doc)
  {
    assert [c][0] == c;
  }

  method ClauseList(first: seq<Clause>, ns: Namespace, f: Filters) returns (clauses: seq<Clause>)
    ensures clauses == Clauses(first, ns, f)
  {
    clauses := first;
    clauses := clauses + [InstallationIs(ns.installation), TenantIs(ns.tenant)];
    clauses := AddWho(clauses, f);
    clauses := AddTimes(clauses, f);
  }

  method AddWho(clauses: seq<Clause>, f: Filters) returns (more: seq<Clause>)
    ensures more == clauses + (Given(f.channel != "", ChannelIs(f.channel)) + Given(f.user != "", UserIs(f.user)))
  {
    more := clauses;
    if f.channel != "" { more := more + [ChannelIs(f.channel)]; }
    if f.user != "" { more := more + [UserIs(f.user)]; }
  }

  method AddTimes(clauses: seq<Clause>, f: Filters) returns (more: seq<Clause>)
    ensures more == clauses + ((if f.before.Some? then [BeforeIs(f.before.value)] else [])
                               + (if f.after.Some? then [AfterIs(f.after.value)] else []))
  {
    more := clauses;
    if f.before.Some? { more := more + [BeforeIs(f.before.value)]; }
    if f.after.Some? { more := more + [AfterIs(f.after.value)]; }
  }

  // ---- ordering and limit ----

  /** The best `limit` elements of a set, best first; a negative limit takes them all. */
  ghost predicate IsTop<T(!new)>(rows: seq<T>, wanted: set<T>, key: T -> real, limit: int) {
    && (forall i, j :: 0 <= i < j < |rows| ==> rows[i] != rows[j] && key(rows[i]) <= key(rows[j]))
    && (forall i :: 0 <= i < |rows| ==> rows[i] in wanted)
    && |rows| == (if 0 <= limit < |wanted| then limit else |wanted|)
    && (forall x, i :: x in wanted && x !in rows && 0 <= i < |rows| ==> key(rows[i]) <= key(x))
  }

  /** Some of the wanted messages, none twice, as many as the limit allows. */
  ghost predicate Lists(ids: seq<string>, wanted: set<string>, limit: int) {
    && (forall i, j :: 0 <= i < j < |ids| ==> ids[i] != ids[j])
    && (forall i :: 0 <= i < |ids| ==> ids[i] in wanted)
    && |ids| == (if 0 <= limit < |wanted| then limit else |wanted|)
  }

  /** The newest wanted messages, newest first. */
  ghost predicate Newest(t: Tables, ids: seq<string>, wanted: set<string>, limit: int) {
    && Lists(ids, wanted, limit) && wanted <= t.log.Keys
    && (forall i, j :: 0 <= i < j < |ids| ==> t.log[ids[i]].createAt >= t.log[ids[j]].createAt)
    && (forall id, i :: id in wanted && id !in ids && 0 <= i < |ids| ==> t.log[id].createAt <= t.log[ids[i]].createAt)
  }

  /** The wanted messages with the lowest ranks of their index rows, lowest first. */
  ghost predicate BestRanked(t: Tables, e: Engine, expression: string, ids: seq<string>, wanted: set<string>,
                             limit: int)
  {
    && Lists(ids, wanted, limit)
    && (forall i, j :: 0 <= i < j < |ids| ==> RankedBefore(t, e, expression, ids[i], ids[j]))
    && (forall id, i :: id in wanted && id !in ids && 0 <= i < |ids| ==> RankedBefore(t, e, expression, ids[i], id))
  }

  /** The index row of one message has at most the rank of that of the other. */
  ghost predicate RankedBefore(t: Tables, e: Engine, expression: string, id: string, other: string) {
    forall r: nat, s: nat | r in t.index && s in t.index ::
      t.index[r] == id && t.index[s] == other ==> e.rank(t.fts, expression, r) <= e.rank(t.fts, expression, s)
  }

  /** `ORDER BY key LIMIT limit`. */
  method Top<T(!new, ==)>(wanted: set<T>, key: T -> real, limit: int) returns (rows: seq<T>)
    ensures IsTop(rows, wanted, key, limit)
  {
    rows := [];
    var rest := wanted;
    var count := if 0 <= limit < |wanted| then limit else |wanted|;
    while |rows| < count
      invariant |rows| <= count && |rest| + |rows| == |wanted|
      invariant forall x :: x in rest <==> x in wanted && x !in rows
      invariant forall i :: 0 <= i < |rows| ==> rows[i] in wanted
      invariant forall i, j :: 0 <= i < j < |rows| ==> rows[i] != rows[j] && key(rows[i]) <= key(rows[j])
      invariant forall x, i :: x in rest && 0 <= i < |rows| ==> key(rows[i]) <= key(x)
    {
      var best := Least(rest, key);
      rows := rows + [best];
      rest := rest - {best};
    }
  }

  method Least<T(!new, ==)>(s: set<T>, key: T -> real) returns (best: T)
    requires s != {}
    ensures best in s && forall x :: x in s ==> key(best) <= key(x)
  {
    best :| best in s;
    var rest := s - {best};
    if rest != {} {
      var other := Least(rest, key);
      if key(other) < key(best) { best := other; }
    }
  }

  // ---- what a search should find ----

  /** A scan of the log: the messages of the namespace that pass the filters and in whose
      tokenized text every phrase occurs. */
  ghost function Scan(t: Tables, e: Engine, ns: Namespace, phrases: seq<string>, f: Filters): set<string> {
    set id | id in t.log && t.log[id].ns == ns && Passes(f, t.log[id])
             && MatchAll(e, phrases, Tokenized(t.log[id].message))
  }

  /** The terms `a` stand in `b` from place `k` on. */
  ghost predicate OccursAt(a: seq<string>, b: seq<string>, k: nat) { k + |a| <= |b| && b[k..k + |a|] == a }

  lemma {:induction false} OccursSomewhere(a: seq<string>, b: seq<string>)
    ensures Occurs(a, b) <==> exists k: nat :: OccursAt(a, b, k)
    decreases |b|
  {
    if |a| <= |b| && b[..|a|] == a {
      assert OccursAt(a, b, 0);
    } else if b != [] {
      OccursSomewhere(a, b[1..]);
      if k: nat :| OccursAt(a, b[1..], k) {
        assert b[1..][k..k + |a|] == b[k + 1..k + 1 + |a|] && OccursAt(a, b, k + 1);
      }
      if k: nat :| OccursAt(a, b, k) { assert k > 0 && b[1..][k - 1..k - 1 + |a|] == a && OccursAt(a, b[1..], k - 1); }
    }
  }

  /** A scan finds the messages in which every phrase stands somewhere, term by term, provided that one
      of the phrases has terms. */
  lemma ScanMeans(t: Tables, e: Engine, ns: Namespace, phrases: seq<string>, f: Filters, id: string)
    ensures id in Scan(t, e, ns, phrases, f) <==>
      && id in FilterScan(t, ns, f)
      && (exists phrase <- phrases :: e.terms(phrase) != [])
      && (forall phrase <- phrases ::
            exists k: nat :: OccursAt(e.terms(phrase), e.terms(Tokenized(t.log[id].message)), k))
  {
    if id in t.log {
      forall phrase | phrase in phrases
        ensures Occurs(e.terms(phrase), e.terms(Tokenized(t.log[id].message))) <==>
                exists k: nat :: OccursAt(e.terms(phrase), e.terms(Tokenized(t.log[id].message)), k)
      {
        OccursSomewhere(e.terms(phrase), e.terms(Tokenized(t.log[id].message)));
      }
    }
  }

  /** The same with a query string, whatever it means to the engine. */
  ghost function Matching(t: Tables, e: Engine, ns: Namespace, expression: string, f: Filters): set<string> {
    set id | id in t.log && t.log[id].ns == ns && Passes(f, t.log[id])
             && FtsMatch(e, expression, Tokenized(t.log[id].message))
  }

  ghost function LikeScan(t: Tables, e: Engine, ns: Namespace, query: string, f: Filters): set<string> {
    set id | id in t.log && t.log[id].ns == ns && Passes(f, t.log[id]) && e.like(t.log[id].message, query)
  }

  ghost function FilterScan(t: Tables, ns: Namespace, f: Filters): set<string> {
    set id | id in t.log && t.log[id].ns == ns && Passes(f, t.log[id])
  }

  /** Newest first. */
  function NewestFirst(t: Tables): string -> real {
    (id: string) => if id in t.log then -t.log[id].createAt else 0.0
  }

  /** Most relevant first. */
  ghost function BestFirst(t: Tables, e: Engine, query: string): string -> real
    requires Agree(t)
  {
    (id: string) => if id in t.log then e.rank(t.fts, query, RowOfMessage(t, id)) else 0.0
  }

  /** The join of log, map and index, by index row. */
  function JoinRows(t: Tables, e: Engine, clauses: seq<Clause>): set<nat> {
    set row | row in t.index && row in t.fts && t.index[row] in t.log
              && All(e, clauses, t.log[t.index[row]], t.fts[row])
  }

  /** Joined row by row, the index finds each matching message at one row. */
  lemma JoinIsScan(t: Tables, e: Engine, query: string, ns: Namespace, f: Filters)
    requires Agree(t)
    ensures forall row: nat :: row in JoinRows(t, e, Clauses([MatchIs(query)], ns, f)) <==>
              row in t.index && t.index[row] in Matching(t, e, ns, query, f)
  {
    var clauses := Clauses([MatchIs(query)], ns, f);
    forall row: nat | row in t.index
      ensures All(e, clauses, t.log[t.index[row]], t.fts[row]) <==> t.index[row] in Matching(t, e, ns, query, f)
    {
      ClausesSay(e, [MatchIs(query)], ns, f, t.log[t.index[row]], t.fts[row]);
      AllOne(e, MatchIs(query), t.log[t.index[row]], t.fts[row]);
    }
  }

  /** A query string of unquoted words matches what a scan for these words finds, unless a NUL
      character makes every engine reject it. */
  lemma MatchingIsScan(t: Tables, e: Engine, ns: Namespace, words: seq<string>, f: Filters)
    requires Unquoted(words)
    ensures Rejected(e, QueryOf(words)) <==> !NulFree(words)
    ensures NulFree(words) ==> Matching(t, e, ns, QueryOf(words), f) == Scan(t, e, ns, words, f)
  {
    QueryMeansItsWords(words);
    if !NulFree(words) { NulLeavesOpen(words); }
  }

  function IdsAt(t: Tables, rows: seq<nat>): seq<string>
    requires forall i :: 0 <= i < |rows| ==> rows[i] in t.index
  {
    seq(|rows|, i requires 0 <= i < |rows| => t.index[rows[i]])
  }

  /** How the rows that answer a query relate to the messages they belong to. */
  ghost predicate RowsAre(t: Tables, rowSet: set<nat>, ids: set<string>) {
    && (forall row: nat :: row in rowSet <==> row in t.index && t.index[row] in ids)
    && (forall id <- ids :: id in t.log)
  }

  ghost predicate KeysAgree(t: Tables, ids: set<string>, rowKey: nat -> real, idKey: string -> real)
    requires Agree(t)
  {
    forall id <- ids :: id in t.log && idKey(id) == rowKey(RowOfMessage(t, id))
  }

  /** Since the map is a bijection, going from rows to messages loses and repeats nothing. */
  lemma RowsToIds(t: Tables, rows: seq<nat>, rowSet: set<nat>, ids: set<string>, rowKey: nat -> real,
                  idKey: string -> real, limit: int)
    requires Agree(t) && IsTop(rows, rowSet, rowKey, limit)
    requires RowsAre(t, rowSet, ids) && KeysAgree(t, ids, rowKey, idKey)
    requires forall i :: 0 <= i < |rows| ==> rows[i] in t.index
    ensures IsTop(IdsAt(t, rows), ids, idKey, limit)
  {
    SameSize(t, rowSet, ids);
    var found := IdsAt(t, rows);
    forall i | 0 <= i < |rows| ensures idKey(found[i]) == rowKey(rows[i]) && found[i] in ids {
      assert rows[i] in rowSet;
    }
    forall id, i | id in ids && id !in found && 0 <= i < |found| ensures idKey(found[i]) <= idKey(id) {
      LeftOut(t, rows, rowSet, ids, id);
    }
  }

  /** A message that is not listed has a row that is not listed. */
  lemma LeftOut(t: Tables, rows: seq<nat>, rowSet: set<nat>, ids: set<string>, id: string)
    requires Agree(t) && RowsAre(t, rowSet, ids) && id in ids
    requires (forall i :: 0 <= i < |rows| ==> rows[i] in t.index) && id !in IdsAt(t, rows)
    ensures RowOfMessage(t, id) in rowSet && RowOfMessage(t, id) !in rows
  {
    var found := IdsAt(t, rows);
    assert forall k :: 0 <= k < |rows| ==> found[k] == t.index[rows[k]] && found[k] in found;
  }

  lemma {:induction false} SameSize(t: Tables, rowSet: set<nat>, ids: set<string>)
    requires Agree(t) && RowsAre(t, rowSet, ids)
    ensures |rowSet| == |ids|
    decreases ids
  {
    if ids == {} {
      assert rowSet == {};
    } else {
      var id :| id in ids;
      var row := RowOfMessage(t, id);
      SameSize(t, rowSet - {row}, ids - {id});
    }
  }

  lemma TopIsNewest(t: Tables, ids: seq<string>, wanted: set<string>, limit: int)
    requires wanted <= t.log.Keys && IsTop(ids, wanted, NewestFirst(t), limit)
    ensures Newest(t, ids, wanted, limit)
  {
  }

  lemma TopIsBestRanked(t: Tables, e: Engine, expression: string, ids: seq<string>, wanted: set<string>, limit: int)
    requires Agree(t) && wanted <= t.log.Keys && IsTop(ids, wanted, BestFirst(t, e, expression), limit)
    ensures BestRanked(t, e, expression, ids, wanted, limit)
  {
    var key := BestFirst(t, e, expression);
    forall r: nat | r in t.index ensures key(t.index[r]) == e.rank(t.fts, expression, r) {
      assert RowOfMessage(t, t.index[r]) == r;
    }
  }

  // ---- the searches ----

  /** `_search_messages_fts`; `broken` says that the query fails for a reason of its own. */
  method SearchFts(m: Memory, e: Engine, query: string, f: Filters, limit: int, broken: bool)
    returns (ids: seq<string>)
    requires m.Valid()
    ensures var expression := QueryOf(Words(Tokenized(query)));
            if broken || Rejected(e, expression)
            then Newest(m.db.work, ids, LikeScan(m.db.work, e, m.ns, query, f), limit)
            else BestRanked(m.db.work, e, expression, ids, Matching(m.db.work, e, m.ns, expression, f), limit)
  {
    var t := m.db.work;
    var expression := QueryOf(Words(Tokenized(query)));
    if broken || Rejected(e, expression) {
      ids := SearchLike(m, e, query, f, limit);
      return;
    }
    var clauses := ClauseList([MatchIs(expression)], m.ns, f);
    var rowKey := (row: nat) => e.rank(t.fts, expression, row);
    var rowSet := JoinRows(t, e, clauses);
    var rows := Top(rowSet, rowKey, limit);
    assert forall i :: 0 <= i < |rows| ==> rows[i] in rowSet;
    ids := IdsAt(t, rows);
    JoinIsScan(t, e, expression, m.ns, f);
    RowsToIds(t, rows, rowSet, Matching(t, e, m.ns, expression, f), rowKey, BestFirst(t, e, expression), limit);
    TopIsBestRanked(t, e, expression, ids, Matching(t, e, m.ns, expression, f), limit);
  }

  /** `_search_messages_like`. */
  method SearchLike(m: Memory, e: Engine, query: string, f: Filters, limit: int) returns (ids: seq<string>)
    ensures Newest(m.db.work, ids, LikeScan(m.db.work, e, m.ns, query, f), limit)
  {
    var t := m.db.work;
    var clauses := ClauseList([LikeIs(query)], m.ns, f);
    var wanted := set id | id in t.log && All(e, clauses, t.log[id], "");
    forall id | id in t.log ensures id in wanted <==> id in LikeScan(t, e, m.ns, query, f) {
      ClausesSay(e, [LikeIs(query)], m.ns, f, t.log[id], "");
      AllOne(e, LikeIs(query), t.log[id], "");
    }
    assert wanted == LikeScan(t, e, m.ns, query, f);
    ids := Top(wanted, NewestFirst(t), limit);
    TopIsNewest(t, ids, wanted, limit);
  }

  /** The words of a query hold a quote, or a NUL character, exactly when the query does. */
  lemma QuotesOfQuery(query: string)
    ensures Unquoted(Words(Tokenized(query))) <==> '"' !in query
    ensures NulFree(Words(Tokenized(query))) <==> '\0' !in query
  {
    TokenizingIsIdempotent(query);
    WordsAreInk(Tokenized(query));
    InLetters(Words(Tokenized(query)), '"');
    InInk(query, '"');
    InLetters(Words(Tokenized(query)), '\0');
    InInk(query, '\0');
  }

  lemma {:induction false} InLetters(words: seq<string>, c: char)
    ensures c in Letters(words) <==> exists i :: 0 <= i < |words| && c in words[i]
    decreases |words|
  {
    if words != [] {
      InLetters(words[1..], c);
      if i :| 0 <= i < |words| && c in words[i] {
        assert i > 0 ==> words[i] == words[1..][i - 1];
      }
      if j :| 0 <= j < |words[1..]| && c in words[1..][j] {
        assert words[j + 1] == words[1..][j];
      }
    }
  }

  lemma {:induction false} InInk(s: string, c: char)
    requires !IsSpace(c)
    ensures c in Ink(s) <==> c in s
    decreases |s|
  {
    if s != "" {
      InInk(s[1..], c);
      assert s == [s[0]] + s[1..];
    }
  }

  lemma WordsOfQuery(query: string)
    requires !Blank(query)
    ensures Words(Tokenized(query)) != []
  {
    TokenizingIsIdempotent(query);
    WordsAreInk(Tokenized(query));
    var k :| 0 <= k < |query| && !IsSpace(query[k]);
    InInk(query, query[k]);
  }

  /** What the index search looks for: for a query without quotes, its words; with a NUL character
      it is refused. */
  lemma QueryScans(t: Tables, e: Engine, ns: Namespace, query: string, f: Filters)
    requires !Blank(query) && '"' !in query
    ensures var words := Words(Tokenized(query));
            && words != [] && (Rejected(e, QueryOf(words)) <==> '\0' in query)
            && ('\0' !in query ==> Matching(t, e, ns, QueryOf(words), f) == Scan(t, e, ns, words, f))
  {
    QuotesOfQuery(query);
    WordsOfQuery(query);
    MatchingIsScan(t, e, ns, Words(Tokenized(query)), f);
  }

  /** `search_messages`: without a keyword only the filters apply; with one, the query string
      or, if the engine refuses it or fails, the substring decides. */
  method Search(m: Memory, e: Engine, query: string, f: Filters, limit: int, broken: bool)
    returns (ids: seq<string>)
    requires m.Valid()
    ensures Blank(query) ==> Newest(m.db.work, ids, FilterScan(m.db.work, m.ns, f), limit)
    ensures var words := Words(Tokenized(query));
            !Blank(query) && !broken && '"' !in query && '\0' !in query ==>
              && words != []
              && BestRanked(m.db.work, e, QueryOf(words), ids, Scan(m.db.work, e, m.ns, words, f), limit)
    ensures var expression := QueryOf(Words(Tokenized(query)));
            !Blank(query) && !broken && !Rejected(e, expression) ==>
              BestRanked(m.db.work, e, expression, ids, Matching(m.db.work, e, m.ns, expression, f), limit)
    ensures !Blank(query) && (broken || Rejected(e, QueryOf(Words(Tokenized(query))))) ==>
              Newest(m.db.work, ids, LikeScan(m.db.work, e, m.ns, query, f), limit)
  {
    hide Newest, BestRanked, IsTop, MatchAll, FtsMatch;
    if !Blank(query) {
      if '"' !in query { QueryScans(m.db.work, e, m.ns, query, f); }
      ids := SearchFts(m, e, query, f, limit, broken);
    } else {
      var t := m.db.work;
      var clauses := ClauseList([], m.ns, f);
      var wanted := set id | id in t.log && All(e, clauses, t.log[id], "");
      forall id | id in t.log ensures id in wanted <==> id in FilterScan(t, m.ns, f) {
        ClausesSay(e, [], m.ns, f, t.log[id], "");
      }
      assert wanted == FilterScan(t, m.ns, f);
      ids := Top(wanted, NewestFirst(t), limit);
      TopIsNewest(t, ids, wanted, limit);
    }
  }

  // ---- from posts and edits to search results ----

  ghost predicate Deletes(op: Op, id: string) { op.Delete? && op.id == id }

  ghost predicate Edits(op: Op, id: string) { op.Edit? && op.id == id }

  /** Step `m` logged the message, and it was not deleted since. */
  ghost predicate Posted(ops: seq<Op>, i: nat, id: string, m: nat) {
    && m < i <= |ops| && ops[m].Log? && ops[m].post.id == id
    && forall j: nat :: m < j < i ==> !Deletes(ops[j], id)
  }

  /** Step `k` is the last to have worded it, the post or an edit. */
  ghost predicate Written(ops: seq<Op>, i: nat, id: string, m: nat, k: nat) {
    && Posted(ops, i, id, m)
    && m <= k < i && (k == m || Edits(ops[k], id))
    && forall j: nat :: k < j < i ==> !Edits(ops[j], id)
  }

  function Wording(op: Op): string
    requires op.Log? || op.Edit?
  {
    if op.Log? then op.post.message else op.message
  }

  /** But for its text a message stays what was posted. */
  lemma {:induction false} PostIsStored(states: seq<Tables>, ops: seq<Op>, i: nat, id: string, m: nat)
    requires IsRun(states, ops) && Posted(ops, i, id, m)
    ensures id in states[i].log
    ensures var row := states[i].log[id];
            exists message :: RowTells(row.(message := message), ops[m].ns, ops[m].post)
    decreases i
  {
    assert Follows(states, ops, i - 1);
    var message := Cut(ops[m].post.message);
    if m < i - 1 {
      PostIsStored(states, ops, i - 1, id, m);
      assert !Deletes(ops[i - 1], id);
      message :| RowTells(states[i - 1].log[id].(message := message), ops[m].ns, ops[m].post);
    }
    assert RowTells(states[i].log[id].(message := message), ops[m].ns, ops[m].post);
  }

  /** The text is that of the last post or edit. */
  lemma {:induction false} WordingIsStored(states: seq<Tables>, ops: seq<Op>, i: nat, id: string, m: nat, k: nat)
    requires IsRun(states, ops) && Written(ops, i, id, m, k)
    ensures id in states[i].log && Kept(states[i].log[id].message, Wording(ops[k]))
    decreases i
  {
    assert Follows(states, ops, i - 1);
    if k < i - 1 {
      WordingIsStored(states, ops, i - 1, id, m, k);
      assert !Deletes(ops[i - 1], id) && !Edits(ops[i - 1], id);
    }
  }

  /** Whatever is stored was posted and worded by some steps. */
  lemma {:induction false} StoredWasWritten(states: seq<Tables>, ops: seq<Op>, i: nat, id: string)
    returns (m: nat, k: nat)
    requires IsRun(states, ops) && i < |states| && id in states[i].log
    ensures Written(ops, i, id, m, k)
    decreases i
  {
    assert i > 0;
    var op := ops[i - 1];
    assert Follows(states, ops, i - 1);
    m, k := i - 1, i - 1;
    if !op.Log? || op.post.id != id {
      m, k := StoredWasWritten(states, ops, i - 1, id);
      if Edits(op, id) { k := i - 1; }
    }
  }

  predicate PostPasses(f: Filters, post: Post) {
    && (f.channel != "" ==> post.channel == f.channel)
    && (f.user != "" ==> post.user == f.user)
    && (f.before.Some? ==> post.createAt as real < f.before.value * 1000.0)
    && (f.after.Some? ==> post.createAt as real > f.after.value * 1000.0)
  }

  /** The message was posted in the namespace, with such a channel, author and time, is not deleted,
      and what it was last worded as matches. */
  ghost predicate Answers(ops: seq<Op>, i: nat, e: Engine, ns: Namespace, expression: string, f: Filters, id: string) {
    exists m: nat, k: nat :: Written(ops, i, id, m, k) && ops[m].ns == ns && PostPasses(f, ops[m].post)
                   && exists stored :: Kept(stored, Wording(ops[k])) && FtsMatch(e, expression, Tokenized(stored))
  }

  lemma KeptIsUnique(a: string, b: string, message: string)
    requires Kept(a, message) && Kept(b, message)
    ensures a == b
  {
  }

  lemma MatchingAnswers(states: seq<Tables>, ops: seq<Op>, i: nat, e: Engine, ns: Namespace, expression: string,
                        f: Filters, id: string)
    requires IsRun(states, ops) && i < |states|
    ensures id in Matching(states[i], e, ns, expression, f) <==> Answers(ops, i, e, ns, expression, f, id)
  {
    if id in states[i].log {
      var m, k := StoredWasWritten(states, ops, i, id);
      forall m': nat, k': nat | Written(ops, i, id, m', k')
        ensures Kept(states[i].log[id].message, Wording(ops[k']))
        ensures exists message :: RowTells(states[i].log[id].(message := message), ops[m'].ns, ops[m'].post)
      {
        PostIsStored(states, ops, i, id, m');
        WordingIsStored(states, ops, i, id, m', k');
      }
      forall stored, k': nat | k' < |ops| && (ops[k'].Log? || ops[k'].Edit?) && Kept(stored, Wording(ops[k']))
                               && Kept(states[i].log[id].message, Wording(ops[k']))
        ensures stored == states[i].log[id].message
      {
        KeptIsUnique(stored, states[i].log[id].message, Wording(ops[k']));
      }
    } else if m: nat, k: nat :| Written(ops, i, id, m, k) {
      PostIsStored(states, ops, i, id, m);
    }
  }

  /** In every run of logs, edits, deletions and failures the result of a search lists only messages
      that answer it by their post and their last wording, best first, and all of them if it is not
      cut off by the limit. */
  lemma SearchReflectsRun(states: seq<Tables>, ops: seq<Op>, i: nat, e: Engine, ns: Namespace, expression: string,
                          f: Filters, limit: int, ids: seq<string>)
    requires IsRun(states, ops) && i < |states|
    requires Lists(ids, Matching(states[i], e, ns, expression, f), limit)
    ensures forall id <- ids :: Answers(ops, i, e, ns, expression, f, id)
    ensures limit < 0 || |ids| < limit ==>
              forall id :: Answers(ops, i, e, ns, expression, f, id) ==> id in ids
  {
    var wanted := Matching(states[i], e, ns, expression, f);
    forall id ensures id in wanted <==> Answers(ops, i, e, ns, expression, f, id) {
      MatchingAnswers(states, ops, i, e, ns, expression, f, id);
    }
    if limit < 0 || |ids| < limit { NoneLeftOut(ids, wanted); }
  }

  /** Distinct elements of a set, as many as it has, are all of it. */
  lemma {:induction false} NoneLeftOut<T>(rows: seq<T>, wanted: set<T>)
    requires forall i, j :: 0 <= i < j < |rows| ==> rows[i] != rows[j]
    requires (forall i :: 0 <= i < |rows| ==> rows[i] in wanted) && |rows| == |wanted|
    ensures forall x <- wanted :: x in rows
    decreases |rows|
  {
    if rows != [] {
      var init, last := rows[..|rows| - 1], rows[|rows| - 1];
      NoneLeftOut(init, wanted - {last});
      assert rows == init + [last];
    }
  }
}
