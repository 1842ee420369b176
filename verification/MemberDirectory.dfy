/** The bounded, deduplicated directory of a channel's members (client.py,
    `list_channel_users_async`). */
module MemberDirectory {
  import opened Wrappers

  const PAGE_SIZE := 200
  const MAX_PAGES := 25

  datatype User = User(id: string, profile: string)

  datatype Error = NoChannel | InconsistentUsers | TooManyMembers

  /** The member list of a channel, where an entry without a user id is empty, and the answer
      to a request for the user records of some ids. */
  datatype Server = Server(members: seq<string>, users: seq<string> -> seq<User>)

  function Least(a: nat, b: nat): nat { if a < b then a else b }

  function Page(members: seq<string>, page: nat): seq<string> {
    members[Least(page * PAGE_SIZE, |members|)..Least((page + 1) * PAGE_SIZE, |members|)]
  }

  /** The ids of a page that are worth asking for. */
  function Wanted(page: seq<string>, seen: set<string>): seq<string> {
    if page == [] then []
    else (if page[0] != "" && page[0] !in seen then [page[0]] else []) + Wanted(page[1..], seen)
  }

  lemma {:induction false} WantedAre(page: seq<string>, seen: set<string>)
    ensures forall id :: id in Wanted(page, seen) <==> id in page && id != "" && id !in seen
    decreases |page|
  {
    if page != [] {
      WantedAre(page[1..], seen);
      assert page == [page[0]] + page[1..];
    }
  }

  function IdsOf(users: seq<User>): set<string> {
    set i | 0 <= i < |users| :: users[i].id
  }

  function Named(members: seq<string>): set<string> {
    set i | 0 <= i < |members| && members[i] != "" :: members[i]
  }

  ghost predicate Distinct(users: seq<User>) {
    forall i, j :: 0 <= i < j < |users| ==> users[i].id != users[j].id
  }

  ghost predicate From(users: seq<User>, profiles: map<string, string>) {
    forall i :: 0 <= i < |users| ==> users[i].id in profiles && users[i].profile == profiles[users[i].id]
  }

  predicate AllNamed(ids: seq<string>, members: seq<string>) {
    forall i :: 0 <= i < |ids| ==> ids[i] in Named(members)
  }

  /** A server that, asked for members, answers with their records: all of them, no others, and
      each with the profile on file, though possibly repeated and in any order. */
  ghost predicate Honest(s: Server, profiles: map<string, string>) {
    forall ids: seq<string> :: AllNamed(ids, s.members) ==>
      IdsOf(s.users(ids)) == (set i | 0 <= i < |ids| :: ids[i]) && From(s.users(ids), profiles)
  }

  /** There is such a server for every member list. */
  lemma HonestServerExists(members: seq<string>, profiles: map<string, string>)
    requires forall id <- Named(members) :: id in profiles
    ensures exists s: Server :: s.members == members && Honest(s, profiles)
  {
    var s := Server(members, (ids: seq<string>) => Answer(ids, profiles));
    forall ids: seq<string> | AllNamed(ids, members)
      ensures IdsOf(s.users(ids)) == (set i | 0 <= i < |ids| :: ids[i]) && From(s.users(ids), profiles)
    {
      forall i | 0 <= i < |ids| ensures ids[i] in IdsOf(s.users(ids)) {
        assert s.users(ids)[i].id == ids[i];
      }
    }
  }

  function Answer(ids: seq<string>, profiles: map<string, string>): seq<User> {
    seq(|ids|, i requires 0 <= i < |ids| => User(ids[i], if ids[i] in profiles then profiles[ids[i]] else ""))
  }

  lemma IdsAppend(users: seq<User>, u: User)
    ensures IdsOf(users + [u]) == IdsOf(users) + {u.id}
  {
    var more := users + [u];
    assert more[|users|] == u;
    forall id | id in IdsOf(users) ensures id in IdsOf(more) {
      var i :| 0 <= i < |users| && users[i].id == id;
      assert more[i] == users[i];
    }
  }

  /** The records added are those of the answer whose ids are not yet listed, in the order of the answer. */
  ghost predicate AddsNew(users: seq<User>, more: seq<User>, answer: seq<User>) {
    && users <= more && (forall i :: 0 <= i < |answer| ==> answer[i].id in IdsOf(more))
    && forall k :: |users| <= k < |more| ==> Added(more, k, answer)
  }

  ghost predicate Added(more: seq<User>, k: nat, answer: seq<User>)
    requires k < |more|
  {
    exists m: nat :: m < |answer| && AddedFrom(more, k, answer, m)
  }

  ghost predicate AddedFrom(more: seq<User>, k: nat, answer: seq<User>, m: nat)
    requires k < |more| && m < |answer|
  {
    more[k] == answer[m] && forall l :: 0 <= l < m ==> answer[l].id in IdsOf(more[..k])
  }

  lemma AddsOneMore(users: seq<User>, more: seq<User>, answer: seq<User>, u: User)
    requires AddsNew(users, more, answer)
    ensures u.id in IdsOf(more) ==> AddsNew(users, more, answer + [u])
    ensures AddsNew(users, more + [u], answer + [u])
  {
    IdsAppend(more, u);
    var all, longer := answer + [u], more + [u];
    forall k | |users| <= k < |more|
      ensures Added(more, k, all) && Added(longer, k, all)
    {
      assert Added(more, k, answer);
      var m: nat :| m < |answer| && AddedFrom(more, k, answer, m);
      assert longer[..k] == more[..k];
      assert AddedFrom(more, k, all, m) && AddedFrom(longer, k, all, m);
    }
    assert longer[..|more|] == more;
    assert AddedFrom(longer, |more|, all, |answer|);
  }

  /** Adds the records of one answer that are new. */
  method Collect(answer: seq<User>, allowed: seq<string>, users: seq<User>)
    returns (more: seq<User>, ok: bool)
    requires Distinct(users)
    ensures Distinct(more)
    ensures ok <==> forall i :: 0 <= i < |answer| ==> answer[i].id in allowed
    ensures ok ==> IdsOf(more) == IdsOf(users) + IdsOf(answer)
    ensures ok ==> AddsNew(users, more, answer)
    ensures forall p: map<string, string> :: From(users, p) && From(answer, p) ==> From(more, p)
  {
    more, ok := users, true;
    var seen := IdsOf(users);
    var i := 0;
    while i < |answer|
      invariant 0 <= i <= |answer|
      invariant Distinct(more) && seen == IdsOf(more)
      invariant forall k :: 0 <= k < i ==> answer[k].id in allowed
      invariant IdsOf(more) == IdsOf(users) + IdsOf(answer[..i])
      invariant AddsNew(users, more, answer[..i])
      invariant forall p: map<string, string> :: From(users, p) && From(answer, p) ==> From(more, p)
    {
      var user := answer[i];
      if user.id !in allowed { return more, false; }
      assert answer[..i + 1] == answer[..i] + [user];
      IdsAppend(answer[..i], user);
      AddsOneMore(users, more, answer[..i], user);
      if user.id !in seen {
        IdsAppend(more, user);
        seen := seen + {user.id};
        more := more + [user];
      }
      i := i + 1;
    }
    assert answer[..i] == answer;
  }

  /** What the answer to a page adds. */
  lemma AnswerFits(s: Server, profiles: map<string, string>, wanted: seq<string>, page: seq<string>, users: seq<User>)
    requires forall id :: id in wanted <==> id in page && id != "" && id !in IdsOf(users)
    requires Named(page) <= Named(s.members)
    ensures var answer := s.users(wanted);
            && ((forall i :: 0 <= i < |answer| ==> answer[i].id in wanted) ==> IdsOf(answer) <= Named(page))
            && (Honest(s, profiles) ==>
                  && (forall i :: 0 <= i < |answer| ==> answer[i].id in wanted)
                  && IdsOf(users) + IdsOf(answer) == IdsOf(users) + Named(page)
                  && From(answer, profiles))
  {
    var answer := s.users(wanted);
    if Honest(s, profiles) {
      forall i | 0 <= i < |wanted| ensures wanted[i] in Named(s.members) {
        assert wanted[i] in wanted && wanted[i] in Named(page);
      }
      assert AllNamed(wanted, s.members);
      assert IdsOf(answer) == set i | 0 <= i < |wanted| :: wanted[i];
      forall i | 0 <= i < |answer| ensures answer[i].id in wanted {
        assert answer[i].id in IdsOf(answer);
      }
    }
  }

  /** One page: its members that are new are asked for and added. */
  method AddPage(s: Server, ghost profiles: map<string, string>, page: seq<string>, users: seq<User>)
    returns (more: seq<User>, ok: bool)
    requires Distinct(users) && Named(page) <= Named(s.members)
    ensures Distinct(more)
    ensures ok ==> IdsOf(more) <= IdsOf(users) + Named(page)
    ensures Honest(s, profiles) ==> ok && IdsOf(more) == IdsOf(users) + Named(page)
    ensures Honest(s, profiles) && From(users, profiles) ==> From(more, profiles)
  {
    var wanted := Wanted(page, IdsOf(users));
    WantedAre(page, IdsOf(users));
    if wanted == [] {
      assert forall id :: id in page && id != "" ==> id in IdsOf(users);
      return users, true;
    }
    AnswerFits(s, profiles, wanted, page, users);
    more, ok := Collect(s.users(wanted), wanted, users);
  }

  /** The records listed after the first `done` members. */
  ghost predicate Listed(users: seq<User>, s: Server, done: nat, honest: bool, profiles: map<string, string>)
    requires done <= |s.members|
  {
    && Distinct(users) && IdsOf(users) <= Named(s.members[..done])
    && (honest ==> IdsOf(users) == Named(s.members[..done]) && From(users, profiles))
  }

  lemma ListedGrows(users: seq<User>, more: seq<User>, s: Server, page: nat, honest: bool,
                    profiles: map<string, string>)
    requires page * PAGE_SIZE <= |s.members| && Listed(users, s, page * PAGE_SIZE, honest, profiles) && Distinct(more)
    requires IdsOf(more) <= IdsOf(users) + Named(Page(s.members, page))
    requires honest ==> IdsOf(more) == IdsOf(users) + Named(Page(s.members, page)) && From(more, profiles)
    ensures Listed(more, s, Least((page + 1) * PAGE_SIZE, |s.members|), honest, profiles)
  {
  }

  /** The body of the loop over the pages. */
  method NextPage(s: Server, ghost honest: bool, ghost profiles: map<string, string>, page: nat, users: seq<User>)
    returns (more: seq<User>, ok: bool, last: bool)
    requires honest ==> Honest(s, profiles)
    requires page * PAGE_SIZE <= |s.members| && Listed(users, s, page * PAGE_SIZE, honest, profiles)
    ensures ok ==> Listed(more, s, Least((page + 1) * PAGE_SIZE, |s.members|), honest, profiles)
    ensures !ok ==> !honest
    ensures last <==> |s.members| < (page + 1) * PAGE_SIZE
  {
    var memberships := Page(s.members, page);
    more, ok := AddPage(s, profiles, memberships, users);
    if ok { ListedGrows(users, more, s, page, honest, profiles); }
    last := |memberships| < PAGE_SIZE;
  }

  /** The loop over the pages. */
  method ListPages(s: Server, ghost honest: bool, ghost profiles: map<string, string>)
    returns (r: Result<seq<User>, Error>)
    requires honest ==> Honest(s, profiles)
    ensures r.Ok? ==> Listed(r.value, s, |s.members|, honest, profiles) && |s.members| < PAGE_SIZE * MAX_PAGES
    ensures r.Err? ==> r.error.TooManyMembers? || (r.error.InconsistentUsers? && !honest)
    ensures r == Err(TooManyMembers) ==> |s.members| >= PAGE_SIZE * MAX_PAGES
  {
    var users: seq<User> := [];
    var page := 0;
    while page < MAX_PAGES
      invariant 0 <= page <= MAX_PAGES && page * PAGE_SIZE <= |s.members|
      invariant Listed(users, s, page * PAGE_SIZE, honest, profiles)
    {
      var more, ok, last := NextPage(s, honest, profiles, page, users);
      if !ok { return Err(InconsistentUsers); }
      users := more;
      if last { return Ok(users); }
      page := page + 1;
    }
    return Err(TooManyMembers);
  }

  /** With an honest server, a channel of fewer than 5000 members yields the record of every
      member exactly once, and a larger one is refused. Whatever the server answers, a
      directory that is returned names members only, none twice. */
  method ListChannelUsers(channel: string, s: Server, ghost profiles: map<string, string>)
    returns (r: Result<seq<User>, Error>)
    ensures r == Err(NoChannel) <==> channel == ""
    ensures r.Ok? ==> Distinct(r.value) && IdsOf(r.value) <= Named(s.members)
    ensures channel != "" && Honest(s, profiles) ==>
      (if |s.members| < 5000
       then r.Ok? && IdsOf(r.value) == Named(s.members) && From(r.value, profiles)
       else r == Err(TooManyMembers))
  {
    if channel == "" { return Err(NoChannel); }
    r := ListPages(s, Honest(s, profiles), profiles);
    assert s.members[..|s.members|] == s.members;
  }
}
