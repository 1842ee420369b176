/** The agent registry and the router (agent_system/core.py): hard constraints first, then the
    best score, compared part by part. */
module Routing {
  import opened Wrappers
  import opened Glob

  datatype Descriptor = Descriptor(
    name: string, intents: seq<string>, capabilities: seq<string>, permissions: seq<string>, scopes: seq<string>,
    maxCost: real, healthy: bool, isDefault: bool, priority: int, keywords: seq<string>, requiresUrl: bool)

  datatype Request = Request(
    intent: string, prompt: string, scope: string, permissions: set<string>, required: set<string>,
    budget: real, requestedAgent: string, preferred: seq<string>)

  /** Lower-casing, and whether a text holds a web address. */
  datatype Env = Env(lower: string -> string, hasUrl: string -> bool)

  datatype Error = DuplicateName | SecondDefault | Ambiguous | NoAgent | NoIntents

  // ---- texts ----

  predicate Contains(text: string, part: string)
    decreases |text|
  {
    part <= text || (text != "" && Contains(text[1..], part))
  }

  lemma {:induction false} ContainsIff(text: string, part: string)
    ensures Contains(text, part) <==> exists k: nat :: IsAt(text, part, k)
    decreases |text|
  {
    if part <= text {
      assert IsAt(text, part, 0);
    } else if text != "" {
      ContainsIff(text[1..], part);
      if k: nat :| IsAt(text[1..], part, k) { assert text[k + 1..k + 1 + |part|] == part && IsAt(text, part, k + 1); }
      if k: nat :| IsAt(text, part, k) {
        assert k > 0 && text[1..][k - 1..k - 1 + |part|] == part && IsAt(text[1..], part, k - 1);
      }
    }
  }

  ghost predicate IsAt(text: string, part: string, k: nat) { k + |part| <= |text| && text[k..k + |part|] == part }

  predicate AnyLower(env: Env, texts: seq<string>, text: string) {
    exists i :: 0 <= i < |texts| && env.lower(texts[i]) == text
  }

  function LowerSet(env: Env, texts: seq<string>): set<string> {
    set i | 0 <= i < |texts| :: env.lower(texts[i])
  }

  /** The order of Python's strings, by code points. */
  predicate Before(a: string, b: string) {
    b != "" && (a == "" || a[0] < b[0] || (a[0] == b[0] && Before(a[1..], b[1..])))
  }

  lemma {:induction false} BeforeIsTotal(a: string, b: string)
    ensures Before(a, b) || Before(b, a) || a == b
    ensures !(Before(a, b) && Before(b, a)) && !Before(a, a)
    decreases |a|
  {
    if a != "" && b != "" {
      BeforeIsTotal(a[1..], b[1..]);
      BeforeIsTotal(a[1..], a[1..]);
      assert a == [a[0]] + a[1..] && b == [b[0]] + b[1..];
    } else if a != "" {
      BeforeIsTotal(a[1..], a[1..]);
    }
  }

  /** The first place where two texts differ decides, or the end of the shorter. */
  ghost predicate DiffersAt(a: string, b: string, k: nat) {
    k <= |a| && k < |b| && a[..k] == b[..k] && (k == |a| || a[k] < b[k])
  }

  lemma {:induction false} BeforeIff(a: string, b: string)
    ensures Before(a, b) <==> exists k: nat :: DiffersAt(a, b, k)
    decreases |a|
  {
    if b != "" {
      if a == "" || a[0] < b[0] {
        assert DiffersAt(a, b, 0);
      } else {
        BeforeIff(a[1..], b[1..]);
        if a[0] == b[0] {
          if k: nat :| DiffersAt(a[1..], b[1..], k) {
            assert a[..k + 1] == [a[0]] + a[1..][..k] && b[..k + 1] == [b[0]] + b[1..][..k];
            assert DiffersAt(a, b, k + 1);
          }
          if k: nat :| DiffersAt(a, b, k) {
            assert a[1..][..k - 1] == a[..k][1..] && b[1..][..k - 1] == b[..k][1..];
            assert DiffersAt(a[1..], b[1..], k - 1);
          }
        } else {
          assert forall k: nat :: 0 < k <= |a| && k < |b| && a[..k] == b[..k] ==> a[..k][0] == b[..k][0];
        }
      }
    }
  }

  lemma {:induction false} BeforeTransitive(a: string, b: string, c: string)
    requires Before(a, b) && Before(b, c)
    ensures Before(a, c)
    decreases |a|
  {
    if a != "" && a[0] == b[0] == c[0] { BeforeTransitive(a[1..], b[1..], c[1..]); }
  }

  // ---- the registry ----

  datatype Signature = Signature(
    isDefault: bool, priority: int, intents: set<string>, keywords: set<string>, requiresUrl: bool, scopes: set<string>)

  function SignatureOf(env: Env, d: Descriptor): Signature {
    Signature(d.isDefault, d.priority, LowerSet(env, d.intents), LowerSet(env, d.keywords), d.requiresUrl,
              set i | 0 <= i < |d.scopes| :: d.scopes[i])
  }

  /** No two equal names, no two defaults, no two equal routing declarations. */
  ghost predicate Unambiguous(env: Env, agents: seq<Descriptor>) {
    forall i, j :: 0 <= i < j < |agents| ==>
      && agents[i].name != agents[j].name
      && !(agents[i].isDefault && agents[j].isDefault)
      && SignatureOf(env, agents[i]) != SignatureOf(env, agents[j])
  }

  ghost predicate SameLower(env: Env, a: seq<string>, b: seq<string>) {
    && (forall x <- a :: exists y <- b :: env.lower(x) == env.lower(y))
    && (forall y <- b :: exists x <- a :: env.lower(x) == env.lower(y))
  }

  /** Two agents with one routing declaration: all that routing looks at but the name, in any order and
      in either case. */
  ghost predicate SameRouting(env: Env, a: Descriptor, b: Descriptor) {
    && a.isDefault == b.isDefault && a.priority == b.priority && a.requiresUrl == b.requiresUrl
    && SameLower(env, a.intents, b.intents) && SameLower(env, a.keywords, b.keywords)
    && (forall x <- a.scopes :: x in b.scopes) && (forall x <- b.scopes :: x in a.scopes)
  }

  lemma LowerSetsEqual(env: Env, a: seq<string>, b: seq<string>)
    ensures LowerSet(env, a) == LowerSet(env, b) <==> SameLower(env, a, b)
  {
    if LowerSet(env, a) == LowerSet(env, b) {
      forall x | x in a ensures exists y <- b :: env.lower(x) == env.lower(y) { LowerInSet(env, a, b, x); }
      forall y | y in b ensures exists x <- a :: env.lower(x) == env.lower(y) { LowerInSet(env, b, a, y); }
    }
    if SameLower(env, a, b) {
      forall t ensures t in LowerSet(env, a) <==> t in LowerSet(env, b) {
        if t in LowerSet(env, a) { LowerStays(env, a, b, t); }
        if t in LowerSet(env, b) { LowerStays(env, b, a, t); }
      }
    }
  }

  lemma LowerInSet(env: Env, a: seq<string>, b: seq<string>, x: string)
    requires LowerSet(env, a) <= LowerSet(env, b) && x in a
    ensures exists y <- b :: env.lower(x) == env.lower(y)
  {
    var i :| 0 <= i < |a| && a[i] == x;
    assert env.lower(a[i]) in LowerSet(env, a);
    var j :| 0 <= j < |b| && env.lower(b[j]) == env.lower(x);
    assert b[j] in b;
  }

  lemma LowerStays(env: Env, a: seq<string>, b: seq<string>, t: string)
    requires (forall x <- a :: exists y <- b :: env.lower(x) == env.lower(y)) && t in LowerSet(env, a)
    ensures t in LowerSet(env, b)
  {
    var i :| 0 <= i < |a| && env.lower(a[i]) == t;
    assert a[i] in a;
    var y :| y in b && env.lower(a[i]) == env.lower(y);
    var j :| 0 <= j < |b| && b[j] == y;
  }

  lemma SignaturesEqual(env: Env, a: Descriptor, b: Descriptor)
    ensures SignatureOf(env, a) == SignatureOf(env, b) <==> SameRouting(env, a, b)
  {
    LowerSetsEqual(env, a.intents, b.intents);
    LowerSetsEqual(env, a.keywords, b.keywords);
    var x, y := SignatureOf(env, a).scopes, SignatureOf(env, b).scopes;
    assert forall t :: t in x <==> t in a.scopes;
    assert forall t :: t in y <==> t in b.scopes;
  }

  class AgentRegistry {
    const env: Env
    var agents: seq<Descriptor>

    constructor (env: Env)
      ensures this.env == env && agents == []
    {
      this.env, agents := env, [];
    }

    method Register(d: Descriptor) returns (r: Result<(), Error>)
      requires Unambiguous(env, agents)
      modifies this
      ensures Unambiguous(env, agents)
      ensures agents == if r.Ok? then old(agents) + [d] else old(agents)
      ensures r.Ok? <==> Unambiguous(env, old(agents) + [d])
      ensures r.Ok? <==> forall a <- old(agents) ::
        a.name != d.name && !(a.isDefault && d.isDefault) && !SameRouting(env, a, d)
      ensures r == Err(DuplicateName) <==> exists a <- old(agents) :: a.name == d.name
      ensures r == Err(SecondDefault) <==>
        (forall a <- old(agents) :: a.name != d.name) && exists a <- old(agents) :: a.isDefault && d.isDefault
      ensures r == Err(Ambiguous) <==>
        && (forall a <- old(agents) :: a.name != d.name && !(a.isDefault && d.isDefault))
        && exists a <- old(agents) :: SameRouting(env, a, d)
    {
      forall a | a in agents ensures SignatureOf(env, a) == SignatureOf(env, d) <==> SameRouting(env, a, d) {
        SignaturesEqual(env, a, d);
      }
      hide SameRouting;
      ghost var more := agents + [d];
      assert more[|agents|] == d && forall i :: 0 <= i < |agents| ==> more[i] == agents[i];
      if exists i :: 0 <= i < |agents| && agents[i].name == d.name { return Err(DuplicateName); }
      if d.isDefault && exists i :: 0 <= i < |agents| && agents[i].isDefault { return Err(SecondDefault); }
      if exists i :: 0 <= i < |agents| && SignatureOf(env, agents[i]) == SignatureOf(env, d) { return Err(Ambiguous); }
      agents := agents + [d];
      return Ok(());
    }
  }

  // ---- eligibility ----

  predicate HardConstraints(d: Descriptor, q: Request) {
    && d.healthy
    && (forall i :: 0 <= i < |d.permissions| ==> d.permissions[i] in q.permissions)
    && (forall c <- q.required :: c in d.capabilities)
    && d.maxCost <= q.budget
    && MatchesAny(q.scope, d.scopes)
  }

  predicate Exact(env: Env, d: Descriptor, q: Request) { AnyLower(env, d.intents, env.lower(q.intent)) }

  function KeywordCount(env: Env, keywords: seq<string>, prompt: string): nat {
    if keywords == [] then 0
    else (if Contains(prompt, env.lower(keywords[0])) then 1 else 0) + KeywordCount(env, keywords[1..], prompt)
  }

  predicate KeywordMatch(env: Env, keywords: seq<string>, prompt: string) {
    exists i :: 0 <= i < |keywords| && Contains(prompt, env.lower(keywords[i]))
  }

  lemma {:induction false} CountIsMatch(env: Env, keywords: seq<string>, prompt: string)
    ensures KeywordCount(env, keywords, prompt) > 0 <==> KeywordMatch(env, keywords, prompt)
    decreases |keywords|
  {
    if keywords != [] {
      CountIsMatch(env, keywords[1..], prompt);
      if i :| 0 <= i < |keywords| && Contains(prompt, env.lower(keywords[i])) {
        if i > 0 { assert keywords[i] == keywords[1..][i - 1]; }
      }
      if j :| 0 <= j < |keywords[1..]| && Contains(prompt, env.lower(keywords[1..][j])) {
        assert keywords[j + 1] == keywords[1..][j];
      }
    }
  }

  predicate MatchesRoute(env: Env, d: Descriptor, q: Request) {
    if q.requestedAgent != "" then d.name == q.requestedAgent
    else
      && (d.requiresUrl ==> env.hasUrl(q.prompt))
      && (d.isDefault || Exact(env, d, q) || KeywordMatch(env, d.keywords, env.lower(q.prompt)))
  }

  predicate Eligible(env: Env, d: Descriptor, q: Request) { HardConstraints(d, q) && MatchesRoute(env, d, q) }

  // ---- the score ----

  datatype Score = Score(specialized: int, preferred: int, priority: int, exact: int, keywords: int, name: string)

  function Bit(b: bool): int { if b then 1 else 0 }

  function ScoreOf(env: Env, d: Descriptor, q: Request): Score {
    var exact := Exact(env, d, q);
    var keywords := KeywordCount(env, d.keywords, env.lower(q.prompt));
    Score(Bit(!d.isDefault && (exact || keywords > 0)),
          Bit(env.lower(d.name) in q.preferred || d.name == q.requestedAgent),
          d.priority, Bit(exact), keywords, d.name)
  }

  /** The order of tuples. */
  predicate Lower(a: Score, b: Score) {
    if a.specialized != b.specialized then a.specialized < b.specialized
    else if a.preferred != b.preferred then a.preferred < b.preferred
    else if a.priority != b.priority then a.priority < b.priority
    else if a.exact != b.exact then a.exact < b.exact
    else if a.keywords != b.keywords then a.keywords < b.keywords
    else Before(a.name, b.name)
  }

  lemma LowerIsStrict(a: Score, b: Score)
    ensures Lower(a, b) || Lower(b, a) || a == b
    ensures !(Lower(a, b) && Lower(b, a))
  {
    BeforeIsTotal(a.name, b.name);
  }

  lemma LowerTransitive(a: Score, b: Score, c: Score)
    requires Lower(a, b) && Lower(b, c)
    ensures Lower(a, c)
  {
    if Before(a.name, b.name) && Before(b.name, c.name) { BeforeTransitive(a.name, b.name, c.name); }
  }

  // ---- who may serve, and who is preferred ----

  /** The keywords from place k on that stand in the prompt, by their places. */
  ghost function HitsFrom(env: Env, keywords: seq<string>, prompt: string, k: nat): set<nat> {
    set i: nat | k <= i < |keywords| && Contains(prompt, env.lower(keywords[i]))
  }

  ghost function Hits(env: Env, keywords: seq<string>, prompt: string): nat {
    |HitsFrom(env, keywords, prompt, 0)|
  }

  lemma {:induction false} CountIsHits(env: Env, keywords: seq<string>, prompt: string, k: nat)
    requires k <= |keywords|
    ensures KeywordCount(env, keywords[k..], prompt) == |HitsFrom(env, keywords, prompt, k)|
    decreases |keywords| - k
  {
    if k < |keywords| {
      CountIsHits(env, keywords, prompt, k + 1);
      var later := HitsFrom(env, keywords, prompt, k + 1);
      assert keywords[k..][1..] == keywords[k + 1..] && keywords[k..][0] == keywords[k];
      assert HitsFrom(env, keywords, prompt, k)
          == if Contains(prompt, env.lower(keywords[k])) then later + {k} else later;
    }
  }

  /** The request meets a declared intent, whatever its case. */
  ghost predicate Meets(env: Env, d: Descriptor, q: Request) {
    exists intent <- d.intents :: env.lower(intent) == env.lower(q.intent)
  }

  ghost predicate HasHit(env: Env, d: Descriptor, q: Request) {
    exists keyword <- d.keywords :: Contains(env.lower(q.prompt), env.lower(keyword))
  }

  /** A healthy agent may serve if the request grants what it needs, asks for no capability it lacks, pays
      for it, and is in one of its scopes; and if it is the agent requested, or, with none requested, the
      default or one that intent or keywords lead to, with the address it may require. */
  ghost predicate MayServe(env: Env, d: Descriptor, q: Request) {
    && d.healthy && d.maxCost <= q.budget
    && (forall p <- d.permissions :: p in q.permissions) && (forall c <- q.required :: c in d.capabilities)
    && (exists scope <- d.scopes :: FnMatch(q.scope, scope))
    && (if q.requestedAgent != "" then d.name == q.requestedAgent
        else (d.isDefault || Meets(env, d, q) || HasHit(env, d, q)) && (d.requiresUrl ==> env.hasUrl(q.prompt)))
  }

  /** What decides between two agents, one after the other: not being the default and meeting intent or
      keywords; being preferred or requested; the priority; meeting the intent; the number of keywords
      found; the later name. */
  ghost predicate Outranks(env: Env, a: Descriptor, b: Descriptor, q: Request) {
    var specialA := !a.isDefault && (Meets(env, a, q) || HasHit(env, a, q));
    var specialB := !b.isDefault && (Meets(env, b, q) || HasHit(env, b, q));
    var preferredA := env.lower(a.name) in q.preferred || a.name == q.requestedAgent;
    var preferredB := env.lower(b.name) in q.preferred || b.name == q.requestedAgent;
    var hitsA, hitsB := Hits(env, a.keywords, env.lower(q.prompt)), Hits(env, b.keywords, env.lower(q.prompt));
    if specialA != specialB then specialA
    else if preferredA != preferredB then preferredA
    else if a.priority != b.priority then a.priority > b.priority
    else if Meets(env, a, q) != Meets(env, b, q) then Meets(env, a, q)
    else if hitsA != hitsB then hitsA > hitsB
    else exists k: nat :: DiffersAt(b.name, a.name, k)
  }

  lemma ExactIffMeets(env: Env, d: Descriptor, q: Request)
    ensures Exact(env, d, q) <==> Meets(env, d, q)
    ensures KeywordMatch(env, d.keywords, env.lower(q.prompt)) <==> HasHit(env, d, q)
  {
    if Exact(env, d, q) {
      var i :| 0 <= i < |d.intents| && env.lower(d.intents[i]) == env.lower(q.intent);
      assert d.intents[i] in d.intents;
    }
    if KeywordMatch(env, d.keywords, env.lower(q.prompt)) {
      var i :| 0 <= i < |d.keywords| && Contains(env.lower(q.prompt), env.lower(d.keywords[i]));
      assert d.keywords[i] in d.keywords;
    }
  }

  lemma EligibleIffMayServe(env: Env, d: Descriptor, q: Request)
    ensures Eligible(env, d, q) <==> MayServe(env, d, q)
  {
    ExactIffMeets(env, d, q);
    if MatchesAny(q.scope, d.scopes) {
      var i :| 0 <= i < |d.scopes| && FnMatch(q.scope, d.scopes[i]);
      assert d.scopes[i] in d.scopes;
    }
    if forall p <- d.permissions :: p in q.permissions {
      assert forall i :: 0 <= i < |d.permissions| ==> d.permissions[i] in d.permissions;
    }
  }

  lemma LowerIffOutranks(env: Env, a: Descriptor, b: Descriptor, q: Request)
    ensures Lower(ScoreOf(env, b, q), ScoreOf(env, a, q)) <==> Outranks(env, a, b, q)
  {
    ExactIffMeets(env, a, q);
    ExactIffMeets(env, b, q);
    var prompt := env.lower(q.prompt);
    CountIsMatch(env, a.keywords, prompt);
    CountIsMatch(env, b.keywords, prompt);
    CountIsHits(env, a.keywords, prompt, 0);
    assert a.keywords[0..] == a.keywords;
    CountIsHits(env, b.keywords, prompt, 0);
    assert b.keywords[0..] == b.keywords;
    BeforeIff(b.name, a.name);
    hide Hits, Meets, HasHit, Exact, KeywordMatch, Before, KeywordCount, DiffersAt;
  }

  // ---- routing ----

  /** Eligible, and strictly better than every other eligible agent. */
  ghost predicate Best(env: Env, agents: seq<Descriptor>, q: Request, d: Descriptor) {
    && d in agents && Eligible(env, d, q)
    && forall e :: e in agents && Eligible(env, e, q) && e != d ==> Lower(ScoreOf(env, e, q), ScoreOf(env, d, q))
  }

  function Candidates(env: Env, agents: seq<Descriptor>, q: Request): seq<Descriptor> {
    if agents == [] then []
    else (if Eligible(env, agents[0], q) then [agents[0]] else []) + Candidates(env, agents[1..], q)
  }

  lemma {:induction false} CandidatesAre(env: Env, agents: seq<Descriptor>, q: Request)
    ensures forall d :: d in Candidates(env, agents, q) <==> d in agents && Eligible(env, d, q)
    decreases |agents|
  {
    if agents != [] {
      CandidatesAre(env, agents[1..], q);
      assert agents == [agents[0]] + agents[1..];
    }
  }

  /** The places of the agents, from k on, that may serve. */
  ghost function ServingFrom(env: Env, agents: seq<Descriptor>, q: Request, k: nat): set<nat> {
    set i: nat | k <= i < |agents| && MayServe(env, agents[i], q)
  }

  lemma {:induction false} CandidatesCount(env: Env, agents: seq<Descriptor>, q: Request, k: nat)
    requires k <= |agents|
    ensures |Candidates(env, agents[k..], q)| == |ServingFrom(env, agents, q, k)|
    decreases |agents| - k
  {
    if k < |agents| {
      CandidatesCount(env, agents, q, k + 1);
      EligibleIffMayServe(env, agents[k], q);
      hide MayServe, Eligible;
      var later := ServingFrom(env, agents, q, k + 1);
      assert agents[k..][1..] == agents[k + 1..] && agents[k..][0] == agents[k];
      assert ServingFrom(env, agents, q, k) == if MayServe(env, agents[k], q) then later + {k} else later;
    }
  }

  datatype Selection = Selection(agent: Descriptor, intent: string, candidates: nat)

  ghost predicate NamesDistinct(agents: seq<Descriptor>) {
    forall i, j :: 0 <= i < j < |agents| ==> agents[i].name != agents[j].name
  }

  /** `max(candidates, key=...)`, which keeps the first of equals. */
  method Max(env: Env, candidates: seq<Descriptor>, q: Request) returns (best: Descriptor)
    requires candidates != []
    requires forall d, e :: d in candidates && e in candidates && d.name == e.name ==> d == e
    ensures best in candidates
    ensures forall e :: e in candidates && e != best ==> Lower(ScoreOf(env, e, q), ScoreOf(env, best, q))
  {
    best := candidates[0];
    var i := 1;
    while i < |candidates|
      invariant 1 <= i <= |candidates| && best in candidates[..i]
      invariant forall k :: 0 <= k < i && candidates[k] != best ==>
                  Lower(ScoreOf(env, candidates[k], q), ScoreOf(env, best, q))
    {
      var next := candidates[i];
      var a, b := ScoreOf(env, best, q), ScoreOf(env, next, q);
      LowerIsStrict(a, b);
      if Lower(a, b) {
        forall k | 0 <= k < i ensures Lower(ScoreOf(env, candidates[k], q), b) {
          if candidates[k] != best { LowerTransitive(ScoreOf(env, candidates[k], q), a, b); }
        }
        best := next;
      }
      i := i + 1;
    }
  }

  lemma BestTells(env: Env, agents: seq<Descriptor>, q: Request, d: Descriptor)
    requires Best(env, agents, q, d)
    ensures MayServe(env, d, q)
    ensures forall e <- agents :: MayServe(env, e, q) && e != d ==> Outranks(env, d, e, q)
  {
    EligibleIffMayServe(env, d, q);
    forall e | e in agents && MayServe(env, e, q) && e != d ensures Outranks(env, d, e, q) {
      EligibleIffMayServe(env, e, q);
      LowerIffOutranks(env, d, e, q);
    }
  }

  method Route(env: Env, agents: seq<Descriptor>, q: Request) returns (r: Result<Selection, Error>)
    requires NamesDistinct(agents)
    ensures r == Err(NoAgent) <==> forall d :: d in agents ==> !Eligible(env, d, q)
    ensures r.Ok? ==> Best(env, agents, q, r.value.agent) && r.value.intent == IntentOf(env, r.value.agent, q)
    ensures r == Err(NoIntents) <==> exists d :: Best(env, agents, q, d) && !Exact(env, d, q) && d.intents == []
    ensures r == Err(NoAgent) <==> forall d <- agents :: !MayServe(env, d, q)
    ensures r.Ok? ==>
      var d := r.value.agent;
      && d in agents && MayServe(env, d, q)
      && (forall e <- agents :: MayServe(env, e, q) && e != d ==> Outranks(env, d, e, q))
      && (if Meets(env, d, q) then r.value.intent == q.intent else d.intents != [] && r.value.intent == d.intents[0])
    ensures r.Ok? ==> r.value.candidates == |ServingFrom(env, agents, q, 0)|
    ensures r.Err? ==> r.error in [NoAgent, NoIntents]
  {
    forall d ensures Eligible(env, d, q) <==> MayServe(env, d, q) { EligibleIffMayServe(env, d, q); }
    forall d ensures Exact(env, d, q) <==> Meets(env, d, q) { ExactIffMeets(env, d, q); }
    hide MayServe, Outranks, Meets, Eligible, Lower, Exact, ScoreOf, ServingFrom;
    CandidatesAre(env, agents, q);
    CandidatesCount(env, agents, q, 0);
    assert agents[0..] == agents;
    var candidates := Candidates(env, agents, q);
    if candidates == [] {
      forall d | d in agents ensures !Eligible(env, d, q) { assert d !in candidates; }
      return Err(NoAgent);
    }
    assert candidates[0] in candidates;
    var best := Max(env, candidates, q);
    assert Best(env, agents, q, best);
    BestTells(env, agents, q, best);
    forall d | Best(env, agents, q, d) ensures d == best { BestIsUnique(env, agents, agents, q, d, best); }
    if !Exact(env, best, q) && best.intents == [] { return Err(NoIntents); }
    return Ok(Selection(best, IntentOf(env, best, q), |candidates|));
  }

  function IntentOf(env: Env, d: Descriptor, q: Request): string
  {
    if Exact(env, d, q) then q.intent else if d.intents == [] then "" else d.intents[0]
  }

  /** The winner does not depend on the order of registration. */
  lemma BestIsUnique(env: Env, agents: seq<Descriptor>, reordered: seq<Descriptor>, q: Request,
                     d: Descriptor, e: Descriptor)
    requires forall a :: a in agents <==> a in reordered
    requires Best(env, agents, q, d) && Best(env, reordered, q, e)
    ensures d == e
  {
    if d != e { LowerIsStrict(ScoreOf(env, d, q), ScoreOf(env, e, q)); }
  }

  /** Without a requested agent the default wins only if nobody else is eligible. */
  lemma DefaultIsLastResort(env: Env, agents: seq<Descriptor>, q: Request, d: Descriptor, other: Descriptor)
    requires Unambiguous(env, agents) && q.requestedAgent == ""
    requires Best(env, agents, q, d) && d.isDefault && other in agents && other != d
    ensures !Eligible(env, other, q)
  {
    CountIsMatch(env, other.keywords, env.lower(q.prompt));
    var i :| 0 <= i < |agents| && agents[i] == d;
    var j :| 0 <= j < |agents| && agents[j] == other;
    assert !other.isDefault;
  }

  /** The selected intent is declared by the agent letter for letter, unless the request meets a
      declared intent in another case only. */
  lemma IntentIsDeclaredIff(env: Env, d: Descriptor, q: Request)
    requires Exact(env, d, q) || d.intents != []
    ensures IntentOf(env, d, q) in d.intents <==> (Exact(env, d, q) ==> q.intent in d.intents)
    ensures AnyLower(env, d.intents, env.lower(IntentOf(env, d, q)))
  {
    if !Exact(env, d, q) { assert d.intents[0] in d.intents; }
  }

  function LowerChar(c: char): char { if 'A' <= c <= 'Z' then (c as int + 32) as char else c }

  function LowerAscii(s: string): string {
    if s == "" then "" else [LowerChar(s[0])] + LowerAscii(s[1..])
  }

  /** Asking for `A` where the agent declares `a` selects the undeclared intent `A`. */
  lemma IntentKeepsRequestCase(d: Descriptor, q: Request, hasUrl: string -> bool)
    requires d.intents == ["a"] && q.intent == "A"
    ensures var env := Env(s => LowerAscii(s), hasUrl);
            Exact(env, d, q) && IntentOf(env, d, q) == "A" && "A" !in d.intents
  {
    var env := Env(s => LowerAscii(s), hasUrl);
    assert LowerAscii("A") == ['a'] + LowerAscii("") && LowerAscii("a") == ['a'] + LowerAscii("");
    assert env.lower(d.intents[0]) == env.lower("A");
    assert "A"[0] != "a"[0];
  }
}
