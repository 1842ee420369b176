/** From an agent's manifest to the tools of one run: the registry (capabilities/registry.py),
    the package contract (agent_packages/runtime.py), the selected skill
    (skill_packages/resolver.py) and the runtime request (agent_packages/factory.py). */
module CapabilityPolicy {
  import opened Wrappers
  import opened Glob

  datatype Binding = Binding(name: string, description: string, schema: string)

  datatype Error =
    | AlreadyRegistered | UnknownCapabilities | OutsideManifest | LacksRequired
    | InvalidProjection | ExpandsAgent

  function Names(bindings: seq<Binding>): seq<string> {
    seq(|bindings|, i requires 0 <= i < |bindings| => bindings[i].name)
  }

  ghost predicate Distinct(names: seq<string>) {
    forall i, j :: 0 <= i < j < |names| ==> names[i] != names[j]
  }

  // ---- filtering, in order ----

  function Keep(names: seq<string>, wanted: string -> bool): seq<string> {
    if names == [] then []
    else
      var init, last := names[..|names| - 1], names[|names| - 1];
      Keep(init, wanted) + if wanted(last) then [last] else []
  }

  function KeepBindings(bindings: seq<Binding>, wanted: string -> bool): seq<Binding> {
    if bindings == [] then []
    else
      var init, last := bindings[..|bindings| - 1], bindings[|bindings| - 1];
      KeepBindings(init, wanted) + if wanted(last.name) then [last] else []
  }

  lemma KeepMore(bindings: seq<Binding>, i: nat, wanted: string -> bool)
    requires i < |bindings|
    ensures KeepBindings(bindings[..i + 1], wanted)
         == KeepBindings(bindings[..i], wanted) + if wanted(bindings[i].name) then [bindings[i]] else []
  {
    assert bindings[..i + 1][..i] == bindings[..i];
  }

  lemma {:induction false} KeepIsFilter(names: seq<string>, wanted: string -> bool)
    ensures forall n :: n in Keep(names, wanted) <==> n in names && wanted(n)
    ensures Distinct(names) ==> Distinct(Keep(names, wanted))
    decreases |names|
  {
    if names != [] {
      var init, last := names[..|names| - 1], names[|names| - 1];
      KeepIsFilter(init, wanted);
      assert names == init + [last];
      if Distinct(names) { assert Distinct(init) && last !in init; }
    }
  }

  lemma {:induction false} KeepBindingsIsFilter(bindings: seq<Binding>, wanted: string -> bool)
    ensures forall b :: b in KeepBindings(bindings, wanted) <==> b in bindings && wanted(b.name)
    decreases |bindings|
  {
    if bindings != [] {
      var init, last := bindings[..|bindings| - 1], bindings[|bindings| - 1];
      KeepBindingsIsFilter(init, wanted);
      assert bindings == init + [last];
    }
  }

  lemma {:induction false} SameFilter(bindings: seq<Binding>, f: string -> bool, g: string -> bool)
    requires forall b <- bindings :: f(b.name) == g(b.name)
    ensures KeepBindings(bindings, f) == KeepBindings(bindings, g)
    decreases |bindings|
  {
    if bindings != [] {
      var init, last := bindings[..|bindings| - 1], bindings[|bindings| - 1];
      assert last in bindings;
      SameFilter(init, f, g);
    }
  }

  /** `kept` holds the elements at the chosen places of `all`, in their order. */
  ghost predicate Selection<T(!new)>(kept: seq<T>, all: seq<T>, chosen: set<int>) {
    exists picks: seq<nat> :: IsSelection(kept, all, chosen, picks)
  }

  ghost predicate IsSelection<T(!new)>(kept: seq<T>, all: seq<T>, chosen: set<int>, picks: seq<nat>) {
    && |picks| == |kept|
    && (forall i, j :: 0 <= i < j < |picks| ==> picks[i] < picks[j])
    && (forall i :: 0 <= i < |picks| ==> picks[i] < |all| && kept[i] == all[picks[i]])
    && (forall j :: j in chosen <==> j in picks)
  }

  lemma SelectMore<T(!new)>(kept: seq<T>, more: seq<T>, all: seq<T>, chosen: set<int>, others: set<int>, take: bool)
    requires all != [] && Selection(kept, all[..|all| - 1], others)
    requires more == if take then kept + [all[|all| - 1]] else kept
    requires chosen == if take then others + {|all| - 1} else others
    ensures Selection(more, all, chosen)
  {
    var picks: seq<nat> :| IsSelection(kept, all[..|all| - 1], others, picks);
    assert IsSelection(more, all, chosen, if take then picks + [|all| - 1] else picks);
  }

  ghost function Places(names: seq<string>, wanted: string -> bool): set<int> {
    set j | 0 <= j < |names| && wanted(names[j])
  }

  ghost function FirstPlaces(names: seq<string>, wanted: string -> bool): set<int> {
    set j | 0 <= j < |names| && wanted(names[j]) && names[j] !in names[..j]
  }

  lemma {:induction false} KeepSelects(names: seq<string>, wanted: string -> bool)
    ensures Selection(Keep(names, wanted), names, Places(names, wanted))
    decreases |names|
  {
    if names == [] {
      assert IsSelection(Keep(names, wanted), names, Places(names, wanted), []);
    } else {
      var init, last := names[..|names| - 1], names[|names| - 1];
      KeepSelects(init, wanted);
      hide Selection;
      SelectMore(Keep(init, wanted), Keep(names, wanted), names, Places(names, wanted), Places(init, wanted),
                 wanted(last));
    }
  }

  lemma {:induction false} KeepBindingsSelects(bindings: seq<Binding>, wanted: string -> bool)
    ensures Selection(KeepBindings(bindings, wanted), bindings, Places(Names(bindings), wanted))
    decreases |bindings|
  {
    if bindings == [] {
      assert IsSelection(KeepBindings(bindings, wanted), bindings, Places(Names(bindings), wanted), []);
    } else {
      var init, last := bindings[..|bindings| - 1], bindings[|bindings| - 1];
      KeepBindingsSelects(init, wanted);
      hide Selection;
      SelectMore(KeepBindings(init, wanted), KeepBindings(bindings, wanted), bindings,
                 Places(Names(bindings), wanted), Places(Names(init), wanted), wanted(last.name));
    }
  }

  lemma SamePlaces(names: seq<string>, f: string -> bool, g: string -> bool)
    requires forall n <- names :: f(n) == g(n)
    ensures Places(names, f) == Places(names, g) && FirstPlaces(names, f) == FirstPlaces(names, g)
  {
    assert forall j :: 0 <= j < |names| ==> names[j] in names;
  }

  // ---- the registry ----

  predicate HasWildcard(pattern: string) { '*' in pattern || '?' in pattern || '[' in pattern }

  predicate Permitted(name: string, allow: seq<string>, deny: seq<string>) {
    MatchesAny(name, allow) && !MatchesAny(name, deny)
  }

  /** Some pattern allows the name, and none denies it. */
  ghost predicate Granted(name: string, allow: seq<string>, deny: seq<string>) {
    (exists p <- allow :: FnMatch(name, p)) && forall p <- deny :: !FnMatch(name, p)
  }

  /** Some pattern matches it. */
  ghost predicate Met(name: string, patterns: seq<string>) { exists p <- patterns :: FnMatch(name, p) }

  lemma GrantedIff(name: string, allow: seq<string>, deny: seq<string>)
    ensures MatchesAny(name, allow) <==> Met(name, allow)
    ensures Permitted(name, allow, deny) <==> Granted(name, allow, deny)
  {
    hide FnMatch;
    assert MatchesAny(name, allow) ==> exists i :: 0 <= i < |allow| && FnMatch(name, allow[i]) && allow[i] in allow;
    assert MatchesAny(name, deny) ==> exists i :: 0 <= i < |deny| && FnMatch(name, deny[i]) && deny[i] in deny;
  }

  /** A name the manifest spells out but nobody provides. */
  predicate Missing(candidates: seq<string>, allow: seq<string>) {
    exists i :: 0 <= i < |allow| && !HasWildcard(allow[i]) && allow[i] !in candidates
  }

  /** The first occurrence of each name, in order. */
  function Unique(names: seq<string>): seq<string> {
    if names == [] then []
    else
      var init, last := Unique(names[..|names| - 1]), names[|names| - 1];
      if last in init then init else init + [last]
  }

  lemma {:induction false} UniqueIsSet(names: seq<string>)
    ensures Distinct(Unique(names))
    ensures forall n :: n in Unique(names) <==> n in names
    decreases |names|
  {
    if names != [] {
      var init := names[..|names| - 1];
      UniqueIsSet(init);
      assert names == init + [names[|names| - 1]];
    }
  }

  lemma {:induction false} UniqueSelects(names: seq<string>, wanted: string -> bool)
    ensures Selection(Keep(Unique(names), wanted), names, FirstPlaces(names, wanted))
    decreases |names|
  {
    if names == [] {
      assert IsSelection(Keep(Unique(names), wanted), names, FirstPlaces(names, wanted), []);
    } else {
      var init, last := names[..|names| - 1], names[|names| - 1];
      UniqueSelects(init, wanted);
      UniqueIsSet(init);
      FirstPlacesMore(names, init, last, wanted);
      hide FirstPlaces, Selection;
      assert (Unique(init) + [last])[..|Unique(init)|] == Unique(init);
      SelectMore(Keep(Unique(init), wanted), Keep(Unique(names), wanted), names,
                 FirstPlaces(names, wanted), FirstPlaces(init, wanted), wanted(last) && last !in init);
    }
  }

  lemma FirstPlacesMore(names: seq<string>, init: seq<string>, last: string, wanted: string -> bool)
    requires names == init + [last]
    ensures FirstPlaces(names, wanted) == if wanted(last) && last !in init
                                          then FirstPlaces(init, wanted) + {|init|} else FirstPlaces(init, wanted)
  {
    assert forall j :: 0 <= j < |init| ==> names[..j] == init[..j];
    assert names[..|init|] == init;
  }

  function Resolved(registered: seq<string>, allow: seq<string>, deny: seq<string>, additional: seq<string>)
    : Result<seq<string>, Error>
  {
    var candidates := Unique(registered + additional);
    if Missing(candidates, allow) then Err(UnknownCapabilities)
    else Ok(Keep(candidates, n => Permitted(n, allow, deny)))
  }

  predicate Selects(names: Option<seq<string>>, name: string) {
    names.None? || MatchesAny(name, names.value)
  }

  function Projected(bindings: seq<Binding>, names: Option<seq<string>>): seq<Binding> {
    if names.None? then bindings else KeepBindings(bindings, n => MatchesAny(n, names.value))
  }

  lemma ProjectedMore(bindings: seq<Binding>, i: nat, names: Option<seq<string>>)
    requires i < |bindings|
    ensures Projected(bindings[..i + 1], names)
         == Projected(bindings[..i], names) + if Selects(names, bindings[i].name) then [bindings[i]] else []
  {
    if names.Some? { KeepMore(bindings, i, n => MatchesAny(n, names.value)); }
  }

  /** Names that do not start with the prefix. */
  function Outside(prefix: string): string -> bool { n => !(prefix <= n) }

  /** Leaves out the names with the prefix and counts them. */
  method WithoutPrefix(bindings: seq<Binding>, prefix: string) returns (left: seq<Binding>, count: nat)
    ensures left == KeepBindings(bindings, Outside(prefix)) && count == |bindings| - |left|
  {
    left, count := [], 0;
    var i := 0;
    while i < |bindings|
      invariant 0 <= i <= |bindings|
      invariant left == KeepBindings(bindings[..i], Outside(prefix))
      invariant count == i - |left|
    {
      KeepMore(bindings, i, Outside(prefix));
      if prefix <= bindings[i].name {
        count := count + 1;
      } else {
        left := left + [bindings[i]];
      }
      i := i + 1;
    }
    assert bindings[..i] == bindings;
  }

  class CapabilityRegistry {
    var bindings: seq<Binding>

    constructor ()
      ensures Valid() && bindings == []
    {
      bindings := [];
    }

    /** The bindings form a dictionary in the order of registration. */
    ghost predicate Valid()
      reads this
    {
      Distinct(Names(bindings))
    }

    method Register(b: Binding) returns (r: Result<(), Error>)
      requires Valid()
      modifies this
      ensures Valid()
      ensures r.Err? <==> exists other <- old(bindings) :: other.name == b.name
      ensures r.Err? ==> r.error == AlreadyRegistered
      ensures bindings == if r.Ok? then old(bindings) + [b] else old(bindings)
    {
      NamesAre(bindings, b.name);
      if b.name in Names(bindings) { return Err(AlreadyRegistered); }
      assert Names(bindings + [b]) == Names(bindings) + [b.name];
      bindings := bindings + [b];
      return Ok(());
    }

    method Unregister(name: string) returns (found: bool)
      requires Valid()
      modifies this
      ensures Valid()
      ensures found <==> exists b <- old(bindings) :: b.name == name
      ensures bindings == KeepBindings(old(bindings), n => n != name)
      ensures Selection(bindings, old(bindings), Places(Names(old(bindings)), n => n != name))
    {
      found := name in Names(bindings);
      NamesAre(bindings, name);
      KeepBindingsSelects(bindings, n => n != name);
      KeepsDistinct(bindings, n => n != name);
      KeepSize(bindings, name);
      if found { bindings := KeepBindings(bindings, n => n != name); }
    }

    method UnregisterPrefix(prefix: string) returns (count: nat)
      requires Valid()
      modifies this
      ensures Valid()
      ensures bindings == KeepBindings(old(bindings), Outside(prefix))
      ensures Selection(bindings, old(bindings), Places(Names(old(bindings)), n => !(prefix <= n)))
      ensures count == |old(bindings)| - |bindings|
    {
      var left: seq<Binding>;
      left, count := WithoutPrefix(bindings, prefix);
      KeepsDistinct(bindings, Outside(prefix));
      KeepBindingsSelects(bindings, Outside(prefix));
      SamePlaces(Names(bindings), Outside(prefix), n => !(prefix <= n));
      bindings := left;
    }

    method ResolveNames(allow: seq<string>, deny: seq<string>, additional: seq<string>)
      returns (r: Result<seq<string>, Error>)
      ensures r == Resolved(Names(bindings), allow, deny, additional)
      ensures r.Err? <==> exists p <- allow ::
        '*' !in p && '?' !in p && '[' !in p && p !in Names(bindings) && p !in additional
      ensures r.Err? ==> r.error == UnknownCapabilities
      ensures r.Ok? ==> Distinct(r.value)
      ensures r.Ok? ==> forall n :: n in r.value <==>
                          (n in Names(bindings) || n in additional) && Granted(n, allow, deny)
      ensures r.Ok? ==> Selection(r.value, Names(bindings) + additional,
                                  FirstPlaces(Names(bindings) + additional, n => Granted(n, allow, deny)))
    {
      forall n ensures Permitted(n, allow, deny) <==> Granted(n, allow, deny) { GrantedIff(n, allow, deny); }
      UniqueSelects(Names(bindings) + additional, n => Permitted(n, allow, deny));
      SamePlaces(Names(bindings) + additional, n => Permitted(n, allow, deny), n => Granted(n, allow, deny));
      hide Permitted, Granted, Selection, FirstPlaces;
      ResolvedNames(Names(bindings), allow, deny, additional);
      var candidates := Unique(Names(bindings) + additional);
      if Missing(candidates, allow) { return Err(UnknownCapabilities); }
      return Ok(Keep(candidates, n => Permitted(n, allow, deny)));
    }

    method GetSchemaList(names: Option<seq<string>>) returns (result: seq<Binding>)
      ensures result == Projected(bindings, names)
      ensures names == None ==> result == bindings
      ensures names.Some? ==> Selection(result, bindings, Places(Names(bindings), n => Met(n, names.value)))
    {
      if names.Some? {
        forall n ensures MatchesAny(n, names.value) <==> Met(n, names.value) { GrantedIff(n, names.value, []); }
        KeepBindingsSelects(bindings, n => MatchesAny(n, names.value));
        SamePlaces(Names(bindings), n => MatchesAny(n, names.value), n => Met(n, names.value));
      }
      hide Selection, Places, Met, MatchesAny;
      result := [];
      var i := 0;
      while i < |bindings|
        invariant 0 <= i <= |bindings|
        invariant result == Projected(bindings[..i], names)
      {
        ProjectedMore(bindings, i, names);
        if Selects(names, bindings[i].name) { result := result + [bindings[i]]; }
        i := i + 1;
      }
      assert bindings[..i] == bindings;
    }
  }

  lemma NamesAre(bindings: seq<Binding>, name: string)
    ensures name in Names(bindings) <==> exists b <- bindings :: b.name == name
  {
    if name in Names(bindings) {
      var i :| 0 <= i < |bindings| && Names(bindings)[i] == name;
      assert bindings[i] in bindings;
    }
    if b: Binding :| b in bindings && b.name == name {
      var i :| 0 <= i < |bindings| && bindings[i] == b;
      assert Names(bindings)[i] == name;
    }
  }

  lemma KeepsDistinct(bindings: seq<Binding>, wanted: string -> bool)
    requires Distinct(Names(bindings))
    ensures Distinct(Names(KeepBindings(bindings, wanted)))
  {
    NamesOfKept(bindings, wanted);
    KeepIsFilter(Names(bindings), wanted);
  }

  lemma {:induction false} NamesOfKept(bindings: seq<Binding>, wanted: string -> bool)
    ensures Names(KeepBindings(bindings, wanted)) == Keep(Names(bindings), wanted)
    decreases |bindings|
  {
    if bindings != [] {
      var init, last := bindings[..|bindings| - 1], bindings[|bindings| - 1];
      NamesOfKept(init, wanted);
      assert Names(bindings)[..|bindings| - 1] == Names(init);
      assert Names(KeepBindings(init, wanted) + [last]) == Names(KeepBindings(init, wanted)) + [last.name];
    }
  }

  /** Removing a name that is not there removes nothing. */
  lemma {:induction false} KeepSize(bindings: seq<Binding>, name: string)
    ensures name !in Names(bindings) ==> KeepBindings(bindings, n => n != name) == bindings
    decreases |bindings|
  {
    if bindings != [] && name !in Names(bindings) {
      var init, last := bindings[..|bindings| - 1], bindings[|bindings| - 1];
      assert Names(bindings)[|init|] == last.name && Names(bindings)[..|init|] == Names(init);
      KeepSize(init, name);
      assert bindings == init + [last];
    }
  }

  /** What resolving means: the candidates the manifest permits, each once. */
  lemma ResolvedNames(registered: seq<string>, allow: seq<string>, deny: seq<string>, additional: seq<string>)
    ensures var r := Resolved(registered, allow, deny, additional);
            && (r.Err? <==> Missing(registered + additional, allow))
            && (r.Ok? ==> Distinct(r.value))
            && (r.Ok? ==> forall n ::
                  n in r.value <==> (n in registered || n in additional) && Permitted(n, allow, deny))
  {
    var candidates := Unique(registered + additional);
    UniqueIsSet(registered + additional);
    KeepIsFilter(candidates, n => Permitted(n, allow, deny));
  }

  // ---- the agent package ----

  datatype Manifest = Manifest(allow: seq<string>, deny: seq<string>)

  /** `ContractAgentDecorator.__init__`: what a delegate exposes must be in its manifest. */
  predicate InsideManifest(m: Manifest, exposed: seq<string>) {
    forall i :: 0 <= i < |exposed| ==> Permitted(exposed[i], m.allow, m.deny)
  }

  /** `DeepAgentProvider.create`: the capabilities of the agent. */
  function AgentNames(m: Manifest, registered: seq<string>, additional: seq<string>): Result<seq<string>, Error> {
    match Resolved(registered, m.allow, m.deny, additional)
    case Err(e) => Err(e)
    case Ok(names) => if InsideManifest(m, names) then Ok(names) else Err(OutsideManifest)
  }

  lemma InsideManifestTells(m: Manifest, exposed: seq<string>)
    ensures InsideManifest(m, exposed) <==> forall n <- exposed :: Granted(n, m.allow, m.deny)
  {
    forall n ensures Permitted(n, m.allow, m.deny) <==> Granted(n, m.allow, m.deny) { GrantedIff(n, m.allow, m.deny); }
    hide Permitted, Granted;
    assert forall i :: 0 <= i < |exposed| ==> exposed[i] in exposed;
  }

  /** The decorator never rejects what the provider has resolved. */
  lemma ResolvedNamesAreInside(m: Manifest, registered: seq<string>, additional: seq<string>)
    ensures AgentNames(m, registered, additional) == Resolved(registered, m.allow, m.deny, additional)
  {
    ResolvedNames(registered, m.allow, m.deny, additional);
  }

  // ---- the skill ----

  datatype Skill = Skill(required: seq<string>, optional: seq<string>)

  predicate Subset(a: seq<string>, b: seq<string>) {
    forall i :: 0 <= i < |a| ==> a[i] in b
  }

  /** `SkillResolver._invocation`. */
  function Invocation(s: Skill, agentNames: seq<string>, deployed: seq<string>): Result<seq<string>, Error> {
    if !Subset(s.required, agentNames) || !Subset(s.required, deployed) then Err(LacksRequired)
    else Ok(Keep(s.required + s.optional, n => n in agentNames && n in deployed))
  }

  /** `_validate_skill_invocation`, as far as capabilities are concerned. */
  function Validated(s: Skill, selected: seq<string>, agentNames: seq<string>): Result<(), Error> {
    if !Subset(s.required, selected) || !Subset(selected, s.required + s.optional) then Err(InvalidProjection)
    else if !Subset(selected, agentNames) then Err(ExpandsAgent)
    else Ok(())
  }

  /** The resolver selects the declared names that agent and deployment offer, the required ones first, if
      these are all among them. */
  lemma InvocationTells(s: Skill, agentNames: seq<string>, deployed: seq<string>)
    ensures var r := Invocation(s, agentNames, deployed);
            && (r.Ok? <==> forall n <- s.required :: n in agentNames && n in deployed)
            && (r.Err? ==> r.error == LacksRequired)
            && (r.Ok? ==> Selection(r.value, s.required + s.optional,
                                    Places(s.required + s.optional, n => n in agentNames && n in deployed)))
  {
    KeepSelects(s.required + s.optional, n => n in agentNames && n in deployed);
    assert forall i :: 0 <= i < |s.required| ==> s.required[i] in s.required;
  }

  /** A selection is valid if it has what the skill requires and nothing that skill and agent do not have. */
  lemma ValidatedTells(s: Skill, selected: seq<string>, agentNames: seq<string>)
    ensures var r := Validated(s, selected, agentNames);
            var declared := (forall n <- s.required :: n in selected)
                            && forall n <- selected :: n in s.required || n in s.optional;
            && (r == Err(InvalidProjection) <==> !declared)
            && (r == Err(ExpandsAgent) <==> declared && exists n <- selected :: n !in agentNames)
            && (r == Ok(()) <==> declared && forall n <- selected :: n in agentNames)
  {
    SubsetIff(s.required, selected);
    SubsetIff(selected, s.required + s.optional);
    SubsetIff(selected, agentNames);
  }

  lemma SubsetIff(a: seq<string>, b: seq<string>)
    ensures Subset(a, b) <==> forall n <- a :: n in b
  {
    assert forall i :: 0 <= i < |a| ==> a[i] in a;
  }

  /** What the resolver selects always passes the validation of the package. */
  lemma InvocationIsValid(s: Skill, agentNames: seq<string>, deployed: seq<string>)
    requires Invocation(s, agentNames, deployed).Ok?
    ensures Validated(s, Invocation(s, agentNames, deployed).value, agentNames) == Ok(())
    ensures Subset(Invocation(s, agentNames, deployed).value, deployed)
  {
    var wanted := (n: string) => n in agentNames && n in deployed;
    KeepIsFilter(s.required + s.optional, wanted);
    var selected := Keep(s.required + s.optional, wanted);
    forall i | 0 <= i < |s.required| ensures s.required[i] in selected {
      assert (s.required + s.optional)[i] == s.required[i];
    }
    forall i | 0 <= i < |selected|
      ensures selected[i] in agentNames && selected[i] in deployed && selected[i] in s.required + s.optional
    {
      assert selected[i] in selected;
    }
  }

  // ---- one run ----

  /** The tools of a run: with a skill, the ones it has selected and the package has validated,
      otherwise the agent's; looked up in the registry as it is now. */
  function RunTools(bindings: seq<Binding>, agentNames: seq<string>, skill: Option<(Skill, seq<string>)>)
    : Result<seq<Binding>, Error>
  {
    match skill
    case None => Ok(Projected(bindings, Some(agentNames)))
    case Some((s, selected)) =>
      match Validated(s, selected, agentNames)
      case Err(e) => Err(e)
      case Ok(_) => Ok(Projected(bindings, Some(selected)))
  }

  /** A run has tools unless its skill's selection is refused: the registered ones that its names match. */
  lemma RunHasToolsIff(bindings: seq<Binding>, agentNames: seq<string>, skill: Option<(Skill, seq<string>)>)
    ensures var r := RunTools(bindings, agentNames, skill);
            && (skill == None ==> r.Ok?)
            && (skill.Some? ==>
                  var refused := Validated(skill.value.0, skill.value.1, agentNames);
                  r.Ok? == refused.Ok? && (r.Err? ==> r.error == refused.error))
            && (r.Ok? ==>
                  var names := if skill == None then agentNames else skill.value.1;
                  Selection(r.value, bindings, Places(Names(bindings), n => Met(n, names))))
  {
    var names := if skill == None then agentNames else skill.value.1;
    forall n ensures MatchesAny(n, names) <==> Met(n, names) { GrantedIff(n, names, []); }
    KeepBindingsSelects(bindings, n => MatchesAny(n, names));
    SamePlaces(Names(bindings), n => MatchesAny(n, names), n => Met(n, names));
    hide Selection, Places, Met, MatchesAny;
  }

  function Effective(agentNames: seq<string>, skill: Option<(Skill, seq<string>)>): seq<string> {
    if skill.None? then agentNames else skill.value.1
  }

  /** No wildcard of a listed name matches a registered name that is not listed, and every listed
      name that is registered has no wildcard, or is matched by one of a listed name. */
  ghost predicate ReadExactly(bindings: seq<Binding>, names: seq<string>) {
    forall b <- bindings ::
      if b.name in names then Literal(b.name) || MatchedByWildcard(b.name, names) else !MatchedByWildcard(b.name, names)
  }

  /** Re-reading resolved names as patterns selects exactly the bindings of those names if and
      only if their wildcards match no other registered name and lose none of their own. */
  lemma ProjectionIsExactIff(bindings: seq<Binding>, names: seq<string>)
    ensures Projected(bindings, Some(names)) == KeepBindings(bindings, n => n in names) <==>
            ReadExactly(bindings, names)
  {
    var matched, named := (n: string) => MatchesAny(n, names), (n: string) => n in names;
    KeepBindingsIsFilter(bindings, matched);
    KeepBindingsIsFilter(bindings, named);
    assert Projected(bindings, Some(names)) == KeepBindings(bindings, matched);
    forall b <- bindings
      ensures MatchesAny(b.name, names) <==> (b.name in names && Literal(b.name)) || MatchedByWildcard(b.name, names)
    {
      MatchesAnyIff(b.name, names);
    }
    if ReadExactly(bindings, names) { SameFilter(bindings, matched, named); }
  }

  /** Whatever is registered, names are read exactly if and only if none of them has a wildcard. */
  lemma AlwaysReadExactlyIff(names: seq<string>)
    ensures (forall bindings: seq<Binding> :: ReadExactly(bindings, names)) <==> AllLiteral(names)
  {
    if AllLiteral(names) {
      assert forall name :: !MatchedByWildcard(name, names);
    } else {
      ListIsExactIff(names);
      var name :| MatchesAny(name, names) != (name in names);
      MatchesAnyIff(name, names);
      var b := Binding(name, "", "");
      assert b in [b];
      assert !ReadExactly([b], names);
    }
  }

  /** The tools of a run are the registered ones of its names if and only if the names are read
      exactly. Then every tool is permitted by the manifest and, with a skill, declared by it,
      and the required ones that are registered are there. The registry may have changed since
      the names were resolved. */
  lemma RunToolsAreNarrow(m: Manifest, registered: seq<string>, additional: seq<string>,
                          bindings: seq<Binding>, agentNames: seq<string>, skill: Option<(Skill, seq<string>)>)
    requires AgentNames(m, registered, additional) == Ok(agentNames)
    requires RunTools(bindings, agentNames, skill).Ok?
    ensures var tools, names := RunTools(bindings, agentNames, skill).value, Effective(agentNames, skill);
            && ((forall b :: b in tools <==> b in bindings && b.name in names) <==> ReadExactly(bindings, names))
            && (ReadExactly(bindings, names) ==>
                  && (forall b <- tools :: Permitted(b.name, m.allow, m.deny) && b.name in agentNames)
                  && (skill.Some? ==>
                        && (forall b <- tools :: b.name in skill.value.0.required || b.name in skill.value.0.optional)
                        && (forall b <- bindings :: b.name in skill.value.0.required ==> b in tools)))
  {
    var names := Effective(agentNames, skill);
    ResolvedNames(registered, m.allow, m.deny, additional);
    KeepBindingsIsFilter(bindings, n => MatchesAny(n, names));
    forall b <- bindings
      ensures MatchesAny(b.name, names) <==> (b.name in names && Literal(b.name)) || MatchedByWildcard(b.name, names)
    {
      MatchesAnyIff(b.name, names);
    }
  }

  /** A registered name with a wildcard breaks this: allowing only `t[?]`, the tool `t?`, also
      projects `tx`. */
  lemma WildcardNameWidensProjection()
    ensures var m := Manifest(["t[?]"], []);
            var bindings := [Binding("t?", "", ""), Binding("tx", "", "")];
            && AgentNames(m, Names(bindings), []) == Ok(["t?"])
            && Binding("tx", "", "") in Projected(bindings, Some(["t?"]))
            && !Permitted("tx", m.allow, m.deny) && !ReadExactly(bindings, ["t?"])
  {
    var m := Manifest(["t[?]"], []);
    var bindings := [Binding("t?", "", ""), Binding("tx", "", "")];
    assert Names(bindings) == ["t?", "tx"];
    PatternOfOneClass();
    assert Permitted("t?", m.allow, m.deny) by { assert FnMatch("t?", m.allow[0]); }
    assert !Permitted("tx", m.allow, m.deny);
    OnlyFirstResolved(m);
    assert bindings[1] in bindings && MatchesAny("tx", ["t?"]) by { assert FnMatch("tx", ["t?"][0]); }
    MatchesAnyIff("tx", ["t?"]);
  }

  lemma OnlyFirstResolved(m: Manifest)
    requires m.allow == ["t[?]"] && Permitted("t?", m.allow, m.deny) && !Permitted("tx", m.allow, m.deny)
    ensures AgentNames(m, ["t?", "tx"], []) == Ok(["t?"])
  {
    ResolvedNamesAreInside(m, ["t?", "tx"], []);
    assert ["t?", "tx"] + [] == ["t?", "tx"];
    TwoNames(n => Permitted(n, m.allow, m.deny));
    assert !Missing(["t?", "tx"], m.allow) by { assert '[' in m.allow[0]; }
  }

  lemma TwoNames(wanted: string -> bool)
    requires wanted("t?") && !wanted("tx")
    ensures Unique(["t?", "tx"]) == ["t?", "tx"] && Keep(["t?", "tx"], wanted) == ["t?"]
  {
    assert ["t?", "tx"][..1] == ["t?"] && ["t?"][..0] == [];
    assert Unique(["t?"]) == ["t?"];
    assert Keep(["t?"], wanted) == Keep([], wanted) + ["t?"];
  }

  lemma PatternOfOneClass()
    ensures FnMatch("t?", "t[?]")
    ensures !FnMatch("tx", "t[?]")
    ensures FnMatch("tx", "t?")
  {
    assert "t[?]"[1..] == "[?]";
    assert Find("[?]", ']', 1) == 2;
    assert ClassEnd("[?]") == Some(2);
    assert "[?]"[1..2] == "?" && "[?]"[3..] == "";
    assert "?"[1..] == "" && "[?]"[1] != '!';
    assert Ranges("?") == [Range('?', '?')] + Ranges("");
    assert Tokens("[?]") == [Class(false, Ranges("?"))] + Tokens("");
    assert Tokens("t[?]") == [One('t')] + Tokens("[?]");
    assert Tokens("t[?]")[1..] == Tokens("[?]") && Tokens("[?]")[1..] == [];
    assert "t?"[1..] == "?" && "tx"[1..] == "x" && "x"[1..] == "";
    var ranges := [Range('?', '?')];
    assert Ranges("?") == ranges && Tokens("[?]")[0] == Class(false, ranges);
    assert "?"[0] == '?' && "x"[0] == 'x';
    assert InRanges('?', ranges) by { assert ranges[0].lo <= '?' <= ranges[0].hi; }
    assert !InRanges('x', ranges);
    assert Tokens("?") == [Any] + Tokens("");
    assert Tokens("t?") == [One('t')] + Tokens("?");
    assert Tokens("t?")[1..] == Tokens("?") && Tokens("?")[1..] == [];
    assert Match([], "") && Match(Tokens("[?]"), "?") && !Match(Tokens("[?]"), "x") && Match(Tokens("?"), "x");
  }
}
