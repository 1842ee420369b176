/** What one delegation reports to its caller, and what a later replay reads back
    from the stored run (dispatcher.py: the end of `dispatch`, `_replay`, and the
    static helpers). Payloads are JSON values. */
module DispatchResult {
  import opened Wrappers

  datatype Value =
    | Null
    | Text(text: string)
    | Number(number: int)
    | List(items: seq<Value>)
    | Dict(entries: Object)

  type Object = map<string, Value>

  /** The fields of `runtime_result` the coordinator looks at; the status is the
      string value of whatever enum the runtime used, if any. */
  datatype RuntimeResult = RuntimeResult(status: Option<string>, interruptions: seq<Value>)

  datatype AgentOutput = AgentOutput(
    result: Option<Object>,
    artifacts: seq<Object>,
    envelope: Option<Object>,
    runtime: Option<RuntimeResult>)

  /** The caller-visible result without the run identity, which the protocol adds. */
  datatype Report = Report(
    status: string,
    result: Object,
    artifactRefs: seq<string>,
    provenance: Object,
    interruptions: seq<Object>)

  function RuntimeStatus(output: AgentOutput): string {
    var value :=
      if output.runtime.Some? && output.runtime.value.status.Some? && output.runtime.value.status.value != ""
      then output.runtime.value.status.value
      else "succeeded";
    if value == "completed" then "succeeded" else value
  }

  predicate IsHexDigit(c: char) { 'a' <= c <= 'f' || '0' <= c <= '9' }

  /** Full match of `artifact://` followed by 32 lower-case hexadecimal digits. */
  predicate IsArtifactRef(s: string) {
    && |s| == 43
    && s[..11] == "artifact://"
    && forall i :: 11 <= i < 43 ==> IsHexDigit(s[i])
  }

  predicate HasRef(a: Object) { "ref" in a && a["ref"].Text? && IsArtifactRef(a["ref"].text) }

  function ArtifactRefs(artifacts: seq<Object>): (refs: seq<string>)
    ensures forall i :: 0 <= i < |refs| ==> IsArtifactRef(refs[i])
  {
    if artifacts == [] then []
    else
      var init, last := artifacts[..|artifacts| - 1], artifacts[|artifacts| - 1];
      ArtifactRefs(init) + if HasRef(last) then [last["ref"].text] else []
  }

  /** `_artifact_refs`. */
  method CollectRefs(artifacts: seq<Object>) returns (refs: seq<string>)
    ensures refs == ArtifactRefs(artifacts)
  {
    refs := [];
    var i := 0;
    while i < |artifacts|
      invariant 0 <= i <= |artifacts|
      invariant refs == ArtifactRefs(artifacts[..i])
    {
      assert artifacts[..i + 1][..i] == artifacts[..i];
      if HasRef(artifacts[i]) { refs := refs + [artifacts[i]["ref"].text]; }
      i := i + 1;
    }
    assert artifacts[..i] == artifacts;
  }

  /** The refs are those at the places `at`, in order, and no well-formed ref is elsewhere. */
  ghost predicate Picks(artifacts: seq<Object>, refs: seq<string>, at: seq<nat>) {
    && |at| == |refs|
    && (forall k :: 0 <= k < |at| ==>
          at[k] < |artifacts| && HasRef(artifacts[at[k]]) && artifacts[at[k]]["ref"].text == refs[k])
    && (forall j, k :: 0 <= j < k < |at| ==> at[j] < at[k])
    && (forall i: nat :: i < |artifacts| && HasRef(artifacts[i]) ==> i in at)
  }

  /** Every well-formed ref is reported, once for each artifact that has it, in order, and
      nothing else. */
  lemma {:induction false} RefsArePicked(artifacts: seq<Object>) returns (at: seq<nat>)
    ensures Picks(artifacts, ArtifactRefs(artifacts), at)
    decreases |artifacts|
  {
    if artifacts == [] { return []; }
    var n := |artifacts| - 1;
    at := RefsArePicked(artifacts[..n]);
    PicksOneMore(artifacts, ArtifactRefs(artifacts[..n]), at);
    if HasRef(artifacts[n]) { at := at + [n]; }
  }

  lemma PicksOneMore(artifacts: seq<Object>, refs: seq<string>, at: seq<nat>)
    requires artifacts != [] && Picks(artifacts[..|artifacts| - 1], refs, at)
    ensures var last := artifacts[|artifacts| - 1];
            if HasRef(last) then Picks(artifacts, refs + [last["ref"].text], at + [|artifacts| - 1])
            else Picks(artifacts, refs, at)
  {
    var n := |artifacts| - 1;
    var init := artifacts[..n];
    forall i: nat | i < |artifacts| && HasRef(artifacts[i]) && i < n ensures i in at { assert init[i] == artifacts[i]; }
    if HasRef(artifacts[n]) {
      var more := at + [n];
      assert more[|at|] == n;
      assert forall i :: i in at ==> i in more;
    }
  }

  function OnlyDicts(items: seq<Value>): seq<Object> {
    if items == [] then []
    else (if items[0].Dict? then [items[0].entries] else []) + OnlyDicts(items[1..])
  }

  function Interruptions(output: AgentOutput): seq<Object> {
    if output.runtime.Some? then OnlyDicts(output.runtime.value.interruptions) else []
  }

  function Provenance(output: AgentOutput): Object {
    if output.envelope.Some? && "provenance" in output.envelope.value
       && output.envelope.value["provenance"].Dict?
    then output.envelope.value["provenance"].entries
    else map[]
  }

  function ResultOf(output: AgentOutput): Object {
    if output.result.Some? then output.result.value else map[]
  }

  /** What the first caller, the one whose `agent.run` produced the output, is told. */
  function FirstReport(output: AgentOutput): Report {
    Report(RuntimeStatus(output), ResultOf(output), ArtifactRefs(output.artifacts),
           Provenance(output), Interruptions(output))
  }

  function Texts(strings: seq<string>): seq<Value> {
    seq(|strings|, i requires 0 <= i < |strings| => Text(strings[i]))
  }

  function Dicts(objects: seq<Object>): seq<Value> {
    seq(|objects|, i requires 0 <= i < |objects| => Dict(objects[i]))
  }

  /** The JSON object stored with the run record. */
  function Envelope(output: AgentOutput): Object {
    map["schema_version" := Text("1.0"),
        "status" := Text(RuntimeStatus(output)),
        "result" := Dict(ResultOf(output)),
        "artifact_refs" := List(Texts(ArtifactRefs(output.artifacts))),
        "provenance" := Dict(Provenance(output)),
        "interruptions" := List(Dicts(Interruptions(output)))]
  }

  // `envelope.get(key) or default`, for the two shapes `_replay` reads

  function DictAt(envelope: Object, key: string): Object {
    if key in envelope && envelope[key].Dict? then envelope[key].entries else map[]
  }

  function ListAt(envelope: Object, key: string): seq<Value> {
    if key in envelope && envelope[key].List? then envelope[key].items else []
  }

  /** `str(ref)` for the values the coordinator itself stored. */
  function Strings(items: seq<Value>): seq<string> {
    seq(|items|, i requires 0 <= i < |items| => if items[i].Text? then items[i].text else "")
  }

  /** What `_replay` rebuilds from a stored envelope and the name of the stored state. */
  function ReplayReport(envelope: Object, stateName: string): Report {
    Report(stateName, DictAt(envelope, "result"), Strings(ListAt(envelope, "artifact_refs")),
           DictAt(envelope, "provenance"), OnlyDicts(ListAt(envelope, "interruptions")))
  }

  lemma {:induction false} OnlyDictsOfDicts(objects: seq<Object>)
    ensures OnlyDicts(Dicts(objects)) == objects
    decreases |objects|
  {
    if objects != [] {
      OnlyDictsOfDicts(objects[1..]);
      assert Dicts(objects)[1..] == Dicts(objects[1..]);
      assert objects == [objects[0]] + objects[1..];
    }
  }

  /** The stored envelope loses nothing: a replay differs from the first report
      in at most the status, which it takes from the state instead. */
  lemma ReplayReadsBackFirstReport(output: AgentOutput, stateName: string)
    ensures ReplayReport(Envelope(output), stateName) == FirstReport(output).(status := stateName)
  {
    var refs := ArtifactRefs(output.artifacts);
    assert Strings(Texts(refs)) == refs;
    OnlyDictsOfDicts(Interruptions(output));
  }

  // ---- what a report says of the output ----

  /** The whole string is `artifact://` with 32 of the sixteen digits behind it. */
  lemma RefForm(s: string)
    ensures IsArtifactRef(s) <==>
      |s| == 43 && "artifact://" <= s && forall c :: c in s[11..] ==> '0' <= c <= '9' || 'a' <= c <= 'f'
  {
    if |s| == 43 && "artifact://" <= s && (forall c :: c in s[11..] ==> '0' <= c <= '9' || 'a' <= c <= 'f') {
      forall i | 11 <= i < 43 ensures IsHexDigit(s[i]) { assert s[11..][i - 11] == s[i] && s[i] in s[11..]; }
    }
  }

  /** The objects are those at the places `at`, in order, and there is none elsewhere. */
  ghost predicate PicksDicts(items: seq<Value>, objects: seq<Object>, at: seq<nat>) {
    && |at| == |objects|
    && (forall k :: 0 <= k < |at| ==> at[k] < |items| && items[at[k]] == Dict(objects[k]))
    && (forall j, k :: 0 <= j < k < |at| ==> at[j] < at[k])
    && (forall i: nat :: i < |items| && items[i].Dict? ==> i in at)
  }

  function Shifted(at: seq<nat>): (later: seq<nat>)
    ensures |later| == |at| && forall k :: 0 <= k < |at| ==> later[k] == at[k] + 1
  {
    seq(|at|, k requires 0 <= k < |at| => at[k] + 1)
  }

  lemma PicksShifted(items: seq<Value>, objects: seq<Object>, at: seq<nat>)
    requires items != [] && !items[0].Dict? && PicksDicts(items[1..], objects, at)
    ensures PicksDicts(items, objects, Shifted(at))
  {
    forall i: nat | i < |items| && items[i].Dict? ensures i in Shifted(at) { LaterIsPicked(items, objects, at, i); }
  }

  lemma PicksFirst(items: seq<Value>, objects: seq<Object>, at: seq<nat>)
    requires items != [] && items[0].Dict? && PicksDicts(items[1..], objects, at)
    ensures PicksDicts(items, [items[0].entries] + objects, [0] + Shifted(at))
  {
    forall i: nat | i < |items| && items[i].Dict? ensures i in [0] + Shifted(at) {
      if i > 0 { LaterIsPicked(items, objects, at, i); }
    }
  }

  lemma LaterIsPicked(items: seq<Value>, objects: seq<Object>, at: seq<nat>, i: nat)
    requires 0 < i < |items| && items[i].Dict? && PicksDicts(items[1..], objects, at)
    ensures i in Shifted(at)
  {
    assert items[1..][i - 1] == items[i];
    var k :| 0 <= k < |at| && at[k] == i - 1;
    assert Shifted(at)[k] == i;
  }

  lemma {:induction false} DictsArePicked(items: seq<Value>) returns (at: seq<nat>)
    ensures PicksDicts(items, OnlyDicts(items), at)
    decreases |items|
  {
    if items == [] { return []; }
    var rest := DictsArePicked(items[1..]);
    if items[0].Dict? {
      PicksFirst(items, OnlyDicts(items[1..]), rest);
      at := [0] + Shifted(rest);
    } else {
      PicksShifted(items, OnlyDicts(items[1..]), rest);
      at := Shifted(rest);
      assert OnlyDicts(items) == OnlyDicts(items[1..]);
    }
  }

  /** `report` says of the output what the caller of an agent is promised: the status it stated, one
      that is missing, empty or "completed" meaning success; its result and provenance, if any; its
      artifact refs and its interruptions, each in order. */
  ghost predicate Tells(output: AgentOutput, report: Report) {
    && (output.runtime.None? || output.runtime.value.status.None? ==> report.status == "succeeded")
    && (output.runtime.Some? && output.runtime.value.status.Some? ==>
          var stated := output.runtime.value.status.value;
          if stated in ["", "completed"] then report.status == "succeeded" else report.status == stated)
    && (if output.result.Some? then report.result == output.result.value else report.result == map[])
    && (forall entries :: (output.envelope.Some? && "provenance" in output.envelope.value
                           && output.envelope.value["provenance"] == Dict(entries)) ==> report.provenance == entries)
    && (report.provenance == map[]
        || (output.envelope.Some? && "provenance" in output.envelope.value
            && output.envelope.value["provenance"].Dict?))
    && (exists at :: Picks(output.artifacts, report.artifactRefs, at))
    && (if output.runtime.Some?
        then exists at :: PicksDicts(output.runtime.value.interruptions, report.interruptions, at)
        else report.interruptions == [])
  }

  /** The JSON object says what the report says, under six names. */
  ghost predicate Stores(envelope: Object, report: Report) {
    && envelope.Keys == {"schema_version", "status", "result", "artifact_refs", "provenance", "interruptions"}
    && envelope["schema_version"] == Text("1.0") && envelope["status"] == Text(report.status)
    && envelope["result"] == Dict(report.result) && envelope["provenance"] == Dict(report.provenance)
    && envelope["artifact_refs"].List? && envelope["interruptions"].List?
    && var refs, dicts := envelope["artifact_refs"].items, envelope["interruptions"].items;
       && |refs| == |report.artifactRefs| && |dicts| == |report.interruptions|
       && (forall i :: 0 <= i < |refs| ==> refs[i] == Text(report.artifactRefs[i]))
       && (forall i :: 0 <= i < |dicts| ==> dicts[i] == Dict(report.interruptions[i]))
  }

  lemma EnvelopeHolds(output: AgentOutput)
    ensures Stores(Envelope(output), FirstReport(output))
  {
  }

  lemma FirstReportTells(output: AgentOutput)
    ensures Tells(output, FirstReport(output))
  {
    var at := RefsArePicked(output.artifacts);
    if output.runtime.Some? {
      var places := DictsArePicked(output.runtime.value.interruptions);
    }
  }
}
