/** Mattermost scope ids: printing, parsing, and what a resolved post's scope admits
    (control_plane/context.py). */
module ScopeId {
  import opened Wrappers
  import opened Tenancy
  import opened Percent

  datatype ScopeKind = Personal | Channel | Project | Task

  datatype Parsed = Parsed(ns: Namespace, kind: ScopeKind, resource: string)

  datatype Error = InvalidScope | IncompletePost | ChannelUnavailable | Denied

  // ---- joining and splitting on colons ----

  function JoinColon(parts: seq<string>): string {
    if parts == [] then ""
    else if |parts| == 1 then parts[0]
    else parts[0] + ":" + JoinColon(parts[1..])
  }

  function SplitColon(s: string): (parts: seq<string>)
    ensures parts != []
  {
    if s == "" then [""]
    else
      var rest := SplitColon(s[1..]);
      if s[0] == ':' then [""] + rest else [[s[0]] + rest[0]] + rest[1..]
  }

  lemma {:induction false} SplitPart(part: string, text: string)
    requires ':' !in part
    ensures SplitColon(part + ":" + text) == [part] + SplitColon(text)
    ensures SplitColon(part) == [part]
    decreases |part|
  {
    if part == "" {
      assert part + ":" + text == ":" + text;
      assert (":" + text)[1..] == text;
    } else {
      SplitPart(part[1..], text);
      assert (part + ":" + text)[1..] == part[1..] + ":" + text;
      assert [part[0]] + part[1..] == part;
    }
  }

  lemma {:induction false} SplitJoin(parts: seq<string>)
    requires parts != [] && forall i :: 0 <= i < |parts| ==> ':' !in parts[i]
    ensures SplitColon(JoinColon(parts)) == parts
    decreases |parts|
  {
    if |parts| == 1 {
      SplitPart(parts[0], "");
    } else {
      SplitJoin(parts[1..]);
      SplitPart(parts[0], JoinColon(parts[1..]));
      assert [parts[0]] + parts[1..] == parts;
    }
  }

  lemma {:induction false} JoinSplit(s: string)
    ensures JoinColon(SplitColon(s)) == s
    ensures forall i :: 0 <= i < |SplitColon(s)| ==> ':' !in SplitColon(s)[i]
    decreases |s|
  {
    if s != "" {
      JoinSplit(s[1..]);
      var parts, rest := SplitColon(s), SplitColon(s[1..]);
      if s[0] == ':' {
        assert parts[1..] == rest;
      } else {
        assert parts[1..] == rest[1..];
      }
      assert [s[0]] + s[1..] == s;
    }
  }

  // ---- the scope id ----

  function ScopeIdOf(ns: Namespace, kind: ScopeKind, resource: string): string {
    JoinColon(["mattermost", Quote(ns.installation), Quote(ns.tenant),
               if kind.Personal? then "usr" else "chn", Quote(resource)])
  }

  function Parse(scopeId: string): Result<Parsed, Error> {
    var parts := SplitColon(scopeId);
    if |parts| != 5 || parts[0] != "mattermost" || (parts[3] != "usr" && parts[3] != "chn") then Err(InvalidScope)
    else Ok(Parsed(Namespace(Unquote(parts[1]), Unquote(parts[2])),
                   if parts[3] == "usr" then Personal else Channel, Unquote(parts[4])))
  }

  ghost predicate FormOf(scopeId: string, installation: string, tenant: string, sort: string, resource: string) {
    && scopeId == "mattermost:" + installation + ":" + tenant + ":" + sort + ":" + resource
    && ':' !in installation && ':' !in tenant && ':' !in resource && sort in ["usr", "chn"]
  }

  /** A scope id is read exactly if it has five parts, which are decoded each. */
  lemma ParseTells(s: string, a: string, b: string, sort: string, c: string)
    ensures Parse(s).Ok? <==> exists w, x, y, z :: FormOf(s, w, x, y, z)
    ensures FormOf(s, a, b, sort, c) ==>
              Parse(s) == Ok(Parsed(Namespace(Unquote(a), Unquote(b)), if sort == "usr" then Personal else Channel,
                                    Unquote(c)))
    ensures Parse(s).Err? ==> Parse(s).error == InvalidScope
  {
    JoinSplit(s);
    hide SplitColon, JoinColon, Unquote;
    forall w, x, y, z | FormOf(s, w, x, y, z) ensures SplitColon(s) == ["mattermost", w, x, y, z] {
      FormSplits(s, w, x, y, z);
    }
    if Parse(s).Ok? {
      var parts := SplitColon(s);
      assert FormOf(s, parts[1], parts[2], parts[3], parts[4]) by { JoinFive(parts); }
    }
  }

  lemma JoinFive(parts: seq<string>)
    requires |parts| == 5
    ensures JoinColon(parts) == parts[0] + ":" + parts[1] + ":" + parts[2] + ":" + parts[3] + ":" + parts[4]
  {
    JoinOne(parts[2..]);
    JoinOne(parts[3..]);
    assert JoinColon(parts[4..]) == parts[4];
    hide JoinColon;
    JoinOne(parts);
    JoinOne(parts[1..]);
    var last := JoinColon(parts[3..]);
    Regroup(parts[2], parts[3], parts[4]);
    Regroup(parts[1], parts[2], last);
    Regroup(parts[0], parts[1], parts[2] + ":" + last);
    Regroup(parts[0] + ":" + parts[1], parts[2], last);
    Regroup(parts[0] + ":" + parts[1] + ":" + parts[2], parts[3], parts[4]);
  }

  lemma Regroup(a: string, b: string, c: string)
    ensures a + ":" + (b + ":" + c) == a + ":" + b + ":" + c
  {
  }

  lemma JoinOne(parts: seq<string>)
    requires |parts| >= 2
    ensures JoinColon(parts) == parts[0] + ":" + JoinColon(parts[1..])
  {
  }

  lemma FormSplits(s: string, a: string, b: string, sort: string, c: string)
    requires FormOf(s, a, b, sort, c)
    ensures SplitColon(s) == ["mattermost", a, b, sort, c]
  {
    var parts := ["mattermost", a, b, sort, c];
    JoinFive(parts);
    assert s == JoinColon(parts) by { assert "mattermost:" == "mattermost" + ":"; }
    SplitJoin(parts);
  }

  /** What a scope id looks like. */
  lemma ScopeIdForm(ns: Namespace, kind: ScopeKind, resource: string)
    ensures FormOf(ScopeIdOf(ns, kind, resource), Quote(ns.installation), Quote(ns.tenant),
                   if kind.Personal? then "usr" else "chn", Quote(resource))
  {
    QuotedHasNoColon(ns.installation);
    QuotedHasNoColon(ns.tenant);
    QuotedHasNoColon(resource);
    hide Quote;
    var parts := ["mattermost", Quote(ns.installation), Quote(ns.tenant),
                  if kind.Personal? then "usr" else "chn", Quote(resource)];
    JoinFive(parts);
    assert ScopeIdOf(ns, kind, resource) == JoinColon(parts);
  }

  lemma QuotedHasNoColon(s: string)
    ensures ':' !in Quote(s)
  {
    QuotedIsPlain(Encode(s));
  }

  /** Parsing a printed scope id gives back what was printed, whatever the strings hold, if
      and only if the kind is one of the two that have a form of their own. */
  lemma ScopeRoundTrip(ns: Namespace, kind: ScopeKind, resource: string)
    ensures Parse(ScopeIdOf(ns, kind, resource))
         == Ok(Parsed(ns, if kind.Personal? then Personal else Channel, resource))
    ensures Parse(ScopeIdOf(ns, kind, resource)) == Ok(Parsed(ns, kind, resource)) <==> kind.Personal? || kind.Channel?
  {
    QuotedHasNoColon(ns.installation);
    QuotedHasNoColon(ns.tenant);
    QuotedHasNoColon(resource);
    var parts := ["mattermost", Quote(ns.installation), Quote(ns.tenant),
                  if kind.Personal? then "usr" else "chn", Quote(resource)];
    SplitJoin(parts);
    QuoteRoundTrip(ns.installation);
    QuoteRoundTrip(ns.tenant);
    QuoteRoundTrip(resource);
  }

  /** Equal scope ids name the same installation, tenant, resource, and sort of scope. */
  lemma ScopeIdInjective(ns: Namespace, kind: ScopeKind, resource: string,
                         ns': Namespace, kind': ScopeKind, resource': string)
    requires ScopeIdOf(ns, kind, resource) == ScopeIdOf(ns', kind', resource')
    ensures ns == ns'
    ensures resource == resource'
    ensures (kind.Personal? <==> kind'.Personal?)
  {
    ScopeRoundTrip(ns, kind, resource);
    ScopeRoundTrip(ns', kind', resource');
  }

  // ---- resolving a post ----

  /** What the server answers about a channel. */
  datatype ChannelInfo = ChannelInfo(id: string, kind: string, team: string)

  datatype Scope = Scope(id: string, ns: Namespace, conversation: string, kind: ScopeKind, owner: string, team: string)

  function ResolvePost(ns: Namespace, actor: string, channel: string, info: ChannelInfo): Result<Scope, Error> {
    if actor == "" || channel == "" then Err(IncompletePost)
    else if info.id != channel then Err(ChannelUnavailable)
    else if info.kind !in {"O", "P", "D", "G"} then Err(ChannelUnavailable)
    else
      var kind := if info.kind == "D" then Personal else Channel;
      var owner := if kind.Personal? then actor else "";
      Ok(Scope(ScopeIdOf(ns, kind, if owner != "" then owner else channel), ns, channel, kind, owner, info.team))
  }

  /** Which posts have a scope, and which: direct messages that of their author, all others that of
      their channel. */
  lemma ResolvedTells(ns: Namespace, actor: string, channel: string, info: ChannelInfo)
    ensures var r := ResolvePost(ns, actor, channel, info);
      && (r == Err(IncompletePost) <==> actor == "" || channel == "")
      && (r.Ok? <==> actor != "" && channel != "" && info.id == channel && info.kind in ["O", "P", "D", "G"])
      && (r.Err? ==> r.error in [IncompletePost, ChannelUnavailable])
      && (r.Ok? && info.kind == "D" ==>
            r.value == Scope(ScopeIdOf(ns, Personal, actor), ns, channel, Personal, actor, info.team))
      && (r.Ok? && info.kind != "D" ==>
            r.value == Scope(ScopeIdOf(ns, Channel, channel), ns, channel, Channel, "", info.team))
  {
  }

  /** Two posts share a scope exactly if they are in the same namespace and are either both
      direct messages of the same author or both in the same other channel. */
  lemma ScopesPartitionPosts(ns: Namespace, actor: string, channel: string, info: ChannelInfo,
                             ns': Namespace, actor': string, channel': string, info': ChannelInfo)
    requires ResolvePost(ns, actor, channel, info).Ok? && ResolvePost(ns', actor', channel', info').Ok?
    ensures ResolvePost(ns, actor, channel, info).value.id == ResolvePost(ns', actor', channel', info').value.id
       <==> ns == ns' && (info.kind == "D" <==> info'.kind == "D")
            && (if info.kind == "D" then actor == actor' else channel == channel')
  {
    var s, s' := ResolvePost(ns, actor, channel, info).value, ResolvePost(ns', actor', channel', info').value;
    if s.id == s'.id {
      ScopeIdInjective(ns, s.kind, if s.owner != "" then s.owner else channel,
                       ns', s'.kind, if s'.owner != "" then s'.owner else channel');
    }
  }

  // ---- the access guard ----

  /** The server's answers, None for a failed call. */
  datatype Directory = Directory(channelOf: string -> Option<ChannelInfo>, memberOf: (string, string) -> Option<string>)

  predicate IsMember(d: Directory, channel: string, actor: string) {
    d.memberOf(channel, actor) == Some(actor)
  }

  /** `MattermostAccessGuard.require`. */
  function Require(ns: Namespace, d: Directory, actor: string, scopeId: string, channel: string): Result<(), Error> {
    if actor == "" || scopeId == "" then Err(Denied)
    else
      match Parse(scopeId)
      case Err(_) => Err(Denied)
      case Ok(p) =>
        if p.ns != ns then Err(Denied)
        else if p.kind.Personal? then
          if actor != p.resource then Err(Denied)
          else if channel == "" then Ok(())
          else if d.channelOf(channel).None? || d.memberOf(channel, actor).None? then Err(Denied)
          else if d.channelOf(channel).value.id != channel || d.channelOf(channel).value.kind != "D"
                  || !IsMember(d, channel, actor) then Err(Denied)
          else Ok(())
        else if channel != "" && channel != p.resource then Err(Denied)
        else if IsMember(d, p.resource, actor) then Ok(()) else Err(Denied)
  }

  /** Whom the guard lets in, for every scope id: the owner of a personal scope, if a channel that is named
      is a direct one he is in; and to a channel scope its members. */
  lemma GuardTells(ns: Namespace, d: Directory, actor: string, s: string, channel: string,
                   a: string, b: string, sort: string, c: string)
    ensures Require(ns, d, actor, s, channel).Ok? ==> actor != "" && exists w, x, y, z :: FormOf(s, w, x, y, z)
    ensures FormOf(s, a, b, sort, c) && actor != "" ==>
      (Require(ns, d, actor, s, channel).Ok? <==>
        && ns.installation == Unquote(a) && ns.tenant == Unquote(b)
        && (if sort == "usr"
            then Unquote(c) == actor
                 && (channel == "" || exists team ::
                       && d.channelOf(channel) == Some(ChannelInfo(channel, "D", team))
                       && d.memberOf(channel, actor) == Some(actor))
            else channel in ["", Unquote(c)] && d.memberOf(Unquote(c), actor) == Some(actor)))
    ensures Require(ns, d, actor, s, channel).Err? ==> Require(ns, d, actor, s, channel).error == Denied
  {
    ParseTells(s, a, b, sort, c);
    assert FormOf(s, a, b, sort, c) ==> s[0] == 'm';
    hide Parse, FormOf;
    var info := d.channelOf(channel);
    if info.Some? && info.value.id == channel && info.value.kind == "D" {
      assert info == Some(ChannelInfo(channel, "D", info.value.team));
    }
  }

  /** For a scope resolved from a post, the guard admits an actor to a channel exactly when the
      scope is of this namespace and the actor is a member there; a direct message also has to
      be the author's own and still a direct message. */
  lemma GuardAdmitsExactly(ns: Namespace, d: Directory, author: string, posted: string, info: ChannelInfo,
                           ns': Namespace, actor: string, channel: string)
    requires ResolvePost(ns, author, posted, info).Ok? && actor != "" && channel != ""
    ensures Require(ns', d, actor, ResolvePost(ns, author, posted, info).value.id, channel).Ok?
       <==> ns == ns' && IsMember(d, channel, actor)
            && (if info.kind == "D"
                then actor == author && d.channelOf(channel).Some?
                     && d.channelOf(channel).value.id == channel && d.channelOf(channel).value.kind == "D"
                else channel == posted)
  {
    var s := ResolvePost(ns, author, posted, info).value;
    ScopeRoundTrip(ns, s.kind, if s.owner != "" then s.owner else posted);
  }
}
