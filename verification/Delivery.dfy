/** Delivering a message with artifacts (application/delivery.py, `deliver`): files are
    uploaded one by one and their ids saved, so that a later attempt takes up where an
    earlier one stopped. */
module Delivery {
  import opened Wrappers

  type FileId = string

  datatype Message = Message(
    channel: string, text: string, rootId: string, key: string, scope: string,
    refs: seq<string>, fileIds: seq<FileId>, updatePostId: string)

  /** An upload the server has accepted: the delivery it was made for, where it went, and
      whether the attempt lived on to save its id. */
  datatype Upload = Upload(owner: string, channel: string, ref: string, id: FileId, kept: bool)

  datatype Post =
    | Updated(id: string, text: string)
    | Sent(channel: string, text: string, rootId: string, files: seq<FileId>, pendingId: string)

  /** How the upload of one file goes: no artifact is found, the server refuses it or answers
      without an id, it accepts the file but the attempt dies before the id is saved, or all
      goes well. */
  datatype UploadFate = Unresolved | Refused | WithoutId | Lost(id: FileId) | Accepted(id: FileId)

  datatype PostFate = NotPosted | PostedWithoutAnswer | Answered(id: string)

  datatype Faults = Faults(denied: bool, upload: nat -> UploadFate, post: PostFate)

  datatype Error = AccessDenied | NotConfigured | NoScope | TooManyFiles | UploadFailed | DeliveryFailed

  /** What survives an attempt: the saved ids of the message, and what the server has. */
  datatype State = State(saved: seq<FileId>, uploads: seq<Upload>, posts: seq<Post>)

  // ---- one attempt, as a function ----

  function UploadOf(m: Message, i: nat, id: FileId, kept: bool): Upload
    requires i < |m.refs|
  {
    Upload(m.key, m.channel, m.refs[i], id, kept)
  }

  datatype Uploaded = Uploaded(state: State, ids: seq<FileId>, ok: bool)

  function UploadRest(s: State, m: Message, ids: seq<FileId>, f: Faults, durable: bool): Uploaded
    decreases |m.refs| - |ids|
  {
    if |ids| >= |m.refs| then Uploaded(s, ids, true)
    else
      match f.upload(|ids|)
      case Lost(id) =>
        Uploaded(s.(uploads := s.uploads + [UploadOf(m, |ids|, id, false)]), ids, false)
      case Accepted(id) =>
        if id == "" then Uploaded(s, ids, false)
        else
          var more := ids + [id];
          UploadRest(s.(uploads := s.uploads + [UploadOf(m, |ids|, id, true)],
                        saved := if durable then more else s.saved), m, more, f, durable)
      case _ => Uploaded(s, ids, false)
  }

  function PostOf(m: Message, ids: seq<FileId>): Post {
    if m.updatePostId != "" && ids == [] then Updated(m.updatePostId, m.text)
    else Sent(m.channel, m.text, m.rootId, ids, m.key)
  }

  datatype Attempted = Attempted(state: State, result: Result<string, Error>)

  function Finish(s: State, m: Message, ids: seq<FileId>, f: Faults): Attempted {
    match f.post
    case NotPosted => Attempted(s, Err(DeliveryFailed))
    case PostedWithoutAnswer => Attempted(s.(posts := s.posts + [PostOf(m, ids)]), Err(DeliveryFailed))
    case Answered(id) =>
      Attempted(s.(posts := s.posts + [PostOf(m, ids)]), if id == "" then Err(DeliveryFailed) else Ok(id))
  }

  function Attempt(s: State, m: Message, f: Faults, configured: bool, durable: bool): Attempted {
    if f.denied then Attempted(s, Err(AccessDenied))
    else if m.refs == [] then Finish(s, m, m.fileIds, f)
    else if !configured then Attempted(s, Err(NotConfigured))
    else if m.scope == "" then Attempted(s, Err(NoScope))
    else if |m.fileIds| > |m.refs| then Attempted(s, Err(TooManyFiles))
    else
      var u := UploadRest(s, m, m.fileIds, f, durable);
      if u.ok then Finish(u.state, m, u.ids, f) else Attempted(u.state, Err(UploadFailed))
  }

  // ---- what an attempt does, by what it leaves ----

  /** The upload of the i-th artifact for the message. */
  ghost predicate UploadTells(u: Upload, m: Message, i: nat) {
    i < |m.refs| && u.ref == m.refs[i] && u.owner == m.key && u.channel == m.channel
  }

  /** A post with the files: it updates the post named by the message if there are none, and otherwise
      goes to its channel and thread, with its key. */
  ghost predicate PostTells(p: Post, m: Message, files: seq<FileId>) {
    if m.updatePostId != "" && files == [] then p.Updated? && p.id == m.updatePostId && p.text == m.text
    else p.Sent? && p.channel == m.channel && p.text == m.text && p.rootId == m.rootId && p.files == files
         && p.pendingId == m.key
  }

  /** The server accepts the i-th artifact, under an id that is saved. */
  ghost predicate Takes(f: Faults, i: nat, id: FileId) { f.upload(i) == Accepted(id) && id != "" }

  /** Artifacts are uploaded from the given place on, up to the first that the server does not take. */
  ghost predicate GoesOn(files: seq<FileId>, m: Message, from: nat, f: Faults) {
    && from <= |files| <= |m.refs| && (forall k: nat :: from <= k < |files| ==> Takes(f, k, files[k]))
    && (|files| < |m.refs| ==> forall id :: !Takes(f, |files|, id))
  }

  /** The uploads this adds, in order: one for each id, and one whose id is lost, if that stops it. */
  ghost predicate NextUploads(more: seq<Upload>, files: seq<FileId>, m: Message, from: nat, f: Faults) {
    && from <= |files|
    && |more| == |files| - from + (if |files| < |m.refs| && f.upload(|files|).Lost? then 1 else 0)
    && forall k :: 0 <= k < |more| ==>
         && UploadTells(more[k], m, from + k)
         && (if from + k < |files| then more[k].id == files[from + k] && more[k].kept
             else f.upload(from + k) == Lost(more[k].id) && !more[k].kept)
  }

  lemma {:induction false} UploadRestTells(s: State, m: Message, ids: seq<FileId>, f: Faults, durable: bool)
    returns (more: seq<Upload>)
    requires |ids| <= |m.refs|
    ensures var u := UploadRest(s, m, ids, f, durable);
            && ids <= u.ids && GoesOn(u.ids, m, |ids|, f) && (u.ok <==> |u.ids| == |m.refs|)
            && u.state.posts == s.posts && u.state.uploads == s.uploads + more
            && NextUploads(more, u.ids, m, |ids|, f)
            && u.state.saved == if durable && |u.ids| > |ids| then u.ids else s.saved
    decreases |m.refs| - |ids|
  {
    more := [];
    if |ids| < |m.refs| {
      match f.upload(|ids|)
      case Lost(id) => more := [UploadOf(m, |ids|, id, false)];
      case Accepted(id) =>
        if id != "" {
          var upload, longer := UploadOf(m, |ids|, id, true), ids + [id];
          var s' := s.(uploads := s.uploads + [upload], saved := if durable then longer else s.saved);
          var later := UploadRestTells(s', m, longer, f, durable);
          more := [upload] + later;
          OneMoreUpload(s.uploads, upload, later, UploadRest(s', m, longer, f, durable).ids, m, |ids|, f);
        }
      case _ =>
    }
  }

  lemma OneMoreUpload(uploads: seq<Upload>, upload: Upload, later: seq<Upload>, files: seq<FileId>, m: Message,
                      from: nat, f: Faults)
    requires NextUploads(later, files, m, from + 1, f) && UploadTells(upload, m, from)
    requires upload.id == files[from] && upload.kept
    ensures NextUploads([upload] + later, files, m, from, f)
    ensures uploads + [upload] + later == uploads + ([upload] + later)
  {
    var more := [upload] + later;
    forall k | 0 < k < |more| ensures UploadTells(more[k], m, from + k) { assert more[k] == later[k - 1]; }
  }

  /** Nothing keeps the attempt from the artifacts, if there are any. */
  ghost predicate Admitted(m: Message, f: Faults, configured: bool) {
    !f.denied && (m.refs != [] ==> configured && m.scope != "" && |m.fileIds| <= |m.refs|)
  }

  /** One attempt: `files` are the ids it has in the end and `more` the uploads it adds. It uploads what has
      no id yet until the server does not take an artifact, saves the ids if it can, and posts once if none
      is missing; each result has its exact case. */
  lemma AttemptTells(s: State, m: Message, f: Faults, configured: bool, durable: bool)
    returns (files: seq<FileId>, more: seq<Upload>)
    ensures var a := Attempt(s, m, f, configured, durable);
            var admitted := Admitted(m, f, configured);
            var complete := admitted && (m.refs != [] ==> |files| == |m.refs|);
            && m.fileIds <= files && a.state.uploads == s.uploads + more
            && (if admitted && m.refs != []
                then GoesOn(files, m, |m.fileIds|, f) && NextUploads(more, files, m, |m.fileIds|, f)
                else files == m.fileIds && more == [])
            && a.state.saved == (if durable && |files| > |m.fileIds| then files else s.saved)
            && (if complete && f.post != NotPosted
                then |a.state.posts| == |s.posts| + 1 && s.posts <= a.state.posts
                     && PostTells(a.state.posts[|s.posts|], m, files)
                else a.state.posts == s.posts)
            && (forall id :: a.result == Ok(id) <==> complete && f.post == Answered(id) && id != "")
            && (a.result.Err? ==>
                  a.result.error == if f.denied then AccessDenied
                                    else if m.refs != [] && !configured then NotConfigured
                                    else if m.refs != [] && m.scope == "" then NoScope
                                    else if m.refs != [] && |m.fileIds| > |m.refs| then TooManyFiles
                                    else if !complete then UploadFailed else DeliveryFailed)
  {
    files, more := m.fileIds, [];
    if Admitted(m, f, configured) && m.refs != [] {
      files := UploadRest(s, m, m.fileIds, f, durable).ids;
      more := UploadRestTells(s, m, m.fileIds, f, durable);
    }
    hide GoesOn, NextUploads, UploadRest;
  }

  // ---- the class ----

  class MattermostDelivery {
    const configured: bool
    const hasOutbox: bool
    var outbox: map<string, seq<FileId>>
    var uploads: seq<Upload>
    var posts: seq<Post>
    var responses: nat

    constructor (configured: bool, hasOutbox: bool)
      ensures this.configured == configured && this.hasOutbox == hasOutbox
      ensures outbox == map[] && uploads == [] && posts == [] && responses == 0
    {
      this.configured, this.hasOutbox := configured, hasOutbox;
      outbox, uploads, posts, responses := map[], [], [], 0;
    }

    /** Ids are saved only with an outbox, a key, and a row for the key. */
    predicate Durable(key: string)
      reads this
    {
      hasOutbox && key != "" && key in outbox
    }

    ghost function StateOf(key: string): State
      reads this
    {
      State(if key in outbox then outbox[key] else [], uploads, posts)
    }

    /** `save_delivery_files`: an update, so without a row it changes nothing. */
    method SaveFiles(key: string, ids: seq<FileId>)
      modifies this`outbox
      ensures outbox == if key in old(outbox) then old(outbox)[key := ids] else old(outbox)
    {
      if key in outbox { outbox := outbox[key := ids]; }
    }

    method Deliver(m: Message, f: Faults) returns (r: Result<string, Error>)
      modifies this
      ensures Attempted(StateOf(m.key), r) == Attempt(old(StateOf(m.key)), m, f, configured, old(Durable(m.key)))
      ensures outbox.Keys == old(outbox.Keys)
      ensures forall k <- outbox :: k != m.key ==> outbox[k] == old(outbox)[k]
      ensures responses == old(responses) + if r.Ok? then 1 else 0
    {
      if f.denied { return Err(AccessDenied); }
      var ids := m.fileIds;
      ghost var durable := Durable(m.key);
      if m.refs != [] {
        if !configured { return Err(NotConfigured); }
        if m.scope == "" { return Err(NoScope); }
        if |ids| > |m.refs| { return Err(TooManyFiles); }
        ghost var start := StateOf(m.key);
        while |ids| < |m.refs|
          invariant |ids| <= |m.refs|
          invariant outbox.Keys == old(outbox.Keys) && responses == old(responses) && durable == Durable(m.key)
          invariant forall k <- outbox :: k != m.key ==> outbox[k] == old(outbox)[k]
          invariant UploadRest(StateOf(m.key), m, ids, f, durable) == UploadRest(start, m, m.fileIds, f, durable)
          decreases |m.refs| - |ids|
        {
          var fate := f.upload(|ids|);
          match fate
          case Unresolved => return Err(UploadFailed);
          case Refused => return Err(UploadFailed);
          case WithoutId => return Err(UploadFailed);
          case Lost(id) =>
            uploads := uploads + [UploadOf(m, |ids|, id, false)];
            return Err(UploadFailed);
          case Accepted(id) =>
            if id == "" { return Err(UploadFailed); }
            uploads := uploads + [UploadOf(m, |ids|, id, true)];
            ids := ids + [id];
            if hasOutbox && m.key != "" { SaveFiles(m.key, ids); }
        }
      }
      r := PostMessage(m, ids, f);
      if r.Ok? { responses := responses + 1; }
    }

    method PostMessage(m: Message, ids: seq<FileId>, f: Faults) returns (r: Result<string, Error>)
      modifies this`posts
      ensures Attempted(StateOf(m.key), r) == Finish(old(StateOf(m.key)), m, ids, f)
    {
      if f.post.NotPosted? { return Err(DeliveryFailed); }
      if m.updatePostId != "" && ids == [] {
        posts := posts + [Updated(m.updatePostId, m.text)];
      } else {
        posts := posts + [Sent(m.channel, m.text, m.rootId, ids, m.key)];
      }
      if f.post.PostedWithoutAnswer? || f.post.id == "" { return Err(DeliveryFailed); }
      return Ok(f.post.id);
    }
  }

  // ---- retrying ----

  /** What other deliveries do while a message waits for its next attempt. */
  datatype Elsewhere = Elsewhere(rows: map<string, seq<FileId>>, uploads: seq<Upload>, posts: seq<Post>)

  datatype Round = Round(before: Elsewhere, faults: Faults)

  function Meanwhile(s: State, e: Elsewhere): State {
    State(s.saved, s.uploads + e.uploads, s.posts + e.posts)
  }

  /** Attempts until one succeeds or the list ends; each starts from the ids last saved. */
  function Attempts(s: State, m: Message, rounds: seq<Round>, configured: bool, durable: bool): State
    decreases |rounds|
  {
    if rounds == [] then s
    else
      var s1 := Meanwhile(s, rounds[0].before);
      var a := Attempt(s1, m.(fileIds := s1.saved), rounds[0].faults, configured, durable);
      if a.result.Ok? then a.state else Attempts(a.state, m, rounds[1..], configured, durable)
  }

  /** Other deliveries may change everything but the row of this message. */
  method OtherDeliveries(d: MattermostDelivery, key: string, e: Elsewhere)
    requires key in d.outbox
    modifies d`outbox, d`uploads, d`posts
    ensures d.StateOf(key) == Meanwhile(old(d.StateOf(key)), e)
    ensures key in d.outbox
  {
    d.outbox := e.rows[key := d.outbox[key]];
    d.uploads := d.uploads + e.uploads;
    d.posts := d.posts + e.posts;
  }

  datatype Fate = Delivered | GivenUp | Retrying

  datatype Retries = Retries(state: State, fate: Fate, tried: nat)

  /** The same with a limit: after a failed attempt, `tried` of them in all, the delivery is given up
      if `tried` has reached the limit and retried otherwise. */
  function Retried(s: State, m: Message, rounds: seq<Round>, tried: nat, limit: nat,
                   configured: bool, durable: bool): Retries
    decreases |rounds|
  {
    if rounds == [] then Retries(s, Retrying, tried)
    else
      var s1 := Meanwhile(s, rounds[0].before);
      var a := Attempt(s1, m.(fileIds := s1.saved), rounds[0].faults, configured, durable);
      if a.result.Ok? then Retries(a.state, Delivered, tried + 1)
      else if tried + 1 >= limit then Retries(a.state, GivenUp, tried + 1)
      else Retried(a.state, m, rounds[1..], tried + 1, limit, configured, durable)
  }

  /** The delivery worker's retries of one stored message, other deliveries in between. */
  method DeliverUntilSent(d: MattermostDelivery, m: Message, rounds: seq<Round>, limit: nat)
    returns (fate: Fate, tried: nat)
    requires m.key in d.outbox
    modifies d
    ensures Retries(d.StateOf(m.key), fate, tried)
         == Retried(old(d.StateOf(m.key)), m, rounds, 0, limit, d.configured, old(d.Durable(m.key)))
  {
    fate, tried := Retrying, 0;
    while tried < |rounds|
      invariant 0 <= tried <= |rounds| && fate.Retrying?
      invariant m.key in d.outbox && d.Durable(m.key) == old(d.Durable(m.key))
      invariant Retried(d.StateOf(m.key), m, rounds[tried..], tried, limit, d.configured, d.Durable(m.key))
             == Retried(old(d.StateOf(m.key)), m, rounds, 0, limit, d.configured, d.Durable(m.key))
    {
      assert rounds[tried..][0] == rounds[tried] && rounds[tried..][1..] == rounds[tried + 1..];
      OtherDeliveries(d, m.key, rounds[tried].before);
      var r := d.Deliver(m.(fileIds := d.outbox[m.key]), rounds[tried].faults);
      tried := tried + 1;
      if r.Ok? {
        fate := Delivered;
        return;
      }
      if tried >= limit {
        fate := GivenUp;
        return;
      }
    }
  }

  /** What was done is a sequence of attempts, no more than the limit and at least one; it ends with
      a success, at the limit without one, or with the list. */
  lemma {:induction false} RetriesAreAttempts(s: State, m: Message, rounds: seq<Round>, tried: nat, limit: nat,
                                              configured: bool, durable: bool)
    ensures var r := Retried(s, m, rounds, tried, limit, configured, durable);
            && tried <= r.tried <= tried + |rounds|
            && r.state == Attempts(s, m, rounds[..r.tried - tried], configured, durable)
            && (r.fate.Delivered? <==> Succeeds(s, m, rounds[..r.tried - tried], configured, durable))
            && (r.fate.GivenUp? ==> r.tried >= limit)
            && (r.fate.Retrying? ==> r.tried == tried + |rounds|)
            && (tried < limit ==> r.tried <= limit)
    decreases |rounds|
  {
    var r := Retried(s, m, rounds, tried, limit, configured, durable);
    if rounds != [] {
      var s1 := Meanwhile(s, rounds[0].before);
      var a := Attempt(s1, m.(fileIds := s1.saved), rounds[0].faults, configured, durable);
      if a.result.Err? && tried + 1 < limit {
        RetriesAreAttempts(a.state, m, rounds[1..], tried + 1, limit, configured, durable);
      }
      var done := rounds[..r.tried - tried];
      assert done[0] == rounds[0] && done[1..] == rounds[1..][..r.tried - tried - 1];
    }
  }

  /** One of the attempts succeeds. */
  predicate Succeeds(s: State, m: Message, rounds: seq<Round>, configured: bool, durable: bool)
    decreases |rounds|
  {
    rounds != [] &&
    var s1 := Meanwhile(s, rounds[0].before);
    var a := Attempt(s1, m.(fileIds := s1.saved), rounds[0].faults, configured, durable);
    a.result.Ok? || Succeeds(a.state, m, rounds[1..], configured, durable)
  }

  // ---- counting the uploads of one delivery ----

  /** The uploads made for the delivery with the key. */
  function OwnUploads(uploads: seq<Upload>, key: string): nat {
    if uploads == [] then 0
    else OwnUploads(uploads[..|uploads| - 1], key) + if uploads[|uploads| - 1].owner == key then 1 else 0
  }

  /** Those of them whose attempt died before it could save the id. */
  function LostUploads(uploads: seq<Upload>, key: string): nat {
    if uploads == [] then 0
    else
      var last := uploads[|uploads| - 1];
      LostUploads(uploads[..|uploads| - 1], key) + if last.owner == key && !last.kept then 1 else 0
  }

  /** How many uploads of the delivery are neither saved nor lost. */
  function Surplus(s: State, key: string): int { OwnUploads(s.uploads, key) - |s.saved| - LostUploads(s.uploads, key) }

  ghost predicate ForOthers(e: Elsewhere, key: string) {
    && (forall i :: 0 <= i < |e.uploads| ==> e.uploads[i].owner != key)
    && (forall i :: 0 <= i < |e.posts| ==> !IsOwn(e.posts[i], key))
  }

  ghost predicate AllForOthers(rounds: seq<Round>, key: string) {
    forall i :: 0 <= i < |rounds| ==> ForOthers(rounds[i].before, key)
  }

  /** A post with files carries the key of its delivery. */
  predicate IsOwn(p: Post, key: string) { p.Sent? && p.pendingId == key }

  lemma {:induction false} CountOthers(uploads: seq<Upload>, more: seq<Upload>, key: string)
    requires forall i :: 0 <= i < |more| ==> more[i].owner != key
    ensures OwnUploads(uploads + more, key) == OwnUploads(uploads, key)
    ensures LostUploads(uploads + more, key) == LostUploads(uploads, key)
    decreases |more|
  {
    if more == [] {
      assert uploads + more == uploads;
    } else {
      var init, last := more[..|more| - 1], more[|more| - 1];
      CountOthers(uploads, init, key);
      assert uploads + more == (uploads + init) + [last];
    }
  }

  // ---- what every attempt keeps ----

  /** The i-th id is an upload of the i-th artifact to the channel, made for the message. */
  ghost predicate FilesOk(uploads: seq<Upload>, m: Message, ids: seq<FileId>) {
    && |ids| <= |m.refs|
    && forall i :: 0 <= i < |ids| ==> UploadOf(m, i, ids[i], true) in uploads
  }

  /** Uploading what is missing: saved ids only grow, and each upload is saved or lost. */
  lemma {:induction false} UploadRestKeeps(s: State, m: Message, ids: seq<FileId>, f: Faults, durable: bool)
    requires FilesOk(s.uploads, m, s.saved) && FilesOk(s.uploads, m, ids)
    requires durable ==> s.saved == ids
    ensures var u := UploadRest(s, m, ids, f, durable);
            && FilesOk(u.state.uploads, m, u.state.saved)
            && FilesOk(u.state.uploads, m, u.ids)
            && s.saved <= u.state.saved
            && s.uploads <= u.state.uploads
            && u.state.posts == s.posts
            && (u.ok ==> |u.ids| == |m.refs|)
    decreases |m.refs| - |ids|
  {
    if |ids| < |m.refs| {
      match f.upload(|ids|)
      case Lost(id) =>
      case Accepted(id) =>
        if id != "" {
          var upload := UploadOf(m, |ids|, id, true);
          var more := ids + [id];
          var s' := s.(uploads := s.uploads + [upload], saved := if durable then more else s.saved);
          UploadRestKeeps(s', m, more, f, durable);
        }
      case _ =>
    }
  }

  lemma {:induction false} UploadRestCounts(s: State, m: Message, ids: seq<FileId>, f: Faults, durable: bool)
    requires durable ==> s.saved == ids
    ensures var u := UploadRest(s, m, ids, f, durable);
            && LostUploads(s.uploads, m.key) <= LostUploads(u.state.uploads, m.key)
            && LostUploads(u.state.uploads, m.key) <= LostUploads(s.uploads, m.key) + (if u.ok then 0 else 1)
            && (durable ==> u.state.saved == u.ids && Surplus(u.state, m.key) == Surplus(s, m.key))
    decreases |m.refs| - |ids|
  {
    if |ids| < |m.refs| {
      match f.upload(|ids|)
      case Lost(id) =>
      case Accepted(id) =>
        if id != "" {
          var upload, more := UploadOf(m, |ids|, id, true), ids + [id];
          var s' := s.(uploads := s.uploads + [upload], saved := if durable then more else s.saved);
          UploadRestCounts(s', m, more, f, durable);
        }
      case _ =>
    }
  }

  /** A post of this message carries one id per artifact, in order. */
  ghost predicate PostOk(uploads: seq<Upload>, m: Message, p: Post) {
    p.Sent? && |p.files| == |m.refs| && FilesOk(uploads, m, p.files)
  }

  ghost predicate PostsOk(s: State, from: nat, m: Message) {
    forall i :: from <= i < |s.posts| ==> IsOwn(s.posts[i], m.key) ==> PostOk(s.uploads, m, s.posts[i])
  }

  /** One attempt. */
  lemma AttemptKeeps(s: State, m: Message, f: Faults, configured: bool, durable: bool)
    requires m.refs != [] && FilesOk(s.uploads, m, s.saved) && m.fileIds == s.saved
    ensures var a := Attempt(s, m, f, configured, durable);
            && FilesOk(a.state.uploads, m, a.state.saved)
            && s.saved <= a.state.saved
            && s.uploads <= a.state.uploads
            && s.posts <= a.state.posts
            && PostsOk(a.state, |s.posts|, m)
            && (a.result.Ok? ==>
                  |a.state.posts| == |s.posts| + 1 && PostOk(a.state.uploads, m, a.state.posts[|s.posts|]))
            && LostUploads(s.uploads, m.key) <= LostUploads(a.state.uploads, m.key)
            && LostUploads(a.state.uploads, m.key) <= LostUploads(s.uploads, m.key) + (if a.result.Ok? then 0 else 1)
            && (durable ==> Surplus(a.state, m.key) == Surplus(s, m.key))
  {
    UploadRestKeeps(s, m, m.fileIds, f, durable);
    UploadRestCounts(s, m, m.fileIds, f, durable);
  }

  /** One round: other deliveries, then an attempt from the ids last saved. */
  lemma RoundKeeps(s: State, m: Message, r: Round, configured: bool, durable: bool)
    requires m.refs != [] && FilesOk(s.uploads, m, s.saved) && ForOthers(r.before, m.key)
    ensures var s1 := Meanwhile(s, r.before);
            var a := Attempt(s1, m.(fileIds := s1.saved), r.faults, configured, durable);
            && FilesOk(a.state.uploads, m, a.state.saved)
            && s.saved <= a.state.saved
            && s.uploads <= a.state.uploads
            && s.posts <= a.state.posts
            && PostsOk(a.state, |s.posts|, m)
            && LostUploads(s.uploads, m.key) <= LostUploads(a.state.uploads, m.key) <= LostUploads(s.uploads, m.key) + 1
            && (durable ==> Surplus(a.state, m.key) == Surplus(s, m.key))
  {
    var s1 := Meanwhile(s, r.before);
    var m1 := m.(fileIds := s1.saved);
    CountOthers(s.uploads, r.before.uploads, m.key);
    AttemptKeeps(s1, m1, r.faults, configured, durable);
    var a := Attempt(s1, m1, r.faults, configured, durable);
  }

  /** Over any sequence of failed and resumed attempts, with other deliveries in between: the
      saved ids stay uploads of the artifacts in order and only grow, every post of the
      message carries one id per artifact in order, and if ids are saved, the uploads of the
      message beyond saved and lost ones stay as many as they were. A failed attempt loses at
      most one. */
  lemma {:induction false} AttemptsKeep(s: State, m: Message, rounds: seq<Round>, configured: bool, durable: bool)
    requires m.refs != [] && FilesOk(s.uploads, m, s.saved) && AllForOthers(rounds, m.key)
    ensures var e := Attempts(s, m, rounds, configured, durable);
            && FilesOk(e.uploads, m, e.saved)
            && s.saved <= e.saved
            && s.uploads <= e.uploads
            && s.posts <= e.posts
            && PostsOk(e, |s.posts|, m)
            && LostUploads(s.uploads, m.key) <= LostUploads(e.uploads, m.key)
            && LostUploads(e.uploads, m.key) <= LostUploads(s.uploads, m.key) + |rounds|
            && (durable ==> Surplus(e, m.key) == Surplus(s, m.key) && BoundHolds(e, m, Surplus(s, m.key)))
    decreases |rounds|
  {
    if rounds != [] {
      assert ForOthers(rounds[0].before, m.key);
      RoundKeeps(s, m, rounds[0], configured, durable);
      var s1 := Meanwhile(s, rounds[0].before);
      var a := Attempt(s1, m.(fileIds := s1.saved), rounds[0].faults, configured, durable);
      if a.result.Err? {
        assert AllForOthers(rounds[1..], m.key);
        AttemptsKeep(a.state, m, rounds[1..], configured, durable);
      }
    }
  }

  // ---- the bound needs the saved ids ----

  /** The uploads made for the message number at most its artifacts and the lost uploads,
      beside the surplus there was. */
  predicate BoundHolds(e: State, m: Message, surplus: int) {
    OwnUploads(e.uploads, m.key) <= |m.refs| + LostUploads(e.uploads, m.key) + surplus
  }

  const QUIET := Elsewhere(map[], [], [])

  /** All uploads succeed and the post fails. */
  function PostFails(): Round { Round(QUIET, Faults(false, (i: nat) => Accepted("id"), NotPosted)) }

  lemma {:induction false} AllUpload(s: State, m: Message, ids: seq<FileId>)
    requires |ids| <= |m.refs|
    ensures var u := UploadRest(s, m, ids, PostFails().faults, false);
            && u.ok
            && u.state.saved == s.saved
            && LostUploads(u.state.uploads, m.key) == LostUploads(s.uploads, m.key)
            && OwnUploads(u.state.uploads, m.key) == OwnUploads(s.uploads, m.key) + |m.refs| - |ids|
    decreases |m.refs| - |ids|
  {
    if |ids| < |m.refs| {
      var upload := UploadOf(m, |ids|, "id", true);
      AllUpload(s.(uploads := s.uploads + [upload]), m, ids + ["id"]);
    }
  }

  /** Uploads are bounded by the artifacts and the lost uploads, however attempts fail, if and
      only if ids are saved or no upload was outstanding. */
  lemma BoundNeedsSavedIds(s: State, m: Message, durable: bool)
    requires m.refs != [] && m.scope != "" && FilesOk(s.uploads, m, s.saved)
    ensures (forall rounds: seq<Round> :: AllForOthers(rounds, m.key) ==>
               BoundHolds(Attempts(s, m, rounds, true, durable), m, Surplus(s, m.key)))
            <==> durable || |s.saved| == |m.refs|
  {
    if durable {
      forall rounds: seq<Round> | AllForOthers(rounds, m.key)
        ensures BoundHolds(Attempts(s, m, rounds, true, durable), m, Surplus(s, m.key))
      {
        AttemptsKeep(s, m, rounds, true, durable);
      }
    } else if |s.saved| == |m.refs| {
      forall rounds: seq<Round> | AllForOthers(rounds, m.key)
        ensures BoundHolds(Attempts(s, m, rounds, true, durable), m, Surplus(s, m.key))
      {
        NothingOutstanding(s, m, rounds);
      }
    } else {
      TwoRoundsTooMany(s, m);
      assert AllForOthers([PostFails(), PostFails()], m.key);
    }
  }

  lemma {:induction false} NothingOutstanding(s: State, m: Message, rounds: seq<Round>)
    requires m.refs != [] && |s.saved| == |m.refs| && AllForOthers(rounds, m.key)
    ensures var e := Attempts(s, m, rounds, true, false);
            && OwnUploads(e.uploads, m.key) == OwnUploads(s.uploads, m.key)
            && LostUploads(e.uploads, m.key) == LostUploads(s.uploads, m.key)
    decreases |rounds|
  {
    if rounds != [] {
      assert ForOthers(rounds[0].before, m.key);
      var s1 := Meanwhile(s, rounds[0].before);
      CountOthers(s.uploads, rounds[0].before.uploads, m.key);
      var a := Attempt(s1, m.(fileIds := s1.saved), rounds[0].faults, true, false);
      assert a.state.uploads == s1.uploads && a.state.saved == s1.saved;
      if a.result.Err? {
        assert AllForOthers(rounds[1..], m.key);
        NothingOutstanding(a.state, m, rounds[1..]);
      }
    }
  }

  /** One round in which everything is uploaded again. */
  lemma RoundUploads(s: State, m: Message)
    requires m.refs != [] && m.scope != "" && |s.saved| <= |m.refs|
    ensures var a := Attempt(Meanwhile(s, QUIET), m.(fileIds := s.saved), PostFails().faults, true, false);
            && a.result.Err? && a.state.saved == s.saved
            && LostUploads(a.state.uploads, m.key) == LostUploads(s.uploads, m.key)
            && OwnUploads(a.state.uploads, m.key) == OwnUploads(s.uploads, m.key) + |m.refs| - |s.saved|
  {
    assert Meanwhile(s, QUIET) == s;
    AllUpload(s, m.(fileIds := s.saved), s.saved);
  }

  lemma TwoRoundsTooMany(s: State, m: Message)
    requires m.refs != [] && m.scope != "" && |s.saved| < |m.refs|
    ensures !BoundHolds(Attempts(s, m, [PostFails(), PostFails()], true, false), m, Surplus(s, m.key))
  {
    var r := PostFails();
    RoundUploads(s, m);
    var s1 := Attempt(Meanwhile(s, QUIET), m.(fileIds := s.saved), r.faults, true, false).state;
    RoundUploads(s1, m);
    var s2 := Attempt(Meanwhile(s1, QUIET), m.(fileIds := s1.saved), r.faults, true, false).state;
    assert [r, r][1..] == [r] && [r][1..] == [];
    assert Attempts(s2, m, [], true, false) == s2;
    assert Attempts(s1, m, [r], true, false) == Attempts(s2, m, [], true, false);
    assert Attempts(s, m, [r, r], true, false) == Attempts(s1, m, [r], true, false);
  }
}
