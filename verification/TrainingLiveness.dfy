/** Exactly when a request to a reachable task succeeds, and exactly when a task can still be completed. */
module TrainingLiveness {
  import opened Common
  import opened Training
  import opened TrainingRuns
  import Http
  import Files
  import FileProtocol

  // ---- exact success ----

  predicate Current(t: Task, ifMatch: Option<string>) {
    Http.Version(t.version) && ifMatch == Some(Http.ETag(t.version))
  }

  predicate Available(t: Task, assets: Files.Assets, f: Files.FileId) {
    f in assets && Files.Fits(assets[f], t.caseId, Files.TaskEvidence, Some(t.id)) && assets[f].state == Files.Ready
  }

  predicate Row(t: Task, k: nat, status: StepStatus)
    requires Shaped(t) && k < |t.steps|
  {
    t.rows[t.steps[k].id].status == status
  }

  lemma RequireFilesExact(t: Task, assets: Files.Assets, ids: seq<Files.FileId>)
    ensures Files.RequireFiles(assets, ids, t.caseId, Files.TaskEvidence, Some(t.id)).Pass?
      <==> Distinct(ids) && forall f :: f in ids ==> Available(t, assets, f)
  {
    assert forall i :: 0 <= i < |ids| ==> ids[i] in ids;
  }

  /** The action route, whatever the task's history: who may move it, from where. */
  lemma ActSucceedsIff(t: Task, a: Access, c: Command, reason: string, ifMatch: Option<string>)
    requires c in {Start, Pause, Resume, Cancel}
    ensures Act(t, a, c, reason, ifMatch).Ok? <==>
        && Current(t, ifMatch) && !a.closed
        && match c
           case Start => a.learner && t.status == NotStarted
           case Pause => a.learner && t.status == InProgress
           case Resume => a.learner && t.status in {Paused, ChangesRequested}
           case Cancel => a.counselor && !Blank(reason) && t.status !in {Completed, Cancelled}
           case _ => false
  {
    Http.RequireVersionExact(ifMatch, t.version);
  }

  /** A save succeeds exactly on the first open step of a running task, with files ready for it and evidence where it
      is due. */
  lemma SaveSucceedsIff(t: Task, a: Access, k: nat, status: StepStatus, attachments: seq<Files.FileId>,
                        ifMatch: Option<string>, assets: Files.Assets)
    requires Shaped(t) && UniqueIds(t.steps) && t.rows.Keys == StepIds(t.steps) && k < |t.steps|
    ensures SaveProgress(t, a, t.steps[k].id, status, attachments, ifMatch, assets).Ok? <==>
        && Current(t, ifMatch) && !a.closed && a.learner && t.status == InProgress
        && !Row(t, k, Finished) && (forall j :: 0 <= j < k ==> Row(t, j, Finished))
        && Distinct(attachments) && (forall f :: f in attachments ==> Available(t, assets, f))
        && (status == Finished && t.steps[k].evidenceRequired ==> attachments != [])
  {
    Http.RequireVersionExact(ifMatch, t.version);
    RequireFilesExact(t, assets, attachments);
    FirstOpenIs(t, k);
    EvidenceAt(t.steps, k);
  }

  lemma FirstOpenIs(t: Task, k: nat)
    requires Shaped(t) && UniqueIds(t.steps) && k < |t.steps|
    ensures FirstOpen(Payload(t)) == Some(t.steps[k].id) <==> !Row(t, k, Finished) && forall j :: 0 <= j < k ==>
        Row(t, j, Finished)
  {
    var entries := Payload(t);
    PayloadRows(t);
    if FirstOpen(entries).Some? {
      var j :| IsFirstOpen(entries, j) && entries[j].step == FirstOpen(entries).value;
      assert t.steps[j].id == FirstOpen(entries).value;
      assert j != k ==> t.steps[j].id != t.steps[k].id;
      assert !Row(t, j, Finished) && forall i :: 0 <= i < j ==> Row(t, i, Finished);
    }
  }

  lemma PayloadRows(t: Task)
    requires Shaped(t)
    ensures |Payload(t)| == |t.steps|
    ensures forall k :: 0 <= k < |t.steps| ==>
        Payload(t)[k] == Entry(t.steps[k].id, t.rows[t.steps[k].id])
            && (Payload(t)[k].progress.status == Finished <==> Row(t, k, Finished))
  {
  }

  predicate AllAvailable(t: Task, assets: Files.Assets)
    requires Shaped(t)
  {
    forall k, f :: 0 <= k < |t.steps| && f in t.rows[t.steps[k].id].attachments ==> Available(t, assets, f)
  }

  lemma AttachedExact(t: Task, assets: Files.Assets)
    requires Shaped(t)
    ensures Files.RequireFiles(assets, Dedupe(Attached(Payload(t))), t.caseId, Files.TaskEvidence, Some(t.id)).Pass?
      <==> AllAvailable(t, assets)
  {
    var ids := Dedupe(Attached(Payload(t)));
    RequireFilesExact(t, assets, ids);
    AttachedIs(t);
  }

  lemma AttachedIs(t: Task)
    requires Shaped(t)
    ensures forall k, f :: 0 <= k < |t.steps| && f in t.rows[t.steps[k].id].attachments ==> f in Attached(Payload(t))
    ensures forall f :: f in Attached(Payload(t)) ==>
        exists k :: 0 <= k < |t.steps| && f in t.rows[t.steps[k].id].attachments
  {
    var entries := Payload(t);
    forall k, f | 0 <= k < |t.steps| && f in t.rows[t.steps[k].id].attachments ensures f in Attached(entries) {
      AttachedAt(entries, k, f);
    }
    forall f | f in Attached(entries) ensures exists k :: 0 <= k < |t.steps| && f in t.rows[t.steps[k].id].attachments {
      AttachedFrom(entries, f);
      var k :| 0 <= k < |entries| && f in entries[k].progress.attachments;
      assert entries[k].progress == t.rows[t.steps[k].id];
    }
  }

  /** A submission succeeds exactly when every step is finished and every attachment of every step is ready for the
      task. */
  lemma SubmitSucceedsIff(t: Task, a: Access, note: string, ifMatch: Option<string>, assets: Files.Assets)
    requires Shaped(t)
    ensures SubmitTask(t, a, note, ifMatch, assets).Ok? <==>
        && Current(t, ifMatch) && !a.closed && a.learner && t.status == InProgress && t.steps != []
        && (forall k :: 0 <= k < |t.steps| ==> Row(t, k, Finished)) && AllAvailable(t, assets)
  {
    Http.RequireVersionExact(ifMatch, t.version);
    PayloadRows(t);
    AttachedExact(t, assets);
  }

  lemma {:induction false} AttachedFrom(entries: seq<Entry>, f: Files.FileId)
    requires f in Attached(entries)
    ensures exists k :: 0 <= k < |entries| && f in entries[k].progress.attachments
  {
    if f !in entries[0].progress.attachments {
      AttachedFrom(entries[1..], f);
      var k :| 0 <= k < |entries[1..]| && f in entries[1..][k].progress.attachments;
      assert f in entries[k + 1].progress.attachments;
    }
  }

  /** A review succeeds exactly on the latest submission of a task awaiting one, with consistent feedback. */
  lemma ReviewSucceedsIff(t: Task, a: Access, submission: nat, outcome: string, message: string, redo: seq<StepId>,
                          annotated: bool, validated: bool, ifMatch: Option<string>)
    requires Inv(t)
    ensures ReviewTask(t, a, submission, outcome, message, redo, annotated, validated, ifMatch).Ok? <==>
        && Current(t, ifMatch) && !a.closed && a.counselor && t.status == Submitted && submission == |t.submissions| - 1
        && outcome in {"passed", "changes_requested"} && !Blank(message) && |message| <= 500
        && Distinct(redo) && Elements(redo) <= StepIds(t.steps) && (outcome == "changes_requested" <==> redo != [])
        && (annotated ==> validated)
  {
    Http.RequireVersionExact(ifMatch, t.version);
    if submission < |t.submissions| {
      SnapshotNames(t, submission);
      LatestIs(t.steps, t.submissions, submission);
    }
  }

  // ---- what completing a task takes ----

  function Unfinished(steps: seq<RevisionStep>, rows: map<StepId, Training.Progress>): nat
    requires HasRows(steps, rows)
  {
    if steps == [] then 0
    else
      var init, last := steps[..|steps| - 1], steps[|steps| - 1];
      assert forall k :: 0 <= k < |init| ==> init[k] == steps[k];
      Unfinished(init, rows) + if rows[last.id].status == Finished then 0 else 1
  }

  /** The fewest successful requests that complete the task; one more than enough when it is cancelled. */
  function Needed(t: Task): nat
    requires Shaped(t)
  {
    match t.status
    case Completed => 0
    case Submitted => 1
    case InProgress => Unfinished(t.steps, t.rows) + 2
    case Cancelled => Unfinished(t.steps, t.rows) + 4
    case _ => Unfinished(t.steps, t.rows) + 3
  }

  /** The version numbers that those requests take are still representable. */
  predicate Headroom(t: Task)
    requires Shaped(t)
  {
    1 <= t.version && t.version + Needed(t) <= Http.MAX_VERSION + 1
  }

  /** The files that finished steps rest on; no submission has linked them yet, so their uploader can delete them. */
  predicate Supported(t: Task, assets: Files.Assets)
    requires Shaped(t)
  {
    forall k, f :: 0 <= k < |t.steps| && Row(t, k, Finished) && f in t.rows[t.steps[k].id].attachments ==>
        Available(t, assets, f)
  }

  /** Steps that still require evidence can have some. */
  ghost predicate Suppliable(t: Task, assets: Files.Assets)
    requires Shaped(t)
  {
    (exists f :: Available(t, assets, f)) || forall k :: 0 <= k < |t.steps| && t.steps[k].evidenceRequired ==>
        Row(t, k, Finished)
  }

  /** The requests find the case open or closed and consult these assets. */
  predicate Uses(rs: seq<Request>, open: bool, assets: Files.Assets) {
    forall i :: 0 <= i < |rs| ==> Meets(rs[i], open, assets)
  }

  predicate Meets(r: Request, open: bool, assets: Files.Assets) {
    r.access.closed == !open && ((r.Progress? || r.Submission?) ==> r.assets == assets)
  }

  ghost predicate Completable(t: Task, open: bool, assets: Files.Assets) {
    exists rs :: Uses(rs, open, assets) && Run(t, rs).status == Completed
  }

  // ---- counting ----

  lemma {:induction false} UnfinishedBound(steps: seq<RevisionStep>, rows: map<StepId, Training.Progress>)
    requires HasRows(steps, rows)
    ensures Unfinished(steps, rows) == 0 <==> forall k :: 0 <= k < |steps| ==> rows[steps[k].id].status == Finished
  {
    if steps != [] {
      var init := steps[..|steps| - 1];
      assert forall k :: 0 <= k < |init| ==> init[k] == steps[k];
      UnfinishedBound(init, rows);
    }
  }

  /** Rewriting the row of one open step moves the count by what happens to that step. */
  lemma {:induction false} UnfinishedChange(steps: seq<RevisionStep>, rows: map<StepId, Training.Progress>, k: nat,
                                            p: Training.Progress)
    requires HasRows(steps, rows) && UniqueIds(steps) && k < |steps| && rows[steps[k].id].status != Finished
    ensures HasRows(steps, rows[steps[k].id := p])
    ensures Unfinished(steps, rows[steps[k].id := p])
      == Unfinished(steps, rows) - (if p.status == Finished then 1 else 0)
  {
    var init := steps[..|steps| - 1];
    assert forall j :: 0 <= j < |init| ==> init[j] == steps[j];
    if k < |init| {
      UnfinishedChange(init, rows, k, p);
    } else {
      UnfinishedFrame(init, rows, rows[steps[k].id := p]);
    }
  }

  lemma {:induction false} UnfinishedFrame(steps: seq<RevisionStep>, a: map<StepId, Training.Progress>, b: map<StepId,
                                           Training.Progress>)
    requires HasRows(steps, a) && HasRows(steps, b) && forall k :: 0 <= k < |steps| ==> a[steps[k].id] == b[steps[k].id]
    ensures Unfinished(steps, a) == Unfinished(steps, b)
  {
    if steps != [] {
      var init := steps[..|steps| - 1];
      assert forall k :: 0 <= k < |init| ==> init[k] == steps[k];
      UnfinishedFrame(init, a, b);
    }
  }

  // ---- a task that can still be completed ----

  const LEARNER: Access := Access(true, false, false)
  const COUNSELOR: Access := Access(false, true, false)

  lemma RunLast(t: Task, rs: seq<Request>, r: Request)
    ensures Run(t, rs + [r]) == Step(Run(t, rs), r)
  {
    assert (rs + [r])[..|rs|] == rs;
  }

  lemma {:induction false} RunCons(t: Task, r: Request, rs: seq<Request>)
    ensures Run(t, [r] + rs) == Run(Step(t, r), rs)
  {
    if rs == [] {
      RunLast(t, [], r);
      assert [] + [r] == [r] && [r] + rs == [r];
    } else {
      var init, last := rs[..|rs| - 1], rs[|rs| - 1];
      RunCons(t, r, init);
      RunLast(t, [r] + init, last);
      RunLast(Step(t, r), init, last);
      assert [r] + rs == [r] + init + [last] && rs == init + [last];
    }
  }

  lemma CompletedBy(t: Task, r: Request, rs: seq<Request>, open: bool, assets: Files.Assets)
    requires Meets(r, open, assets) && Uses(rs, open, assets) && Run(Step(t, r), rs).status == Completed
    ensures Completable(t, open, assets)
  {
    RunCons(t, r, rs);
    assert Uses([r] + rs, open, assets);
  }

  lemma Continue(t: Task, r: Request, open: bool, assets: Files.Assets)
    requires Meets(r, open, assets) && Completable(Step(t, r), open, assets)
    ensures Completable(t, open, assets)
  {
    var rs :| Uses(rs, open, assets) && Run(Step(t, r), rs).status == Completed;
    CompletedBy(t, r, rs, open, assets);
  }

  lemma PassIt(t: Task, assets: Files.Assets)
    requires Inv(t) && t.status == Submitted && Headroom(t)
    ensures Completable(t, true, assets)
  {
    var r := Request.Feedback(COUNSELOR, |t.submissions| - 1, "passed", "ok", [], false, false,
        Some(Http.ETag(t.version)));
    assert !Blank("ok") by { assert !IsSpace("ok"[0]); }
    ReviewSucceedsIff(t, r.access, r.submission, r.outcome, r.message, r.redo, false, false, r.ifMatch);
    assert Run(Step(t, r), []) == Step(t, r);
    CompletedBy(t, r, [], true, assets);
  }

  lemma SubmitIt(t: Task, assets: Files.Assets)
    requires Inv(t) && t.status == InProgress && t.steps != [] && Headroom(t) && Supported(t, assets)
    requires forall k :: 0 <= k < |t.steps| ==> Row(t, k, Finished)
    ensures Completable(t, true, assets)
  {
    var r := Request.Submission(LEARNER, "", Some(Http.ETag(t.version)), assets);
    SubmitSucceedsIff(t, r.access, r.note, r.ifMatch, assets);
    ExecuteInv(t, r);
    var s := SubmitShape(t, r);
    PassIt(Step(t, r), assets);
    Continue(t, r, true, assets);
  }

  /** From the first k steps finished: finish the rest in order, submit, pass. */
  lemma {:induction false} FinishIt(t: Task, assets: Files.Assets, k: nat)
    requires Inv(t) && t.status == InProgress && t.steps != [] && k <= |t.steps| && Headroom(t)
    requires Supported(t, assets) && Suppliable(t, assets) && forall j :: 0 <= j < k ==> Row(t, j, Finished)
    ensures Completable(t, true, assets)
    decreases |t.steps| - k
  {
    if k == |t.steps| {
      SubmitIt(t, assets);
    } else if Row(t, k, Finished) {
      FinishIt(t, assets, k + 1);
    } else {
      var files := EvidenceFor(t, assets, k);
      var r := Request.Progress(LEARNER, t.steps[k].id, Finished, files, Some(Http.ETag(t.version)), assets);
      SaveIt(t, r, k, files);
      FinishIt(Step(t, r), assets, k + 1);
      Continue(t, r, true, assets);
    }
  }

  /** A file where evidence is due, none elsewhere. */
  lemma EvidenceFor(t: Task, assets: Files.Assets, k: nat) returns (files: seq<Files.FileId>)
    requires Shaped(t) && k < |t.steps| && !Row(t, k, Finished) && Suppliable(t, assets)
    ensures Distinct(files) && (t.steps[k].evidenceRequired ==> files != [])
    ensures forall f :: f in files ==> Available(t, assets, f)
  {
    files := [];
    if t.steps[k].evidenceRequired {
      var f :| Available(t, assets, f);
      files := [f];
    }
  }

  predicate Finishing(t: Task, r: Request, k: nat, files: seq<Files.FileId>)
    requires Shaped(t) && k < |t.steps|
  {
    && r.Progress? && r == Request.Progress(LEARNER, t.steps[k].id, Finished, files, Some(Http.ETag(t.version)),
        r.assets)
    && Distinct(files) && (t.steps[k].evidenceRequired ==> files != [])
    && (forall f :: f in files ==> Available(t, r.assets, f))
    && !Row(t, k, Finished) && forall j :: 0 <= j < k ==> Row(t, j, Finished)
  }

  lemma SaveIt(t: Task, r: Request, k: nat, files: seq<Files.FileId>)
    requires Inv(t) && t.status == InProgress && k < |t.steps| && Headroom(t) && Finishing(t, r, k, files)
    requires Supported(t, r.assets) && Suppliable(t, r.assets)
    ensures var after := Step(t, r);
      && Inv(after) && after.status == InProgress && after.steps == t.steps && after.version == t.version + 1
      && Headroom(after)
      && Supported(after, r.assets) && Suppliable(after, r.assets) && forall j :: 0 <= j <= k ==>
          Row(after, j, Finished)
  {
    SavedIt(t, r, k, files);
    ExecuteInv(t, r);
    UnfinishedChange(t.steps, t.rows, k, Training.Progress(Finished, files));
    OneMoreFinished(t, Execute(t, r).value, r.assets, k, files);
  }

  lemma SavedIt(t: Task, r: Request, k: nat, files: seq<Files.FileId>)
    requires Shaped(t) && UniqueIds(t.steps) && t.rows.Keys == StepIds(t.steps) && t.status == InProgress
        && Http.Version(t.version)
    requires k < |t.steps| && Finishing(t, r, k, files)
    ensures Execute(t, r) ==
      Ok(t.(rows := t.rows[t.steps[k].id := Training.Progress(Finished, files)], version := t.version + 1))
  {
    SaveSucceedsIff(t, r.access, k, r.status, files, r.ifMatch, r.assets);
  }

  lemma OneMoreFinished(t: Task, after: Task, assets: Files.Assets, k: nat, files: seq<Files.FileId>)
    requires Shaped(t) && UniqueIds(t.steps) && k < |t.steps| && Supported(t, assets) && Suppliable(t, assets)
    requires (forall f :: f in files ==> Available(t, assets, f)) && forall j :: 0 <= j < k ==> Row(t, j, Finished)
    requires after == t.(rows := t.rows[t.steps[k].id := Training.Progress(Finished, files)], version := t.version + 1)
    ensures Shaped(after) && Supported(after, assets) && Suppliable(after, assets)
    ensures forall j :: 0 <= j <= k ==> Row(after, j, Finished)
  {
    assert forall f :: Available(after, assets, f) <==> Available(t, assets, f);
    forall j | 0 <= j < |t.steps|
      ensures after.rows[t.steps[j].id] == if j == k then Training.Progress(Finished, files) else t.rows[t.steps[j].id]
    {
    }
    forall j | 0 <= j < |t.steps| && j != k ensures Row(after, j, Finished) <==> Row(t, j, Finished) {
    }
    forall j, f | 0 <= j < |after.steps| && Row(after, j, Finished) && f in after.rows[after.steps[j].id].attachments
      ensures Available(after, assets, f)
    {
      if j != k { assert Row(t, j, Finished) && Available(t, assets, f); }
    }
  }

  lemma ResumeIt(t: Task, assets: Files.Assets) returns (r: Request)
    requires Inv(t) && t.status in {NotStarted, Paused, ChangesRequested} && Headroom(t)
    ensures Meets(r, true, assets) && Inv(Step(t, r))
        && Step(t, r) == t.(status := InProgress, version := t.version + 1)
    ensures Headroom(Step(t, r))
    ensures Supported(t, assets) ==> Supported(Step(t, r), assets)
    ensures Suppliable(t, assets) ==> Suppliable(Step(t, r), assets)
  {
    r := Action(LEARNER, if t.status == NotStarted then Start else Resume, "", Some(Http.ETag(t.version)));
    Resumed(t, r);
    ExecuteInv(t, r);
    SameRows(t, Step(t, r), assets);
  }

  lemma Resumed(t: Task, r: Request)
    requires Shaped(t) && t.status in {NotStarted, Paused, ChangesRequested} && Http.Version(t.version)
    requires r == Action(LEARNER, if t.status == NotStarted then Start else Resume, "", Some(Http.ETag(t.version)))
    ensures Execute(t, r) == Ok(t.(status := InProgress, version := t.version + 1))
  {
    ActSucceedsIff(t, r.access, r.command, r.reason, r.ifMatch);
  }

  lemma SameRows(t: Task, after: Task, assets: Files.Assets)
    requires Shaped(t) && Shaped(after) && after.steps == t.steps && after.rows == t.rows && after.id == t.id
        && after.caseId == t.caseId
    ensures Supported(t, assets) ==> Supported(after, assets)
    ensures Suppliable(t, assets) ==> Suppliable(after, assets)
  {
    assert forall f :: Available(after, assets, f) <==> Available(t, assets, f);
    forall k | 0 <= k < |t.steps| ensures Row(after, k, Finished) <==> Row(t, k, Finished) {
    }
  }

  /** What lets a task of an open case be completed, from every status that is not terminal. */
  ghost predicate Finishable(t: Task, assets: Files.Assets)
    requires Shaped(t)
  {
    Headroom(t) && (t.status == Submitted || (t.steps != [] && Supported(t, assets) && Suppliable(t, assets)))
  }

  lemma CanFinish(t: Task, assets: Files.Assets)
    requires Inv(t) && !Terminal(t.status) && Finishable(t, assets)
    ensures Completable(t, true, assets)
  {
    if t.status == Submitted {
      PassIt(t, assets);
    } else if t.status == InProgress {
      FinishIt(t, assets, 0);
    } else {
      var r := ResumeIt(t, assets);
      FinishIt(Step(t, r), assets, 0);
      Continue(t, r, true, assets);
    }
  }

  // ---- and one that cannot ----

  /** No submission can succeed, and none awaits review. */
  ghost predicate Blocked(t: Task, origin: Task, assets: Files.Assets) {
    && Inv(t) && t.status !in {Submitted, Completed}
    && t.id == origin.id && t.caseId == origin.caseId && t.steps == origin.steps
    && (t.steps == [] || !Suppliable(t, assets) || !Supported(t, assets))
  }

  /** Without any file for the task, a finished step that requires evidence rests on a lost one. */
  lemma BlockedSubmit(t: Task, origin: Task, r: Request, assets: Files.Assets)
    requires Blocked(t, origin, assets) && r.Submission? && r.assets == assets
    ensures Execute(t, r).Err?
  {
    SubmitSucceedsIff(t, r.access, r.note, r.ifMatch, r.assets);
    if !Suppliable(t, assets) {
      var k :| 0 <= k < |t.steps| && t.steps[k].evidenceRequired && !Row(t, k, Finished);
    }
  }

  /** All that a successful save does. */
  lemma SaveShape(t: Task, r: Request) returns (k: nat)
    requires Inv(t) && r.Progress? && Execute(t, r).Ok?
    ensures k < |t.steps| && t.steps[k].id == r.step && !Row(t, k, Finished) && t.status == InProgress
    ensures Execute(t, r).value ==
      t.(rows := t.rows[t.steps[k].id := Training.Progress(r.status, r.attachments)], version := t.version + 1)
    ensures r.status == Finished && t.steps[k].evidenceRequired ==> r.attachments != []
    ensures forall f :: f in r.attachments ==> Available(t, r.assets, f)
  {
    k := SavedStep(t, r);
    SaveSucceedsIff(t, r.access, k, r.status, r.attachments, r.ifMatch, r.assets);
  }

  lemma LostStays(t: Task, after: Task, k: nat, p: Training.Progress, assets: Files.Assets)
    requires Shaped(t) && UniqueIds(t.steps) && k < |t.steps| && !Row(t, k, Finished) && !Supported(t, assets)
    requires after == t.(rows := t.rows[t.steps[k].id := p], version := t.version + 1)
    ensures Shaped(after) && !Supported(after, assets)
  {
    var j: nat, f :| j < |t.steps| && Row(t, j, Finished) && f in t.rows[t.steps[j].id].attachments
        && !Available(t, assets, f);
    assert t.steps[j].id != t.steps[k].id;
    assert Row(after, j, Finished) && f in after.rows[after.steps[j].id].attachments && !Available(after, assets, f);
  }

  lemma WantStays(t: Task, after: Task, k: nat, p: Training.Progress, assets: Files.Assets)
    requires Shaped(t) && UniqueIds(t.steps) && k < |t.steps| && !Row(t, k, Finished) && !Suppliable(t, assets)
    requires after == t.(rows := t.rows[t.steps[k].id := p], version := t.version + 1)
    requires p.status == Finished && t.steps[k].evidenceRequired ==> p.attachments != []
    requires forall f :: f in p.attachments ==> Available(t, assets, f)
    ensures Shaped(after) && !Suppliable(after, assets)
  {
    assert p.attachments != [] ==> p.attachments[0] in p.attachments;
    var j: nat :| j < |t.steps| && t.steps[j].evidenceRequired && !Row(t, j, Finished);
    assert j != k ==> t.steps[j].id != t.steps[k].id;
    assert !Row(after, j, Finished);
    assert forall f :: Available(after, assets, f) <==> Available(t, assets, f);
  }

  lemma BlockedSave(t: Task, origin: Task, r: Request, assets: Files.Assets)
    requires Blocked(t, origin, assets) && r.Progress? && r.assets == assets && Execute(t, r).Ok?
    ensures Blocked(Execute(t, r).value, origin, assets)
  {
    var k := SaveShape(t, r);
    ExecuteInv(t, r);
    var p := Training.Progress(r.status, r.attachments);
    if t.steps != [] && !Supported(t, assets) {
      LostStays(t, Execute(t, r).value, k, p, assets);
    } else if t.steps != [] {
      WantStays(t, Execute(t, r).value, k, p, assets);
    }
  }

  lemma OtherStep(t: Task, r: Request)
    requires Shaped(t) && (r.Action? || r.Prompt?) && Routed(r) && Execute(t, r).Ok?
    ensures var after := Execute(t, r).value;
      && after == t.(status := after.status, version := after.version, prompt := after.prompt)
      && (after.status in {Submitted, Completed} ==> after.status == t.status)
  {
  }

  lemma BlockedStep(t: Task, origin: Task, r: Request, open: bool, assets: Files.Assets)
    requires Blocked(t, origin, assets) && Meets(r, open, assets)
    ensures Blocked(Step(t, r), origin, assets)
  {
    if Routed(r) && Execute(t, r).Ok? {
      ExecuteInv(t, r);
      match r {
        case Submission(_, _, _, _) => BlockedSubmit(t, origin, r, assets);
        case Feedback(_, _, _, _, _, _, _, _) => Reviewed(t, r);
        case Progress(_, _, _, _, _, _) => BlockedSave(t, origin, r, assets);
        case _ => BlockedOther(t, origin, r, assets);
      }
    }
  }

  lemma BlockedOther(t: Task, origin: Task, r: Request, assets: Files.Assets)
    requires Blocked(t, origin, assets) && (r.Action? || r.Prompt?) && Routed(r) && Execute(t, r).Ok?
    ensures Blocked(Execute(t, r).value, origin, assets)
  {
    var after := Execute(t, r).value;
    OtherStep(t, r);
    ExecuteInv(t, r);
    SameRows(after, t, assets);
  }

  lemma {:induction false} BlockedForEver(t: Task, rs: seq<Request>, open: bool, assets: Files.Assets)
    requires Blocked(t, t, assets) && Uses(rs, open, assets)
    ensures Blocked(Run(t, rs), t, assets)
  {
    if rs != [] {
      BlockedForEver(t, rs[..|rs| - 1], open, assets);
      BlockedStep(Run(t, rs[..|rs| - 1]), t, rs[|rs| - 1], open, assets);
    }
  }

  /** One successful request is one unit of progress at most. */
  lemma NeededStep(t: Task, r: Request)
    requires Inv(t) && Routed(r) && Execute(t, r).Ok?
    ensures Inv(Execute(t, r).value) && Needed(Execute(t, r).value) + 1 >= Needed(t)
    ensures Execute(t, r).value.version == t.version + 1 && !r.access.closed && Http.Version(t.version)
  {
    ExecuteInv(t, r);
    StepsKept(t, r);
    NotClosed(t, r);
    match r {
      case Submission(_, _, _, _) => NeededSubmit(t, r);
      case Feedback(_, _, _, _, _, _, _, _) => Reviewed(t, r);
      case Progress(_, _, _, _, _, _) => NeededSave(t, r);
      case _ => OtherStep(t, r);
    }
  }

  lemma NeededSubmit(t: Task, r: Request)
    requires Shaped(t) && r.Submission? && Execute(t, r).Ok?
    ensures Shaped(Execute(t, r).value) && Needed(Execute(t, r).value) + 1 == Needed(t)
  {
    var s := SubmitShape(t, r);
    PayloadRows(t);
    UnfinishedBound(t.steps, t.rows);
  }

  lemma NeededSave(t: Task, r: Request)
    requires Inv(t) && r.Progress? && Execute(t, r).Ok?
    ensures Shaped(Execute(t, r).value) && Needed(Execute(t, r).value) + 1 >= Needed(t)
  {
    var k := SaveShape(t, r);
    UnfinishedChange(t.steps, t.rows, k, Training.Progress(r.status, r.attachments));
  }

  lemma NotClosed(t: Task, r: Request)
    requires Shaped(t) && Execute(t, r).Ok?
    ensures !r.access.closed && Http.Version(t.version)
  {
    Http.RequireVersionExact(r.ifMatch, t.version);
  }

  lemma {:induction false} NeededRun(t: Task, rs: seq<Request>, open: bool, assets: Files.Assets)
    requires Inv(t) && Uses(rs, open, assets)
    ensures var after := Run(t, rs);
      && Inv(after) && after.version + Needed(after) >= t.version + Needed(t)
      && (after != t ==> open && 1 <= t.version && after.version <= Http.MAX_VERSION + 1)
  {
    if rs != [] {
      var before, r := Run(t, rs[..|rs| - 1]), rs[|rs| - 1];
      NeededRun(t, rs[..|rs| - 1], open, assets);
      if Routed(r) && Execute(before, r).Ok? {
        NeededStep(before, r);
        VersionGrows(t, rs[..|rs| - 1]);
        assert Meets(r, open, assets);
      }
    }
  }

  /** Exact condition: an open task can be completed if and only if its case is open, versions remain, and it awaits
      review or has steps
      whose finished ones keep their files and whose other ones can have the evidence they require. */
  lemma CompletableIff(t: Task, open: bool, assets: Files.Assets)
    requires Inv(t) && !Terminal(t.status)
    ensures Completable(t, open, assets) <==> open && Finishable(t, assets)
  {
    if open && Finishable(t, assets) {
      CanFinish(t, assets);
    } else {
      forall rs | Uses(rs, open, assets) ensures Run(t, rs).status != Completed {
        NeededRun(t, rs, open, assets);
        if open && Headroom(t) { BlockedForEver(t, rs, open, assets); }
      }
    }
  }

  // ---- whatever else is uploaded, a lost file blocks the task ----

  /** A finished step of an unsubmitted task rests on this file. */
  ghost predicate Rests(t: Task, k: nat, f: Files.FileId) {
    && Inv(t) && k < |t.steps| && t.status !in {Submitted, Completed}
    && Row(t, k, Finished) && f in t.rows[t.steps[k].id].attachments
  }

  ghost predicate Missing(t: Task, f: Files.FileId, r: Request) {
    r.Submission? ==> !Available(t, r.assets, f)
  }

  lemma LostStep(t: Task, k: nat, f: Files.FileId, r: Request)
    requires Rests(t, k, f) && Missing(t, f, r)
    ensures Rests(Step(t, r), k, f) && Step(t, r).id == t.id && Step(t, r).caseId == t.caseId
  {
    if Routed(r) && Execute(t, r).Ok? {
      ExecuteInv(t, r);
      match r {
        case Submission(_, _, _, _) => LostSubmit(t, k, f, r);
        case Feedback(_, _, _, _, _, _, _, _) => Reviewed(t, r);
        case Progress(_, _, _, _, _, _) => SaveElsewhere(t, r, k);
        case _ => OtherStep(t, r);
      }
    }
  }

  lemma LostSubmit(t: Task, k: nat, f: Files.FileId, r: Request)
    requires Shaped(t) && k < |t.steps| && f in t.rows[t.steps[k].id].attachments && r.Submission? && Missing(t, f, r)
    ensures Execute(t, r).Err?
  {
    SubmitSucceedsIff(t, r.access, r.note, r.ifMatch, r.assets);
  }

  lemma SaveElsewhere(t: Task, r: Request, k: nat)
    requires Shaped(t) && UniqueIds(t.steps) && r.Progress? && Execute(t, r).Ok? && k < |t.steps| && Row(t, k, Finished)
    ensures var after := Execute(t, r).value;
      && after == t.(rows := after.rows, version := after.version) && t.steps[k].id in after.rows
      && after.rows[t.steps[k].id] == t.rows[t.steps[k].id]
  {
    FirstOpenIs(t, k);
  }

  /** While no submission finds the file, the step stays finished and the task is neither submitted nor completed. */
  lemma {:induction false} LostForEver(t: Task, k: nat, f: Files.FileId, rs: seq<Request>)
    requires Rests(t, k, f) && forall i :: 0 <= i < |rs| ==> Missing(t, f, rs[i])
    ensures Rests(Run(t, rs), k, f) && Run(t, rs).id == t.id && Run(t, rs).caseId == t.caseId
  {
    if rs != [] {
      LostForEver(t, k, f, rs[..|rs| - 1]);
      LostStep(Run(t, rs[..|rs| - 1]), k, f, rs[|rs| - 1]);
    }
  }

  // ---- and the code lets the file be lost ----

  const Evidenced: Task := NewTask(0, 0, [RevisionStep(7, true)])

  const PHOTO: Files.Metadata := Files.Metadata("image/jpeg", None, None)

  function Photo(state: Files.FileState, version: nat): Files.Asset {
    Files.Asset(0, Some(0), 1, Files.TaskEvidence, 9, PHOTO, state, false, version)
  }

  /** Learner 1 uploads file 3 for the task, and its scan finds it clean. */
  const UPLOAD: FileProtocol.Event := FileProtocol.Upload(3, Photo(Files.Quarantined, 1))
  const READ: FileProtocol.Event := FileProtocol.ScanRead(0, 3)
  const SCANNED: FileProtocol.Event := FileProtocol.ScanCommit(0, Files.Clean(PHOTO))
  const UPLOADED: seq<FileProtocol.Event> := [UPLOAD, READ, SCANNED]

  const DELETED: FileProtocol.Event := FileProtocol.DeleteRequest(1, 3, LEARNER, Some(Http.ETag(2)))

  const Stored: FileProtocol.Sys := FileProtocol.Sys(
    Files.Store(map[3 := Photo(Files.Quarantined, 1)], {}, {9}, [], {Files.ScanJob(3)}), map[], map[])

  lemma UploadStores()
    ensures FileProtocol.Step(FileProtocol.Empty, UPLOAD) == Stored
  {
  }

  lemma ScanReads()
    ensures FileProtocol.Step(Stored, READ) == Stored.(scans := map[0 := FileProtocol.Reading(3, 1)])
  {
  }

  lemma ScanCommits(s: FileProtocol.Sys)
    requires s == Stored.(scans := map[0 := FileProtocol.Reading(3, 1)])
    ensures FileProtocol.Step(s, SCANNED).store == Files.Store(
      map[3 := Photo(Files.Ready, 2)], {}, {9}, [Files.Notice(1, Files.Ready, 3)], {Files.ScanJob(3)})
  {
  }

  lemma UploadedStore()
    ensures FileProtocol.Run(FileProtocol.Empty, UPLOADED).store == Files.Store(
      map[3 := Photo(Files.Ready, 2)], {}, {9}, [Files.Notice(1, Files.Ready, 3)], {Files.ScanJob(3)})
  {
    UploadStores();
    ScanReads();
    ScanCommits(FileProtocol.Step(Stored, READ));
    var s0 := FileProtocol.Empty;
    assert FileProtocol.Run(s0, [UPLOAD]) == Stored by {
      FileProtocol.RunNext(s0, [], UPLOAD);
      assert [] + [UPLOAD] == [UPLOAD];
    }
    FileProtocol.RunNext(s0, [UPLOAD], READ);
    FileProtocol.RunNext(s0, [UPLOAD, READ], SCANNED);
    assert [UPLOAD] + [READ] == [UPLOAD, READ] && [UPLOAD, READ] + [SCANNED] == UPLOADED;
  }

  lemma EvidencedRow()
    ensures Evidenced.rows == map[7 := Fresh] && Evidenced.steps[..0] == []
  {
    assert Evidenced.steps[0].id in StepIds(Evidenced.steps);
    assert StepIds(Evidenced.steps) == {7};
  }

  lemma EvidenceStarted(assets: Files.Assets) returns (start: Request)
    requires Available(Evidenced, assets, 3)
    ensures Meets(start, true, assets) && Inv(Step(Evidenced, start)) && Headroom(Step(Evidenced, start))
    ensures Step(Evidenced, start) == Evidenced.(status := InProgress, version := 2)
    ensures Supported(Step(Evidenced, start), assets) && Suppliable(Step(Evidenced, start), assets)
  {
    NewTaskInv(0, 0, Evidenced.steps);
    EvidencedRow();
    assert Unfinished(Evidenced.steps, Evidenced.rows) <= 1;
    start := ResumeIt(Evidenced, assets);
  }

  /** The one step of the task finished with file 3. */
  lemma EvidenceSaved(assets: Files.Assets) returns (rs: seq<Request>, t: Task)
    requires Available(Evidenced, assets, 3)
    ensures t == Run(Evidenced, rs) && Uses(rs, true, assets) && Inv(t) && t.status == InProgress
        && t.steps == Evidenced.steps
    ensures t.id == 0 && t.caseId == 0 && Headroom(t) && Supported(t, assets) && Suppliable(t, assets)
    ensures 7 in t.rows && Row(t, 0, Finished) && t.rows[7].attachments == [3]
  {
    var start := EvidenceStarted(assets);
    EvidencedRow();
    var save := OneStepSaved(Step(Evidenced, start), assets, 7, 3);
    t := Step(Step(Evidenced, start), save);
    rs := [start, save];
    TwoSteps(Evidenced, start, save);
  }

  /** Finishing the only step with one file. */
  lemma OneStepSaved(t: Task, assets: Files.Assets, step: StepId, f: Files.FileId) returns (save: Request)
    requires Inv(t) && t.status == InProgress && Headroom(t) && |t.steps| == 1 && t.steps[0].id == step
        && !Row(t, 0, Finished)
    requires Supported(t, assets) && Available(t, assets, f)
    ensures Meets(save, true, assets) && save.Progress?
    ensures var after := Step(t, save);
      && Inv(after) && after.status == InProgress && after.steps == t.steps && after.id == t.id
      && after.caseId == t.caseId
      && Headroom(after) && Supported(after, assets) && Suppliable(after, assets)
      && Row(after, 0, Finished) && step in after.rows && after.rows[step].attachments == [f]
  {
    save := Request.Progress(LEARNER, step, Finished, [f], Some(Http.ETag(t.version)), assets);
    SavedIt(t, save, 0, [f]);
    SaveIt(t, save, 0, [f]);
  }

  lemma TwoSteps(t: Task, r: Request, q: Request)
    ensures Run(t, [r, q]) == Step(Step(t, r), q)
  {
    RunCons(t, r, [q]);
    RunCons(Step(t, r), q, []);
    assert [r] + [q] == [r, q] && [q] + [] == [q];
  }

  lemma DeletedStore()
    ensures var before := FileProtocol.Run(FileProtocol.Empty, UPLOADED).store;
            var after := FileProtocol.Run(FileProtocol.Empty, UPLOADED + [DELETED]).store;
            3 in before.assets && after == Files.Deletion(before, 3)
  {
    UploadedStore();
    FileProtocol.RunNext(FileProtocol.Empty, UPLOADED, DELETED);
    Deletes(FileProtocol.Run(FileProtocol.Empty, UPLOADED), DELETED);
  }

  lemma Deletes(s: FileProtocol.Sys, e: FileProtocol.Event)
    requires e.DeleteRequest? && e.access == LEARNER && e.id in s.store.assets && s.store.links == {}
    requires s.store.assets[e.id].uploader == e.actor && s.store.assets[e.id].state == Files.Ready
    requires s.store.assets[e.id].version == 2 && e.ifMatch == Some(Http.ETag(2))
    ensures FileProtocol.Step(s, e).store == Files.Deletion(s.store, e.id)
  {
    Files.DeleteExact(s.store, e.actor, e.id, e.access, e.ifMatch);
  }

  /** A reachable task over reachable file stores: completable until its uploader deletes the file, which only a
      submission's link prevents. */
  lemma EvidenceCanBeLost() returns (rs: seq<Request>)
    ensures var before := FileProtocol.Run(FileProtocol.Empty, UPLOADED).store;
            var after := FileProtocol.Run(FileProtocol.Empty, UPLOADED + [DELETED]).store;
            var t := Run(Evidenced, rs);
      && Uses(rs, true, before.assets) && Inv(t) && !Terminal(t.status)
      && Completable(t, true, before.assets) && !Completable(t, true, after.assets)
      && 3 in before.assets && after == Files.Deletion(before, 3)
  {
    UploadedStore();
    DeletedStore();
    var before := FileProtocol.Run(FileProtocol.Empty, UPLOADED).store.assets;
    assert Available(Evidenced, before, 3);
    var t;
    rs, t := EvidenceSaved(before);
    CompletableIff(t, true, before);
    var after := FileProtocol.Run(FileProtocol.Empty, UPLOADED + [DELETED]).store.assets;
    NotSupported(t, after);
    CompletableIff(t, true, after);
  }

  lemma NotSupported(t: Task, assets: Files.Assets)
    requires Shaped(t) && t.steps == Evidenced.steps && 7 in t.rows && Row(t, 0, Finished)
        && t.rows[7].attachments == [3]
    requires 3 in assets && assets[3].state == Files.Deleted
    ensures !Supported(t, assets)
  {
    assert 3 in t.rows[t.steps[0].id].attachments && !Available(t, assets, 3);
  }
}
