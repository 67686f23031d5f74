/** What every sequence of commands keeps of a training task. */
module TrainingRuns {
  import opened Common
  import opened Training
  import Http
  import Files

  datatype Request =
    /** The action route admits start, pause, resume and cancel; the other transitions belong to submit and review. */
    | Action(access: Access, command: Command, reason: string, ifMatch: Option<string>)
    | Progress(access: Access, step: StepId, status: StepStatus, attachments: seq<Files.FileId>,
        ifMatch: Option<string>, assets: Files.Assets)
    | Submission(access: Access, note: string, ifMatch: Option<string>, assets: Files.Assets)
    | Feedback(access: Access, submission: nat, outcome: string, message: string, redo: seq<StepId>, annotated: bool,
        validated: bool, ifMatch: Option<string>)
    | Prompt(access: Access, level: nat, reason: string, ifMatch: Option<string>)

  predicate Routed(r: Request) {
    r.Action? ==> r.command in {Start, Pause, Resume, Cancel}
  }

  function Execute(t: Task, r: Request): Result<Task>
    requires Shaped(t)
  {
    match r
    case Action(a, c, reason, ifMatch) => Act(t, a, c, reason, ifMatch)
    case Progress(a, step, status, attachments, ifMatch, assets) =>
        SaveProgress(t, a, step, status, attachments, ifMatch, assets)
    case Submission(a, note, ifMatch, assets) => SubmitTask(t, a, note, ifMatch, assets)
    case Feedback(a, k, outcome, message, redo, annotated, validated, ifMatch) =>
      ReviewTask(t, a, k, outcome, message, redo, annotated, validated, ifMatch)
    case Prompt(a, level, reason, ifMatch) => SetPrompt(t, a, level, reason, ifMatch)
  }

  // ---- the aggregate invariant ----

  type Steps = seq<RevisionStep>
  type ProgressRows = map<StepId, Training.Progress>
  type Submissions = seq<Training.Submission>

  function Redo(s: Training.Submission): seq<StepId> {
    if s.feedback.Some? then s.feedback.value.redo else []
  }

  predicate Returned(s: Training.Submission) {
    s.feedback.Some? && s.feedback.value.outcome == "changes_requested"
  }

  function Last(submissions: Submissions): Training.Submission
    requires submissions != []
  {
    submissions[|submissions| - 1]
  }

  ghost predicate FeedbackOk(steps: Steps, f: Training.Feedback) {
    && f.outcome in {"passed", "changes_requested"}
    && Distinct(f.redo) && Elements(f.redo) <= StepIds(steps)
    && (f.outcome == "changes_requested" <==> f.redo != [])
  }

  ghost predicate SubmissionOk(steps: Steps, s: Training.Submission, i: int) {
    && s.attempt == i + 1
    && |s.snapshot| == |steps|
    && (forall k :: 0 <= k < |steps| ==> s.snapshot[k].step == steps[k].id && s.snapshot[k].progress.status == Finished)
    && (s.feedback.Some? ==> FeedbackOk(steps, s.feedback.value))
  }

  /** Attempts are 1..n, every snapshot is complete, and every submission but the latest was returned. */
  ghost predicate History(steps: Steps, submissions: Submissions) {
    && (forall i :: 0 <= i < |submissions| ==> SubmissionOk(steps, submissions[i], i))
    && (forall i :: 0 <= i < |submissions| - 1 ==> Returned(submissions[i]))
  }

  ghost predicate AgreeOutside(steps: Steps, a: seq<Entry>, b: seq<Entry>, redo: seq<StepId>) {
    |a| == |b| == |steps| && forall k :: 0 <= k < |steps| && steps[k].id !in redo ==> a[k] == b[k]
  }

  /** Consecutive snapshots agree at every step the feedback between them does not name. */
  ghost predicate Selective(steps: Steps, submissions: Submissions) {
    forall i :: 0 <= i < |submissions| - 1 ==>
      AgreeOutside(steps, submissions[i].snapshot, submissions[i + 1].snapshot, Redo(submissions[i]))
  }

  /** Outside the latest redo list, every progress row is still what was last submitted. */
  ghost predicate Kept(steps: Steps, rows: ProgressRows, submissions: Submissions)
    requires HasRows(steps, rows)
  {
    submissions != [] ==> AgreeOutside(steps, Last(submissions).snapshot, Entries(steps, rows), Redo(Last(submissions)))
  }

  ghost predicate UniqueIds(steps: Steps) {
    forall i, j :: 0 <= i < j < |steps| ==> steps[i].id != steps[j].id
  }

  /** At most one step is begun, every step before it is finished, and finished steps carry their evidence. */
  ghost predicate RowsOk(steps: Steps, rows: ProgressRows) {
    && UniqueIds(steps) && rows.Keys == StepIds(steps) && HasRows(steps, rows)
    && (forall j, k :: 0 <= j < k < |steps| && rows[steps[k].id].status == Begun ==>
        rows[steps[j].id].status == Finished)
    && (forall k :: 0 <= k < |steps| && rows[steps[k].id].status == Finished && steps[k].evidenceRequired ==>
          rows[steps[k].id].attachments != [])
  }

  ghost predicate AllFresh(steps: Steps, rows: ProgressRows, redo: seq<StepId>)
    requires HasRows(steps, rows)
  {
    forall k :: 0 <= k < |steps| && steps[k].id in redo ==> rows[steps[k].id] == Fresh
  }

  ghost predicate Coupled(status: TaskStatus, steps: Steps, rows: ProgressRows, submissions: Submissions)
    requires HasRows(steps, rows)
  {
    match status
    case NotStarted => submissions == [] && forall k :: 0 <= k < |steps| ==> rows[steps[k].id] == Fresh
    case Submitted => submissions != [] && Last(submissions).feedback.None?
    case ChangesRequested =>
        submissions != [] && Returned(Last(submissions)) && AllFresh(steps, rows, Redo(Last(submissions)))
    case Completed => submissions != [] && Last(submissions).feedback.Some?
        && Last(submissions).feedback.value.outcome == "passed"
    case Cancelled => true
    case _ => submissions == [] || Returned(Last(submissions))
  }

  ghost predicate Inv(t: Task) {
    && RowsOk(t.steps, t.rows) && History(t.steps, t.submissions) && Selective(t.steps, t.submissions)
    && Kept(t.steps, t.rows, t.submissions) && Coupled(t.status, t.steps, t.rows, t.submissions)
  }

  lemma NewTaskInv(id: nat, caseId: nat, steps: Steps)
    requires UniqueIds(steps)
    ensures Inv(NewTask(id, caseId, steps))
  {
  }

  lemma ActInv(t: Task, r: Request)
    requires Inv(t) && r.Action? && Routed(r) && Execute(t, r).Ok?
    ensures Inv(Execute(t, r).value)
  {
  }

  lemma EvidenceAt(steps: Steps, k: nat)
    requires k < |steps| && UniqueIds(steps)
    ensures Evidence(steps, steps[k].id) <==> steps[k].evidenceRequired
  {
  }

  /** A save touches only the first open step; after a return, that step is one the feedback named. */
  lemma SavedStep(t: Task, r: Request) returns (k: nat)
    requires Inv(t) && r.Progress? && Execute(t, r).Ok?
    ensures k < |t.steps| && t.steps[k].id == r.step && IsFirstOpen(Payload(t), k)
    ensures t.submissions != [] ==> r.step in Redo(Last(t.submissions))
  {
    k :| IsFirstOpen(Payload(t), k) && Payload(t)[k].step == r.step;
  }

  lemma SaveRows(steps: Steps, rows: ProgressRows, k: nat, p: Training.Progress)
    requires RowsOk(steps, rows) && IsFirstOpen(Entries(steps, rows), k)
    requires p.status == Finished && steps[k].evidenceRequired ==> p.attachments != []
    ensures RowsOk(steps, rows[steps[k].id := p])
    ensures forall j :: 0 <= j < |steps| && j != k ==>
        Entries(steps, rows[steps[k].id := p])[j] == Entries(steps, rows)[j]
  {
    var after := rows[steps[k].id := p];
    assert steps[k].id in StepIds(steps);
    forall i, j | 0 <= i < j < |steps| && after[steps[j].id].status == Begun
        ensures after[steps[i].id].status == Finished {
      assert Entries(steps, rows)[i].progress == rows[steps[i].id]
          && Entries(steps, rows)[j].progress == rows[steps[j].id];
      assert Entries(steps, rows)[k].progress == rows[steps[k].id];
    }
  }

  lemma SaveInv(t: Task, r: Request)
    requires Inv(t) && r.Progress? && Execute(t, r).Ok?
    ensures Inv(Execute(t, r).value)
  {
    var k := SavedStep(t, r);
    EvidenceAt(t.steps, k);
    SaveRows(t.steps, t.rows, k, Training.Progress(r.status, r.attachments));
  }

  lemma {:induction false} MaxAttemptIs(submissions: Submissions)
    requires forall i :: 0 <= i < |submissions| ==> submissions[i].attempt == i + 1
    ensures MaxAttempt(submissions) == |submissions|
  {
    if submissions != [] {
      MaxAttemptIs(submissions[..|submissions| - 1]);
    }
  }

  lemma HistoryGrows(steps: Steps, submissions: Submissions, s: Training.Submission)
    requires History(steps, submissions) && Selective(steps, submissions) && SubmissionOk(steps, s, |submissions|)
    requires submissions != [] ==>
      Returned(Last(submissions))
          && AgreeOutside(steps, Last(submissions).snapshot, s.snapshot, Redo(Last(submissions)))
    ensures History(steps, submissions + [s]) && Selective(steps, submissions + [s])
  {
    var after := submissions + [s];
    forall i | 0 <= i < |after| ensures SubmissionOk(steps, after[i], i) {
      assert i < |submissions| ==> after[i] == submissions[i];
    }
    forall i | 0 <= i < |after| - 1
        ensures Returned(after[i]) && AgreeOutside(steps, after[i].snapshot, after[i + 1].snapshot, Redo(after[i])) {
      assert after[i] == submissions[i];
      if i < |submissions| - 1 {
        assert after[i + 1] == submissions[i + 1];
      }
    }
  }

  lemma SubmitShape(t: Task, r: Request) returns (s: Training.Submission)
    requires Shaped(t) && r.Submission? && Execute(t, r).Ok?
    ensures s == Training.Submission(MaxAttempt(t.submissions) + 1, r.note, Payload(t), None)
    ensures Execute(t, r).value == t.(status := Submitted, version := t.version + 1, submissions := t.submissions + [s])
    ensures t.status == InProgress && t.steps != [] && AllFinished(Payload(t))
  {
    s := Training.Submission(MaxAttempt(t.submissions) + 1, r.note, Payload(t), None);
  }

  lemma SubmitInv(t: Task, r: Request)
    requires Inv(t) && r.Submission? && Execute(t, r).Ok?
    ensures Inv(Execute(t, r).value)
  {
    var s := SubmitShape(t, r);
    forall i | 0 <= i < |t.submissions| ensures t.submissions[i].attempt == i + 1 {
      assert SubmissionOk(t.steps, t.submissions[i], i);
    }
    MaxAttemptIs(t.submissions);
    HistoryGrows(t.steps, t.submissions, s);
  }

  lemma {:induction false} ResetAt(rows: ProgressRows, redo: seq<StepId>)
    ensures ResetAll(rows, redo).Keys == rows.Keys + Elements(redo)
    ensures forall i :: i in ResetAll(rows, redo) ==>
              ResetAll(rows, redo)[i] == if i in redo then Fresh else if i in rows then rows[i] else Fresh
  {
    if redo != [] {
      var init, last := redo[..|redo| - 1], redo[|redo| - 1];
      ResetAt(rows, init);
      assert redo == init + [last];
    }
  }

  lemma ResetRows(steps: Steps, rows: ProgressRows, redo: seq<StepId>)
    requires RowsOk(steps, rows) && AllFinished(Entries(steps, rows)) && Elements(redo) <= StepIds(steps)
    ensures RowsOk(steps, ResetAll(rows, redo)) && AllFresh(steps, ResetAll(rows, redo), redo)
    ensures AgreeOutside(steps, Entries(steps, rows), Entries(steps, ResetAll(rows, redo)), redo)
  {
    ResetAt(rows, redo);
    forall k | 0 <= k < |steps| ensures rows[steps[k].id].status == Finished {
      assert Entries(steps, rows)[k].progress == rows[steps[k].id];
    }
  }

  /** While a submission awaits review the rows are exactly its snapshot. */
  lemma SubmittedRows(t: Task)
    requires Inv(t) && t.status == Submitted
    ensures Payload(t) == Last(t.submissions).snapshot && AllFinished(Payload(t))
  {
    assert SubmissionOk(t.steps, Last(t.submissions), |t.submissions| - 1);
  }

  lemma HistoryReviewed(steps: Steps, submissions: Submissions, f: Training.Feedback) returns (after: Submissions)
    requires submissions != [] && Last(submissions).feedback.None?
    requires History(steps, submissions) && Selective(steps, submissions) && FeedbackOk(steps, f)
    ensures after == submissions[|submissions| - 1 := Last(submissions).(feedback := Some(f))]
    ensures History(steps, after) && Selective(steps, after)
  {
    after := submissions[|submissions| - 1 := Last(submissions).(feedback := Some(f))];
    forall i | 0 <= i < |after| ensures SubmissionOk(steps, after[i], i) {
      assert SubmissionOk(steps, submissions[i], i);
    }
    forall i | 0 <= i < |after| - 1
        ensures Returned(after[i]) && AgreeOutside(steps, after[i].snapshot, after[i + 1].snapshot, Redo(after[i])) {
      assert after[i] == submissions[i] && after[i + 1].snapshot == submissions[i + 1].snapshot;
    }
  }

  lemma LatestIs(steps: Steps, submissions: Submissions, i: nat)
    requires History(steps, submissions) && i < |submissions|
    ensures submissions[i].attempt == MaxAttempt(submissions) <==> i == |submissions| - 1
  {
    forall j | 0 <= j < |submissions| ensures submissions[j].attempt == j + 1 {
      assert SubmissionOk(steps, submissions[j], j);
    }
    MaxAttemptIs(submissions);
  }

  lemma SnapshotNames(t: Task, i: nat)
    requires Inv(t) && i < |t.submissions|
    ensures SnapshotSteps(t.submissions[i].snapshot) == StepIds(t.steps)
  {
    assert SubmissionOk(t.steps, t.submissions[i], i);
    assert forall k :: 0 <= k < |t.steps| ==> t.submissions[i].snapshot[k].step == t.steps[k].id;
  }

  /** A review reaches the latest submission of a task that awaits one, and names only the task's steps. */
  lemma Reviewed(t: Task, r: Request)
    requires Inv(t) && r.Feedback? && Execute(t, r).Ok?
    ensures t.status == Submitted && r.submission == |t.submissions| - 1
    ensures FeedbackOk(t.steps, Training.Feedback(r.outcome, r.message, r.redo))
  {
    LatestIs(t.steps, t.submissions, r.submission);
    SnapshotNames(t, r.submission);
  }

  lemma ReviewInv(t: Task, r: Request)
    requires Inv(t) && r.Feedback? && Execute(t, r).Ok?
    ensures Inv(Execute(t, r).value)
  {
    Reviewed(t, r);
    SubmittedRows(t);
    var after := HistoryReviewed(t.steps, t.submissions, Training.Feedback(r.outcome, r.message, r.redo));
    ResetRows(t.steps, t.rows, r.redo);
    assert Execute(t, r).value.submissions == after;
  }

  lemma PromptInv(t: Task, r: Request)
    requires Inv(t) && r.Prompt? && Execute(t, r).Ok?
    ensures Inv(Execute(t, r).value)
  {
  }

  lemma StepsKept(t: Task, r: Request)
    requires Shaped(t) && Execute(t, r).Ok?
    ensures Execute(t, r).value.steps == t.steps && Execute(t, r).value.version == t.version + 1
  {
  }

  lemma ExecuteInv(t: Task, r: Request)
    requires Inv(t) && Routed(r) && Execute(t, r).Ok?
    ensures Inv(Execute(t, r).value) && Execute(t, r).value.steps == t.steps
  {
    StepsKept(t, r);
    match r
    case Action(_, _, _, _) => ActInv(t, r);
    case Progress(_, _, _, _, _, _) => SaveInv(t, r);
    case Submission(_, _, _, _) => SubmitInv(t, r);
    case Feedback(_, _, _, _, _, _, _, _) => ReviewInv(t, r);
    case Prompt(_, _, _, _) => PromptInv(t, r);
  }

  // ---- runs ----

  function Step(t: Task, r: Request): Task {
    if Shaped(t) && Routed(r) && Execute(t, r).Ok? then Execute(t, r).value else t
  }

  function Run(t: Task, rs: seq<Request>): Task {
    if rs == [] then t else Step(Run(t, rs[..|rs| - 1]), rs[|rs| - 1])
  }

  lemma {:induction false} RunInv(t: Task, rs: seq<Request>)
    requires Inv(t)
    ensures Inv(Run(t, rs)) && Run(t, rs).steps == t.steps
  {
    if rs != [] {
      RunInv(t, rs[..|rs| - 1]);
      var before, r := Run(t, rs[..|rs| - 1]), rs[|rs| - 1];
      if Routed(r) && Execute(before, r).Ok? {
        ExecuteInv(before, r);
      }
    }
  }

  /** What the rows of any reachable task say, status by status. */
  ghost predicate Aggregate(t: Task)
    requires Shaped(t)
  {
    var n, rows := |t.submissions|, Payload(t);
    && (forall i :: 0 <= i < n ==> t.submissions[i].attempt == i + 1)
    && (forall i :: 0 <= i < n - 1 ==> Returned(t.submissions[i]))
    && (t.status == Submitted ==>
          n > 0 && t.submissions[n - 1].feedback.None? && AllFinished(rows) && t.submissions[n - 1].snapshot == rows)
    && (t.status == ChangesRequested ==>
          && n > 0 && Returned(t.submissions[n - 1])
          && forall k :: 0 <= k < |t.steps| ==>
              (rows[k].progress.status != Finished <==> t.steps[k].id in Redo(t.submissions[n - 1])))
    && (t.status == Completed ==>
          n > 0 && t.submissions[n - 1].feedback.Some? && t.submissions[n - 1].feedback.value.outcome == "passed")
    && (forall k :: 0 <= k < |t.steps| && rows[k].progress.status == Begun ==> IsFirstOpen(rows, k))
    && (forall k :: 0 <= k < |t.steps| && rows[k].progress.status == Finished && t.steps[k].evidenceRequired ==>
          rows[k].progress.attachments != [])
  }

  lemma InvAggregate(t: Task)
    requires Inv(t)
    ensures Aggregate(t)
  {
    var n, rows := |t.submissions|, Payload(t);
    forall i | 0 <= i < n ensures t.submissions[i].attempt == i + 1 {
      assert SubmissionOk(t.steps, t.submissions[i], i);
    }
    forall k | 0 <= k < |t.steps| ensures rows[k].progress == t.rows[t.steps[k].id] {
    }
    if t.status == Submitted {
      SubmittedRows(t);
    }
    if t.status == ChangesRequested {
      assert SubmissionOk(t.steps, Last(t.submissions), n - 1);
    }
  }

  /** Every reachable task keeps the whole aggregate. */
  lemma ReachableAggregate(id: nat, caseId: nat, steps: Steps, rs: seq<Request>)
    requires UniqueIds(steps)
    ensures var t := Run(NewTask(id, caseId, steps), rs); Shaped(t) && t.steps == steps && Aggregate(t)
  {
    NewTaskInv(id, caseId, steps);
    RunInv(NewTask(id, caseId, steps), rs);
    InvAggregate(Run(NewTask(id, caseId, steps), rs));
  }

  /** At step k, the next attempt or else the task itself differs from attempt i only if the feedback on i names it. */
  ghost predicate Reworked(t: Task, i: nat, k: nat)
    requires k < |t.steps| && i < |t.submissions|
  {
    var s := t.submissions[i];
    && k < |s.snapshot| && s.snapshot[k].step == t.steps[k].id && Shaped(t)
    && if i + 1 == |t.submissions| then Payload(t)[k] != s.snapshot[k] ==> t.steps[k].id in Redo(s)
       else
         var next := t.submissions[i + 1].snapshot;
         k < |next| && (next[k] != s.snapshot[k] ==> t.steps[k].id in Redo(s))
  }

  /** Two consecutive attempts differ at most at the steps the feedback between them named; the rest of the task is
      what was last submitted. */
  lemma ReworkIsExact(id: nat, caseId: nat, steps: Steps, rs: seq<Request>, i: nat, k: nat)
    requires UniqueIds(steps) && k < |steps|
    requires var n := |Run(NewTask(id, caseId, steps), rs).submissions|; i < n
    ensures var t := Run(NewTask(id, caseId, steps), rs); t.steps == steps && Reworked(t, i, k)
  {
    NewTaskInv(id, caseId, steps);
    RunInv(NewTask(id, caseId, steps), rs);
    ReworkAt(Run(NewTask(id, caseId, steps), rs), i, k);
  }

  lemma ReworkAt(t: Task, i: nat, k: nat)
    requires Inv(t) && k < |t.steps| && i < |t.submissions|
    ensures Reworked(t, i, k)
  {
    assert SubmissionOk(t.steps, t.submissions[i], i);
    if i + 1 < |t.submissions| {
      assert AgreeOutside(t.steps, t.submissions[i].snapshot, t.submissions[i + 1].snapshot, Redo(t.submissions[i]));
    }
  }

  lemma HistoryStep(t: Task, r: Request, i: nat)
    requires i < |t.submissions|
    ensures i < |Step(t, r).submissions| && var s, s' := t.submissions[i], Step(t, r).submissions[i];
      s' == s || (s.feedback.None? && s' == s.(feedback := s'.feedback))
  {
  }

  /** Only a submission adds to the history; the snapshots already there stay. */
  lemma SnapshotsKept(t: Task, r: Request)
    requires Succeeds(t, r) && !r.Submission?
    ensures |Execute(t, r).value.submissions| == |t.submissions|
    ensures forall i :: 0 <= i < |t.submissions| ==>
        Execute(t, r).value.submissions[i].snapshot == t.submissions[i].snapshot
  {
  }

  lemma TaskKept(t: Task, r: Request)
    requires Succeeds(t, r)
    ensures Execute(t, r).value.id == t.id && Execute(t, r).value.caseId == t.caseId
        && Execute(t, r).value.steps == t.steps
  {
  }

  /** Snapshots are immutable, and so is a submission's feedback once given. */
  lemma {:induction false} HistoryIsImmutable(t: Task, rs: seq<Request>, i: nat)
    requires Inv(t) && i < |t.submissions|
    ensures i < |Run(t, rs).submissions| && var s, s' := t.submissions[i], Run(t, rs).submissions[i];
      s' == s || (s.feedback.None? && s' == s.(feedback := s'.feedback))
  {
    if rs != [] {
      HistoryIsImmutable(t, rs[..|rs| - 1], i);
      RunInv(t, rs[..|rs| - 1]);
      HistoryStep(Run(t, rs[..|rs| - 1]), rs[|rs| - 1], i);
    }
  }

  lemma TerminalStep(t: Task, r: Request)
    requires Inv(t) && Terminal(t.status)
    ensures Step(t, r) == t
  {
    if Routed(r) && r.Feedback? && Execute(t, r).Ok? {
      Reviewed(t, r);
    }
  }

  lemma {:induction false} TerminalForEver(t: Task, rs: seq<Request>)
    requires Inv(t) && Terminal(t.status)
    ensures Run(t, rs) == t
  {
    if rs != [] {
      TerminalForEver(t, rs[..|rs| - 1]);
      TerminalStep(t, rs[|rs| - 1]);
    }
  }

  predicate Succeeds(t: Task, r: Request) { Shaped(t) && Routed(r) && Execute(t, r).Ok? }

  lemma {:induction false} VersionGrows(t: Task, rs: seq<Request>)
    ensures Run(t, rs).version >= t.version
  {
    if rs != [] {
      VersionGrows(t, rs[..|rs| - 1]);
      var before, r := Run(t, rs[..|rs| - 1]), rs[|rs| - 1];
      if Succeeds(before, r) {
        StepsKept(before, r);
      }
    }
  }

  lemma SuccessNeedsVersion(t: Task, r: Request)
    requires Succeeds(t, r)
    ensures r.ifMatch == Some(Http.ETag(t.version))
  {
    Http.RequireVersionExact(r.ifMatch, t.version);
  }

  /** Of all the requests that carry one If-Match header at most one ever succeeds: no update is lost. */
  lemma OneWinnerPerVersion(t: Task, first: Request, rs: seq<Request>, second: Request)
    requires Succeeds(t, first) && Succeeds(Run(Step(t, first), rs), second)
    ensures first.ifMatch != second.ifMatch
  {
    var later := Run(Step(t, first), rs);
    StepsKept(t, first);
    VersionGrows(Step(t, first), rs);
    SuccessNeedsVersion(t, first);
    SuccessNeedsVersion(later, second);
    if first.ifMatch == second.ifMatch {
      Http.ETagInjective(t.version, later.version);
    }
  }

  /** A submission succeeds only with every attachment of its snapshot ready for this task, and those are the files
      it links. */
  lemma SubmissionFilesReady(t: Task, r: Request, k: nat, f: Files.FileId)
    requires Inv(t) && r.Submission? && Execute(t, r).Ok? && k < |t.steps|
    requires f in Last(Execute(t, r).value.submissions).snapshot[k].progress.attachments
    ensures f in Dedupe(Attached(Payload(t)))
    ensures f in r.assets && r.assets[f].state == Files.Ready
        && Files.Fits(r.assets[f], t.caseId, Files.TaskEvidence, Some(t.id))
  {
    AttachedAt(Payload(t), k, f);
    var ids := Dedupe(Attached(Payload(t)));
    var i :| 0 <= i < |ids| && ids[i] == f;
  }

  lemma {:induction false} AttachedAt(entries: seq<Entry>, k: nat, f: Files.FileId)
    requires k < |entries| && f in entries[k].progress.attachments
    ensures f in Attached(entries)
  {
    if k > 0 {
      AttachedAt(entries[1..], k - 1, f);
    }
  }
}
