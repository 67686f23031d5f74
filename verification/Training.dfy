/** The training task aggregate: status, per-step progress, submissions and feedback (modules/training). */
module Training {
  import opened Common
  import Http
  import Files

  type StepId = nat

  datatype TaskStatus = NotStarted | InProgress | Paused | Submitted | ChangesRequested | Completed | Cancelled

  datatype Command = Start | Pause | Resume | Submit | RequestChanges | PassTask | Cancel

  datatype StepStatus = Untouched | Begun | Finished

  datatype Progress = Progress(status: StepStatus, attachments: seq<Files.FileId>)

  datatype RevisionStep = RevisionStep(id: StepId, evidenceRequired: bool)

  datatype Entry = Entry(step: StepId, progress: Progress)

  datatype Feedback = Feedback(outcome: string, message: string, redo: seq<StepId>)

  datatype Submission = Submission(attempt: nat, note: string, snapshot: seq<Entry>, feedback: Option<Feedback>)

  /** One task row with its progress rows and submissions; `steps` is the published revision, in order. */
  datatype Task = Task(
    id: nat, caseId: nat, steps: seq<RevisionStep>, status: TaskStatus, version: nat, prompt: Option<(nat, string)>,
    rows: map<StepId, Progress>, submissions: seq<Submission>)

  const Fresh: Progress := Progress(Untouched, [])

  // ---- public.py and rules.py ----

  predicate Terminal(s: TaskStatus) { s == Completed || s == Cancelled }

  function Target(s: TaskStatus, c: Command): Option<TaskStatus> {
    match (s, c)
    case (NotStarted, Start) => Some(InProgress)
    case (InProgress, Pause) => Some(Paused)
    case (Paused, Resume) => Some(InProgress)
    case (InProgress, Submit) => Some(Submitted)
    case (Submitted, RequestChanges) => Some(ChangesRequested)
    case (ChangesRequested, Resume) => Some(InProgress)
    case (Submitted, PassTask) => Some(Completed)
    case (_, Cancel) => if Terminal(s) then None else Some(Cancelled)
    case _ => None
  }

  function Transition(a: Access, s: TaskStatus, c: Command, reason: string): Result<TaskStatus> {
    var role := if c in {PassTask, RequestChanges, Cancel} then a.RequireCounselor() else a.RequireLearner();
    if role.Fail? then Err(role.error)
    else if c == Cancel && Blank(reason) then Err(AppError(422, "REASON_REQUIRED"))
    else if Target(s, c).None? then Err(StateConflict())
    else Ok(Target(s, c).value)
  }

  function ValidateFeedback(outcome: string, message: string, redo: seq<StepId>, steps: set<StepId>): Check {
    if outcome !in {"passed", "changes_requested"} || Blank(message) || |message| > 500
    then Fail(AppError(422, "INVALID_FEEDBACK"))
    else if !Distinct(redo) || !(Elements(redo) <= steps) then Fail(AppError(422, "INVALID_REDO_STEPS"))
    else if (outcome == "changes_requested") != (redo != []) then Fail(AppError(422, "INVALID_REDO_STEPS"))
    else Pass
  }

  // ---- service.py ----

  function StepIds(steps: seq<RevisionStep>): set<StepId> {
    set k | 0 <= k < |steps| :: steps[k].id
  }

  predicate HasRows(steps: seq<RevisionStep>, rows: map<StepId, Progress>) {
    forall k :: 0 <= k < |steps| ==> steps[k].id in rows
  }

  predicate Shaped(t: Task) { HasRows(t.steps, t.rows) }

  function NewTask(id: nat, caseId: nat, steps: seq<RevisionStep>): Task {
    Task(id, caseId, steps, NotStarted, 1, None, map i | i in StepIds(steps) :: Fresh, [])
  }

  function Entries(steps: seq<RevisionStep>, rows: map<StepId, Progress>): (entries: seq<Entry>)
    requires HasRows(steps, rows)
  {
    seq(|steps|, k requires 0 <= k < |steps| => Entry(steps[k].id, rows[steps[k].id]))
  }

  /** The progress rows in the revision's order. */
  function Payload(t: Task): seq<Entry>
    requires Shaped(t)
  {
    Entries(t.steps, t.rows)
  }

  function FirstOpen(entries: seq<Entry>): (r: Option<StepId>)
    ensures r.Some? ==> exists k :: IsFirstOpen(entries, k) && entries[k].step == r.value
    ensures r.None? ==> forall k :: 0 <= k < |entries| ==> entries[k].progress.status == Finished
  {
    if entries == [] then None
    else if entries[0].progress.status != Finished then
      assert IsFirstOpen(entries, 0);
      Some(entries[0].step)
    else
      var r := FirstOpen(entries[1..]);
      assert r.Some? ==> forall k :: IsFirstOpen(entries[1..], k) ==> IsFirstOpen(entries, k + 1);
      r
  }

  predicate IsFirstOpen(entries: seq<Entry>, k: int) {
    && 0 <= k < |entries| && entries[k].progress.status != Finished
    && forall j :: 0 <= j < k ==> entries[j].progress.status == Finished
  }

  function Act(t: Task, a: Access, c: Command, reason: string, ifMatch: Option<string>): Result<Task> {
    var lock, version := a.Locked(), Http.RequireVersion(ifMatch, t.version);
    if lock.Fail? then Err(lock.error)
    else if version.Fail? then Err(version.error)
    else
      var status := Transition(a, t.status, c, reason);
      if status.Err? then Err(status.error) else Ok(t.(status := status.value, version := t.version + 1))
  }

  predicate Evidence(steps: seq<RevisionStep>, id: StepId) {
    exists k :: 0 <= k < |steps| && steps[k].id == id && steps[k].evidenceRequired
  }

  function SaveProgress(t: Task, a: Access, step: StepId, status: StepStatus, attachments: seq<Files.FileId>,
                        ifMatch: Option<string>, assets: Files.Assets): Result<Task>
    requires Shaped(t)
  {
    var lock, role, version := a.Locked(), a.RequireLearner(), Http.RequireVersion(ifMatch, t.version);
    if lock.Fail? then Err(lock.error)
    else if role.Fail? then Err(role.error)
    else if version.Fail? then Err(version.error)
    else if t.status != InProgress then Err(Conflict("TASK_NOT_RUNNING"))
    else if step !in t.rows then Err(NotFound())
    else if FirstOpen(Payload(t)) != Some(step) then Err(Conflict("STEP_ORDER"))
    else
      var files := Files.RequireFiles(assets, attachments, t.caseId, Files.TaskEvidence, Some(t.id));
      if files.Fail? then Err(files.error)
      else if status == Finished && Evidence(t.steps, step) && attachments == [] then Err(Conflict("EVIDENCE_REQUIRED"))
      else Ok(t.(rows := t.rows[step := Progress(status, attachments)], version := t.version + 1))
  }

  function MaxAttempt(submissions: seq<Submission>): nat {
    if submissions == [] then 0
    else
      var before, last := MaxAttempt(submissions[..|submissions| - 1]), submissions[|submissions| - 1].attempt;
      if before < last then last else before
  }

  function Attached(entries: seq<Entry>): seq<Files.FileId> {
    if entries == [] then [] else entries[0].progress.attachments + Attached(entries[1..])
  }

  predicate AllFinished(entries: seq<Entry>) {
    forall k :: 0 <= k < |entries| ==> entries[k].progress.status == Finished
  }

  function SubmitTask(t: Task, a: Access, note: string, ifMatch: Option<string>, assets: Files.Assets): Result<Task>
    requires Shaped(t)
  {
    var lock, version, progress := a.Locked(), Http.RequireVersion(ifMatch, t.version), Payload(t);
    if lock.Fail? then Err(lock.error)
    else if version.Fail? then Err(version.error)
    else if progress == [] || !AllFinished(progress) then Err(Conflict("INCOMPLETE_STEPS"))
    else
      var status := Transition(a, t.status, Submit, "");
      if status.Err? then Err(status.error)
      else
        var files := Files.RequireFiles(assets, Dedupe(Attached(progress)), t.caseId, Files.TaskEvidence, Some(t.id));
        if files.Fail? then Err(files.error)
        else Ok(t.(status := status.value, version := t.version + 1,
                   submissions := t.submissions + [Submission(MaxAttempt(t.submissions) + 1, note, progress, None)]))
  }

  function ResetAll(rows: map<StepId, Progress>, redo: seq<StepId>): map<StepId, Progress> {
    if redo == [] then rows else ResetAll(rows, redo[..|redo| - 1])[redo[|redo| - 1] := Fresh]
  }

  function SnapshotSteps(entries: seq<Entry>): set<StepId> {
    set k | 0 <= k < |entries| :: entries[k].step
  }

  /** `submission` names a stored submission by its place in the task's history. */
  function ReviewTask(t: Task, a: Access, submission: nat, outcome: string, message: string, redo: seq<StepId>,
                  annotated: bool, validated: bool, ifMatch: Option<string>): Result<Task>
  {
    if submission >= |t.submissions| then Err(NotFound())
    else
      var row := t.submissions[submission];
      var lock, role, version := a.Locked(), a.RequireCounselor(), Http.RequireVersion(ifMatch, t.version);
      if lock.Fail? then Err(lock.error)
      else if role.Fail? then Err(role.error)
      else if version.Fail? then Err(version.error)
      else if row.feedback.Some? then Err(Conflict("FEEDBACK_EXISTS"))
      else if row.attempt != MaxAttempt(t.submissions) then Err(Conflict("STALE_SUBMISSION"))
      else
        var valid := ValidateFeedback(outcome, message, redo, SnapshotSteps(row.snapshot));
        if valid.Fail? then Err(valid.error)
        else if annotated && !validated then Err(AppError(422, "INVALID_ANNOTATION"))
        else
          var status := Transition(a, t.status, if outcome == "passed" then PassTask else RequestChanges, "");
          if status.Err? then Err(status.error)
          else
            var reviewed := row.(feedback := Some(Feedback(outcome, message, redo)));
            Ok(t.(status := status.value, version := t.version + 1,
                  submissions := t.submissions[submission := reviewed], rows := ResetAll(t.rows, redo)))
  }

  function SetPrompt(t: Task, a: Access, level: nat, reason: string, ifMatch: Option<string>): Result<Task> {
    var lock, role, version := a.Locked(), a.RequireCounselor(), Http.RequireVersion(ifMatch, t.version);
    if lock.Fail? then Err(lock.error)
    else if role.Fail? then Err(role.error)
    else if version.Fail? then Err(version.error)
    else if Terminal(t.status) then Err(StateConflict())
    else if Blank(reason) then Err(AppError(422, "REASON_REQUIRED"))
    else Ok(t.(prompt := Some((level, Trimmed(reason))), version := t.version + 1))
  }

  // ---- the row the service locks and updates ----

  class TaskRow {
    const id: nat
    const caseId: nat
    const steps: seq<RevisionStep>
    var status: TaskStatus
    var version: nat
    var prompt: Option<(nat, string)>
    var rows: map<StepId, Progress>
    var submissions: seq<Submission>

    ghost function View(): Task
      reads this
    {
      Task(id, caseId, steps, status, version, prompt, rows, submissions)
    }

    constructor (id: nat, caseId: nat, steps: seq<RevisionStep>)
      ensures View() == NewTask(id, caseId, steps)
    {
      this.id, this.caseId, this.steps := id, caseId, steps;
      status, version, prompt, rows, submissions := NotStarted, 1, None, map[], [];
      new;
      for k := 0 to |steps|
        invariant rows == map i | i in StepIds(steps[..k]) :: Fresh
        invariant View() == Task(id, caseId, steps, NotStarted, 1, None, rows, [])
      {
        assert StepIds(steps[..k + 1]) == StepIds(steps[..k]) + {steps[k].id} by {
          assert forall j :: 0 <= j < k ==> steps[..k + 1][j] == steps[..k][j];
        }
        rows := rows[steps[k].id := Fresh];
      }
      assert steps[..|steps|] == steps;
    }

    method UpdateProgress(a: Access, step: StepId, state: StepStatus, attachments: seq<Files.FileId>,
                          ifMatch: Option<string>, assets: Files.Assets)
      returns (r: Check)
      requires Shaped(View())
      modifies this
      ensures match SaveProgress(old(View()), a, step, state, attachments, ifMatch, assets)
              case Ok(t) => r.Pass? && View() == t
              case Err(e) => r == Fail(e) && View() == old(View())
    {
      r := a.Locked();
      if r.Fail? {
        return;
      }
      r := a.RequireLearner();
      if r.Fail? {
        return;
      }
      r := Http.RequireVersion(ifMatch, version);
      if r.Fail? {
        return;
      }
      if status != InProgress {
        return Fail(Conflict("TASK_NOT_RUNNING"));
      }
      if step !in rows {
        return Fail(NotFound());
      }
      if FirstOpen(Payload(Task(id, caseId, steps, status, version, prompt, rows, submissions))) != Some(step) {
        return Fail(Conflict("STEP_ORDER"));
      }
      r := Files.RequireFiles(assets, attachments, caseId, Files.TaskEvidence, Some(id));
      if r.Fail? {
        return;
      }
      if state == Finished && Evidence(steps, step) && attachments == [] {
        return Fail(Conflict("EVIDENCE_REQUIRED"));
      }
      rows := rows[step := Progress(state, attachments)];
      version := version + 1;
    }

    method Submit(a: Access, note: string, ifMatch: Option<string>, store: Files.FileStore, owner: nat)
      returns (r: Check)
      requires Shaped(View())
      modifies this, store`links
      ensures match SubmitTask(old(View()), a, note, ifMatch, store.assets)
              case Ok(t) =>
                && r.Pass? && View() == t
                && store.links == Files.LinkAll(old(store.links), Dedupe(Attached(Payload(old(View())))), caseId,
                    Files.Submission, owner)
              case Err(e) => r == Fail(e) && View() == old(View()) && store.links == old(store.links)
    {
      r := a.Locked();
      if r.Fail? {
        return;
      }
      r := Http.RequireVersion(ifMatch, version);
      if r.Fail? {
        return;
      }
      var progress := Payload(Task(id, caseId, steps, status, version, prompt, rows, submissions));
      if progress == [] || exists k :: 0 <= k < |progress| && progress[k].progress.status != Finished {
        return Fail(Conflict("INCOMPLETE_STEPS"));
      }
      var next := Transition(a, status, Command.Submit, "");
      if next.Err? {
        return Fail(next.error);
      }
      var ids := Dedupe(Attached(progress));
      r := Files.RequireFiles(store.assets, ids, caseId, Files.TaskEvidence, Some(id));
      if r.Fail? {
        return;
      }
      status := next.value;
      submissions := submissions + [Submission(MaxAttempt(submissions) + 1, note, progress, None)];
      version := version + 1;
      store.LinkFiles(ids, caseId, Files.Submission, owner);
    }

    method Review(a: Access, submission: nat, outcome: string, message: string, redo: seq<StepId>, annotated: bool,
                  validated: bool, ifMatch: Option<string>) returns (r: Check)
      modifies this
      ensures match ReviewTask(old(View()), a, submission, outcome, message, redo, annotated, validated, ifMatch)
              case Ok(t) => r.Pass? && View() == t
              case Err(e) => r == Fail(e) && View() == old(View())
    {
      if submission >= |submissions| {
        return Fail(NotFound());
      }
      var row := submissions[submission];
      r := a.Locked();
      if r.Fail? {
        return;
      }
      r := a.RequireCounselor();
      if r.Fail? {
        return;
      }
      r := Http.RequireVersion(ifMatch, version);
      if r.Fail? {
        return;
      }
      if row.feedback.Some? {
        return Fail(Conflict("FEEDBACK_EXISTS"));
      }
      if row.attempt != MaxAttempt(submissions) {
        return Fail(Conflict("STALE_SUBMISSION"));
      }
      r := ValidateFeedback(outcome, message, redo, SnapshotSteps(row.snapshot));
      if r.Fail? {
        return;
      }
      if annotated && !validated {
        return Fail(AppError(422, "INVALID_ANNOTATION"));
      }
      var next := Transition(a, status, if outcome == "passed" then PassTask else RequestChanges, "");
      if next.Err? {
        return Fail(next.error);
      }
      status := next.value;
      submissions := submissions[submission := row.(feedback := Some(Feedback(outcome, message, redo)))];
      ghost var before := View();
      for i := 0 to |redo|
        invariant View() == before.(rows := ResetAll(before.rows, redo[..i]))
      {
        assert redo[..i + 1][..i] == redo[..i];
        rows := rows[redo[i] := Fresh];
      }
      assert redo[..|redo|] == redo;
      version := version + 1;
    }

    method Action(a: Access, c: Command, reason: string, ifMatch: Option<string>) returns (r: Check)
      modifies this
      ensures match Act(old(View()), a, c, reason, ifMatch)
              case Ok(t) => r.Pass? && View() == t
              case Err(e) => r == Fail(e) && View() == old(View())
    {
      r := a.Locked();
      if r.Fail? {
        return;
      }
      r := Http.RequireVersion(ifMatch, version);
      if r.Fail? {
        return;
      }
      var next := Transition(a, status, c, reason);
      if next.Err? {
        return Fail(next.error);
      }
      status := next.value;
      version := version + 1;
    }
  }
}
