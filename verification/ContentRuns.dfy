/** Plans, tasks and files together: what content refers to stays linked, ready and stored. */
module ContentRuns {
  import opened Common
  import Files
  import FileProtocol
  import Sop
  import SopRuns
  import Training
  import TrainingRuns

  type TaskId = Sop.TaskId
  type Links = set<Files.Link>
  /** The submission row behind each attempt of a task. */
  type Owners = map<(TaskId, nat), nat>

  datatype Sys = Sys(files: FileProtocol.Sys, db: Sop.Db, tasks: map<TaskId, Training.Task>, owners: Owners)

  datatype Event =
    /** Uploads, scans, deletions, removals, and adoptions by support messages and annotations. */
    | File(change: FileProtocol.Event)
    /** New plans, new revisions and saved drafts. */
    | Plan(draft: SopRuns.Event)
    | Publish(access: Access, revision: Sop.RevisionId, ifMatch: Option<string>, matchConfirmed: bool, task: TaskId,
        now: int)
    /** Any request to a task; a submission gets the row `submission`. */
    | Ask(task: TaskId, r: TrainingRuns.Request, submission: nat)

  const Empty: Sys := Sys(FileProtocol.Empty, SopRuns.Empty, map[], map[])

  // ---- one step; every request consults the files as they are ----

  function Publication(s: Sys, e: Event): SopRuns.Event
    requires e.Publish?
  {
    SopRuns.Publish(e.access, e.revision, e.ifMatch, e.matchConfirmed, s.files.store.assets, e.task, e.now)
  }

  ghost predicate Enabled(s: Sys, e: Event) {
    match e
    case File(f) => f.Adopt? ==> f.kind in {Files.SupportMessage, Files.Annotation}
    case Plan(p) => !p.Publish? && !p.Move? && (p.Save? ==> p.assets == s.files.store.assets)
    case Publish(_, _, _, _, _, _) => SopRuns.Succeeds(s.db, Publication(s, e))
    case Ask(task, r, submission) =>
      && task in s.tasks && TrainingRuns.Succeeds(s.tasks[task], r)
      && ((r.Progress? || r.Submission?) ==> r.assets == s.files.store.assets)
      && (r.Submission? ==> submission !in s.owners.Values)
  }

  ghost function Step(s: Sys, e: Event): Sys {
    if !Enabled(s, e) then s
    else match e
      case File(f) => s.(files := FileProtocol.Step(s.files, f))
      case Plan(p) => s.(db := SopRuns.Step(s.db, p))
      case Publish(_, r, _, _, task, _) => Published(s, e)
      case Ask(task, r, submission) => Asked(s, task, r, submission)
  }

  /** The media of the revision are linked and the task is created in the transaction that publishes. */
  ghost function Published(s: Sys, e: Event): Sys
    requires e.Publish? && SopRuns.Succeeds(s.db, Publication(s, e))
  {
    var row := s.db.revisions[e.revision];
    var ids := Dedupe(Sop.Media(row.steps));
    var adoption := FileProtocol.Adopt(Files.SopRevision, e.revision, ids, row.caseId, Files.SopMedia, None);
    s.(db := SopRuns.Step(s.db, Publication(s, e)),
       tasks := s.tasks[e.task := Training.NewTask(e.task, row.caseId, SopRuns.TaskSteps(row.steps))],
       files := FileProtocol.Step(s.files, adoption))
  }

  /** A submission's attachments are linked in the transaction that stores its snapshot. */
  ghost function Asked(s: Sys, task: TaskId, r: TrainingRuns.Request, submission: nat): Sys
    requires task in s.tasks && TrainingRuns.Succeeds(s.tasks[task], r)
  {
    var t := s.tasks[task];
    var after := TrainingRuns.Execute(t, r).value;
    var moved := s.(tasks := s.tasks[task := after], db := Moved(s.db, task, after.status));
    if !r.Submission? then moved
    else
      var ids := Dedupe(Training.Attached(Training.Payload(t)));
      var adoption := FileProtocol.Adopt(Files.Submission, submission, ids, t.caseId, Files.TaskEvidence, Some(t.id));
      moved.(owners := s.owners[(task, |t.submissions|) := submission], files := FileProtocol.Step(s.files, adoption))
  }

  function Moved(db: Sop.Db, task: TaskId, status: Training.TaskStatus): Sop.Db {
    if task in db.tasks then db.(tasks := db.tasks[task := db.tasks[task].(status := status)]) else db
  }

  ghost function Run(s: Sys, es: seq<Event>): Sys {
    if es == [] then s else Step(Run(s, es[..|es| - 1]), es[|es| - 1])
  }

  // ---- the invariant ----

  ghost predicate SnapshotLinked(links: Links, snapshot: seq<Training.Entry>, owner: nat) {
    forall k, f :: 0 <= k < |snapshot| && f in snapshot[k].progress.attachments ==>
        Files.IsLinked(links, f, Files.Submission, owner)
  }

  ghost predicate TaskLinked(links: Links, owners: Owners, id: TaskId, submissions: seq<Training.Submission>) {
    forall i: nat :: i < |submissions| ==>
        (id, i) in owners && SnapshotLinked(links, submissions[i].snapshot, owners[(id, i)])
  }

  type Tasks = map<TaskId, Training.Task>
  type Heads = map<TaskId, Sop.TaskHead>
  type Revisions = map<Sop.RevisionId, Sop.Revision>

  ghost predicate Snapshots(links: Links, owners: Owners, tasks: Tasks) {
    forall id :: id in tasks ==> TaskLinked(links, owners, id, tasks[id].submissions)
  }

  /** Each submission row belongs to one attempt of one task. */
  ghost predicate OwnersOk(owners: Owners, tasks: Tasks) {
    && (forall k :: k in owners ==> k.0 in tasks && k.1 < |tasks[k.0].submissions|)
    && (forall k, l :: k in owners && l in owners && owners[k] == owners[l] ==> k == l)
  }

  ghost predicate MediaLinked(links: Links, r: Sop.RevisionId, steps: seq<Sop.SopStep>) {
    forall i, f :: 0 <= i < |steps| && f in steps[i].media ==> Files.IsLinked(links, f, Files.SopRevision, r)
  }

  ghost predicate Media(links: Links, revisions: Revisions) {
    forall r :: r in revisions && revisions[r].state == Sop.Published ==> MediaLinked(links, r, revisions[r].steps)
  }

  ghost predicate Sound(tasks: Tasks) {
    forall id :: id in tasks ==> TrainingRuns.Inv(tasks[id])
  }

  /** A task row and its head in the plan tables are the same task, of the revision it was published with. */
  ghost predicate TaskOk(revisions: Revisions, id: TaskId, head: Sop.TaskHead, t: Training.Task) {
    && t.id == id && t.caseId == head.caseId && t.status == head.status
    && head.revisionId in revisions && revisions[head.revisionId].state == Sop.Published
    && t.steps == SopRuns.TaskSteps(revisions[head.revisionId].steps)
  }

  ghost predicate Match(revisions: Revisions, heads: Heads, tasks: Tasks) {
    tasks.Keys == heads.Keys && forall id :: id in tasks ==> TaskOk(revisions, id, heads[id], tasks[id])
  }

  ghost predicate Linked(s: Sys) {
    && Snapshots(s.files.store.links, s.owners, s.tasks) && OwnersOk(s.owners, s.tasks)
    && Media(s.files.store.links, s.db.revisions)
  }

  ghost predicate Inv(s: Sys) {
    && FileProtocol.Inv(s.files) && SopRuns.Inv(s.db) && Sound(s.tasks)
    && Match(s.db.revisions, s.db.tasks, s.tasks) && Linked(s)
  }

  // ---- links only grow ----

  lemma LinkedMore(links: Links, more: Links, owners: Owners, tasks: map<TaskId, Training.Task>, revisions: Revisions)
    requires links <= more
    ensures Snapshots(links, owners, tasks) ==> Snapshots(more, owners, tasks)
    ensures Media(links, revisions) ==> Media(more, revisions)
  {
    forall f, kind, owner | Files.IsLinked(links, f, kind, owner) ensures Files.IsLinked(more, f, kind, owner) {
      var l :| l in links && l.asset == f && l.kind == kind && l.owner == owner;
      assert l in more;
    }
    if Snapshots(links, owners, tasks) {
      forall id | id in tasks ensures TaskLinked(more, owners, id, tasks[id].submissions) {
        assert TaskLinked(links, owners, id, tasks[id].submissions);
      }
    }
    if Media(links, revisions) {
      forall r | r in revisions && revisions[r].state == Sop.Published
          ensures MediaLinked(more, r, revisions[r].steps) {
        assert MediaLinked(links, r, revisions[r].steps);
      }
    }
  }

  /** Adopting files that passed their check links exactly those. */
  lemma AdoptLinks(files: FileProtocol.Sys, kind: Files.OwnerKind, owner: nat, ids: seq<Files.FileId>, caseId: nat,
                   purpose: Files.Purpose, task: Option<nat>)
    requires FileProtocol.Inv(files) && Files.RequireFiles(files.store.assets, ids, caseId, purpose, task).Pass?
    ensures var after := FileProtocol.Step(files, FileProtocol.Adopt(kind, owner, ids, caseId, purpose, task));
      && FileProtocol.Inv(after) && files.store.links <= after.store.links
      && forall f :: f in ids ==> Files.IsLinked(after.store.links, f, kind, owner)
  {
    var e := FileProtocol.Adopt(kind, owner, ids, caseId, purpose, task);
    FileProtocol.StepInv(files, e);
    Files.LinkAllExact(files.store.links, ids, caseId, kind, owner);
  }

  // ---- one task or revision added or replaced ----

  lemma TaskPut(links: Links, owners: Owners, tasks: Tasks, id: TaskId, t: Training.Task)
    requires Snapshots(links, owners, tasks) && TaskLinked(links, owners, id, t.submissions)
    ensures Snapshots(links, owners, tasks[id := t])
  {
  }

  lemma OwnersKept(owners: Owners, tasks: Tasks, id: TaskId, t: Training.Task)
    requires OwnersOk(owners, tasks) && (id in tasks ==> |tasks[id].submissions| <= |t.submissions|)
    ensures OwnersOk(owners, tasks[id := t])
  {
  }

  lemma SoundPut(tasks: Tasks, id: TaskId, t: Training.Task)
    requires Sound(tasks) && TrainingRuns.Inv(t)
    ensures Sound(tasks[id := t])
  {
  }

  lemma PublishMatch(revisions: Revisions, heads: Heads, tasks: Tasks, r: Sop.RevisionId, row: Sop.Revision,
                     id: TaskId, now: int)
    requires Match(revisions, heads, tasks) && r in revisions && revisions[r].state == Sop.Draft
        && row.state == Sop.Published
    ensures Match(revisions[r := row], heads[id := Sop.TaskHead(row.caseId, r, now, Training.NotStarted)],
                  tasks[id := Training.NewTask(id, row.caseId, SopRuns.TaskSteps(row.steps))])
  {
    forall k | k in tasks ensures TaskOk(revisions[r := row], k, heads[k], tasks[k]) {
      assert TaskOk(revisions, k, heads[k], tasks[k]);
    }
  }

  lemma MoveMatch(revisions: Revisions, heads: Heads, tasks: Tasks, id: TaskId, t: Training.Task)
    requires Match(revisions, heads, tasks) && id in tasks
    requires t.id == tasks[id].id && t.caseId == tasks[id].caseId && t.steps == tasks[id].steps
    ensures Match(revisions, heads[id := heads[id].(status := t.status)], tasks[id := t])
  {
    assert TaskOk(revisions, id, heads[id], tasks[id]);
  }

  lemma DraftMatch(revisions: Revisions, after: Revisions, heads: Heads, tasks: Tasks)
    requires Match(revisions, heads, tasks)
    requires forall r :: r in revisions && revisions[r].state == Sop.Published ==>
        r in after && after[r] == revisions[r]
    ensures Match(after, heads, tasks)
  {
    forall id | id in tasks ensures TaskOk(after, id, heads[id], tasks[id]) {
      assert TaskOk(revisions, id, heads[id], tasks[id]);
    }
  }

  lemma MediaPut(links: Links, revisions: Revisions, r: Sop.RevisionId, row: Sop.Revision)
    requires Media(links, revisions) && MediaLinked(links, r, row.steps)
    ensures Media(links, revisions[r := row])
  {
  }

  lemma DraftMedia(links: Links, revisions: Revisions, after: Revisions)
    requires Media(links, revisions)
    requires forall r :: r in after && after[r].state == Sop.Published ==> r in revisions && after[r] == revisions[r]
    ensures Media(links, after)
  {
    forall r | r in after && after[r].state == Sop.Published ensures MediaLinked(links, r, after[r].steps) {
      assert MediaLinked(links, r, revisions[r].steps);
    }
  }

  // ---- files and drafts ----

  lemma FileInv(s: Sys, e: Event)
    requires Inv(s) && e.File? && Enabled(s, e)
    ensures Inv(Step(s, e)) && s.files.store.links <= Step(s, e).files.store.links
  {
    FileProtocol.StepInv(s.files, e.change);
    FileProtocol.LinksStep(s.files, e.change);
    LinkedMore(s.files.store.links, Step(s, e).files.store.links, s.owners, s.tasks, s.db.revisions);
  }

  lemma PlanInv(s: Sys, e: Event)
    requires Inv(s) && e.Plan? && Enabled(s, e)
    ensures Inv(Step(s, e)) && s.files.store.links <= Step(s, e).files.store.links
  {
    var after := SopRuns.Step(s.db, e.draft);
    SopRuns.StepInv(s.db, e.draft);
    SopRuns.DraftingStep(s.db, e.draft);
    forall r | r in s.db.revisions && s.db.revisions[r].state == Sop.Published
      ensures r in after.revisions && after.revisions[r] == s.db.revisions[r]
    {
      SopRuns.PublishedStep(s.db, e.draft, r);
    }
    DraftMatch(s.db.revisions, after.revisions, s.db.tasks, s.tasks);
    DraftMedia(s.files.store.links, s.db.revisions, after.revisions);
  }

  // ---- publication ----

  /** The tables after a publication. */
  lemma PublishShape(s: Sys, e: Event) returns (row: Sop.Revision, ids: seq<Files.FileId>)
    requires e.Publish? && Enabled(s, e)
    ensures e.revision in s.db.revisions && s.db.revisions[e.revision].state == Sop.Draft && row.state == Sop.Published
    ensures SopRuns.Publishable(row) && ids == Dedupe(Sop.Media(row.steps))
    ensures Files.RequireFiles(s.files.store.assets, ids, row.caseId, Files.SopMedia, None).Pass?
    ensures Step(s, e).db == SopRuns.Step(s.db, Publication(s, e))
    ensures Step(s, e).db.revisions == s.db.revisions[e.revision := row]
    ensures Step(s, e).db.tasks == s.db.tasks[e.task := Sop.TaskHead(row.caseId, e.revision, e.now,
        Training.NotStarted)]
    ensures Step(s, e).tasks == s.tasks[e.task := Training.NewTask(e.task, row.caseId, SopRuns.TaskSteps(row.steps))]
    ensures Step(s, e).owners == s.owners && e.task !in s.db.tasks
    ensures Step(s, e).files ==
      FileProtocol.Step(s.files,
          FileProtocol.Adopt(Files.SopRevision, e.revision, ids, row.caseId, Files.SopMedia, None))
  {
    var head;
    row, head := SopRuns.PublishShape(s.db, Publication(s, e));
    ids := Dedupe(Sop.Media(row.steps));
    assert Sop.Media(row.steps) == Sop.Media(s.db.revisions[e.revision].steps);
  }

  lemma MediaAdopted(links: Links, r: Sop.RevisionId, steps: seq<Sop.SopStep>)
    requires forall f :: f in Sop.Media(steps) ==> Files.IsLinked(links, f, Files.SopRevision, r)
    ensures MediaLinked(links, r, steps)
  {
    forall i, f | 0 <= i < |steps| && f in steps[i].media ensures f in Sop.Media(steps) {
      SopRuns.MediaOf(steps, f);
    }
  }

  lemma PublishInv(s: Sys, e: Event)
    requires Inv(s) && e.Publish? && Enabled(s, e)
    ensures Inv(Step(s, e)) && s.files.store.links <= Step(s, e).files.store.links
  {
    var row, ids := PublishShape(s, e);
    var t := Training.NewTask(e.task, row.caseId, SopRuns.TaskSteps(row.steps));
    SopRuns.StepInv(s.db, Publication(s, e));
    AdoptLinks(s.files, Files.SopRevision, e.revision, ids, row.caseId, Files.SopMedia, None);
    var links := Step(s, e).files.store.links;
    LinkedMore(s.files.store.links, links, s.owners, s.tasks, s.db.revisions);
    PublishMatch(s.db.revisions, s.db.tasks, s.tasks, e.revision, row, e.task, e.now);
    FreshTask(t, row);
    SoundPut(s.tasks, e.task, t);
    TaskPut(links, s.owners, s.tasks, e.task, t);
    OwnersKept(s.owners, s.tasks, e.task, t);
    MediaAdopted(links, e.revision, row.steps);
    MediaPut(links, s.db.revisions, e.revision, row);
  }

  lemma FreshTask(t: Training.Task, row: Sop.Revision)
    requires SopRuns.Publishable(row) && t == Training.NewTask(t.id, row.caseId, SopRuns.TaskSteps(row.steps))
    ensures TrainingRuns.Inv(t)
  {
    TrainingRuns.NewTaskInv(t.id, row.caseId, SopRuns.TaskSteps(row.steps));
  }

  // ---- requests to a task ----

  /** A task moves inside its aggregate, and its head follows. */
  lemma AskMoves(s: Sys, e: Event)
    requires SopRuns.Inv(s.db) && Sound(s.tasks) && Match(s.db.revisions, s.db.tasks, s.tasks) && e.Ask?
        && Enabled(s, e)
    ensures SopRuns.Inv(Step(s, e).db) && Sound(Step(s, e).tasks)
    ensures Step(s, e).db.revisions == s.db.revisions && Match(s.db.revisions, Step(s, e).db.tasks, Step(s, e).tasks)
  {
    var t, after := s.tasks[e.task], TrainingRuns.Execute(s.tasks[e.task], e.r).value;
    TaskMoves(t, e.r);
    SoundPut(s.tasks, e.task, after);
    MoveMatch(s.db.revisions, s.db.tasks, s.tasks, e.task, after);
    assert TaskOk(s.db.revisions, e.task, s.db.tasks[e.task], t);
    HeadMoves(s.db, e.task, after.status);
  }

  lemma TaskMoves(t: Training.Task, r: TrainingRuns.Request)
    requires TrainingRuns.Inv(t) && TrainingRuns.Succeeds(t, r)
    ensures var after := TrainingRuns.Execute(t, r).value;
      && TrainingRuns.Inv(after) && after.id == t.id && after.caseId == t.caseId && after.steps == t.steps
      && (Training.Terminal(t.status) ==> after.status == t.status)
  {
    TrainingRuns.ExecuteInv(t, r);
    TrainingRuns.TaskKept(t, r);
    if Training.Terminal(t.status) { TrainingRuns.TerminalStep(t, r); }
  }

  lemma HeadMoves(db: Sop.Db, id: TaskId, status: Training.TaskStatus)
    requires SopRuns.Inv(db) && id in db.tasks
        && (Training.Terminal(db.tasks[id].status) ==> status == db.tasks[id].status)
    ensures SopRuns.Inv(Moved(db, id, status))
  {
    SopRuns.MoveTasks(db.revisions, db.tasks, id, db.tasks[id].(status := status));
  }

  /** Requests other than a submission leave files, owners and snapshots as they are. */
  lemma OtherAsk(s: Sys, e: Event)
    requires Sound(s.tasks) && Linked(s) && e.Ask? && !e.r.Submission? && Enabled(s, e)
    ensures Step(s, e).files == s.files && Step(s, e).db.revisions == s.db.revisions && Linked(Step(s, e))
  {
    var t, after := s.tasks[e.task], TrainingRuns.Execute(s.tasks[e.task], e.r).value;
    TrainingRuns.SnapshotsKept(t, e.r);
    assert TaskLinked(s.files.store.links, s.owners, e.task, t.submissions);
    SameSnapshots(s.files.store.links, s.owners, e.task, t.submissions, after.submissions);
    TaskPut(s.files.store.links, s.owners, s.tasks, e.task, after);
    OwnersKept(s.owners, s.tasks, e.task, after);
  }

  lemma SameSnapshots(links: Links, owners: Owners, id: TaskId, a: seq<Training.Submission>,
                      b: seq<Training.Submission>)
    requires TaskLinked(links, owners, id, a) && |a| == |b| && forall i :: 0 <= i < |a| ==>
        b[i].snapshot == a[i].snapshot
    ensures TaskLinked(links, owners, id, b)
  {
    forall i: nat | i < |b| ensures (id, i) in owners && SnapshotLinked(links, b[i].snapshot, owners[(id, i)]) {
      assert SnapshotLinked(links, a[i].snapshot, owners[(id, i)]);
    }
  }

  /** What a submission does to the rows, the owners and the files. */
  lemma SubmitShape(s: Sys, e: Event) returns (row: Training.Submission, ids: seq<Files.FileId>)
    requires e.Ask? && e.r.Submission? && Enabled(s, e)
    ensures var t := s.tasks[e.task];
      && Training.Shaped(t) && row.snapshot == Training.Payload(t) && ids == Dedupe(Training.Attached(row.snapshot))
      && Step(s, e).tasks == s.tasks[e.task := Step(s, e).tasks[e.task]]
      && Step(s, e).tasks[e.task].submissions == t.submissions + [row]
      && Step(s, e).owners == s.owners[(e.task, |t.submissions|) := e.submission]
      && Step(s, e).db.revisions == s.db.revisions
      && Files.RequireFiles(s.files.store.assets, ids, t.caseId, Files.TaskEvidence, Some(t.id)).Pass?
      && Step(s, e).files == FileProtocol.Step(
           s.files, FileProtocol.Adopt(Files.Submission, e.submission, ids, t.caseId, Files.TaskEvidence, Some(t.id)))
  {
    var t := s.tasks[e.task];
    row := TrainingRuns.SubmitShape(t, e.r);
    ids := Dedupe(Training.Attached(row.snapshot));
    assert Training.SubmitTask(t, e.r.access, e.r.note, e.r.ifMatch, e.r.assets).Ok?;
  }

  lemma SubmitInv(s: Sys, e: Event)
    requires FileProtocol.Inv(s.files) && Linked(s) && e.Ask? && e.r.Submission? && Enabled(s, e)
    ensures FileProtocol.Inv(Step(s, e).files) && s.files.store.links <= Step(s, e).files.store.links
        && Linked(Step(s, e))
  {
    var t := s.tasks[e.task];
    var row, ids := SubmitShape(s, e);
    AdoptLinks(s.files, Files.Submission, e.submission, ids, t.caseId, Files.TaskEvidence, Some(t.id));
    var links := Step(s, e).files.store.links;
    LinkedMore(s.files.store.links, links, s.owners, s.tasks, s.db.revisions);
    SnapshotAdopted(links, row.snapshot, e.submission);
    SubmittedLinked(links, s.owners, s.tasks, e.task, row, e.submission);
    TaskPut(links, Step(s, e).owners, s.tasks, e.task, Step(s, e).tasks[e.task]);
    NewOwner(s.owners, s.tasks, e.task, Step(s, e).tasks[e.task], e.submission);
  }

  lemma SnapshotAdopted(links: Links, snapshot: seq<Training.Entry>, owner: nat)
    requires forall f :: f in Training.Attached(snapshot) ==> Files.IsLinked(links, f, Files.Submission, owner)
    ensures SnapshotLinked(links, snapshot, owner)
  {
    forall k, f | 0 <= k < |snapshot| && f in snapshot[k].progress.attachments
        ensures f in Training.Attached(snapshot) {
      TrainingRuns.AttachedAt(snapshot, k, f);
    }
  }

  /** The new attempt gets its own owner; every other attempt keeps the one it had. */
  lemma SubmittedLinked(links: Links, owners: Owners, tasks: Tasks, id: TaskId, row: Training.Submission, owner: nat)
    requires Snapshots(links, owners, tasks) && id in tasks && SnapshotLinked(links, row.snapshot, owner)
    ensures var more := owners[(id, |tasks[id].submissions|) := owner];
      Snapshots(links, more, tasks) && TaskLinked(links, more, id, tasks[id].submissions + [row])
  {
    var more := owners[(id, |tasks[id].submissions|) := owner];
    forall k | k in tasks ensures TaskLinked(links, more, k, tasks[k].submissions) {
      assert TaskLinked(links, owners, k, tasks[k].submissions);
    }
  }

  lemma NewOwner(owners: Owners, tasks: Tasks, id: TaskId, t: Training.Task, owner: nat)
    requires OwnersOk(owners, tasks) && id in tasks && owner !in owners.Values
        && |t.submissions| == |tasks[id].submissions| + 1
    ensures OwnersOk(owners[(id, |tasks[id].submissions|) := owner], tasks[id := t])
  {
  }

  lemma AskInv(s: Sys, e: Event)
    requires Inv(s) && e.Ask? && Enabled(s, e)
    ensures Inv(Step(s, e)) && s.files.store.links <= Step(s, e).files.store.links
  {
    AskMoves(s, e);
    if e.r.Submission? { SubmitInv(s, e); } else { OtherAsk(s, e); }
  }

  lemma StepInv(s: Sys, e: Event)
    requires Inv(s)
    ensures Inv(Step(s, e)) && s.files.store.links <= Step(s, e).files.store.links
  {
    if Enabled(s, e) {
      match e
      case File(_) => FileInv(s, e);
      case Plan(_) => PlanInv(s, e);
      case Publish(_, _, _, _, _, _) => PublishInv(s, e);
      case Ask(_, _, _) => AskInv(s, e);
    }
  }

  lemma {:induction false} RunInv(s: Sys, es: seq<Event>)
    requires Inv(s)
    ensures Inv(Run(s, es)) && s.files.store.links <= Run(s, es).files.store.links
  {
    if es != [] {
      RunInv(s, es[..|es| - 1]);
      StepInv(Run(s, es[..|es| - 1]), es[|es| - 1]);
    }
  }

  // ---- what content refers to ----

  lemma KeptLater(es: seq<Event>, more: seq<Event>, f: Files.FileId, kind: Files.OwnerKind, owner: nat)
    requires Files.IsLinked(Run(Empty, es).files.store.links, f, kind, owner)
    ensures FileProtocol.Kept(Run(Run(Empty, es), more).files.store, f, kind, owner)
  {
    RunInv(Empty, es);
    RunInv(Run(Empty, es), more);
    var l :| l in Run(Empty, es).files.store.links && l.asset == f && l.kind == kind && l.owner == owner;
    assert l in Run(Run(Empty, es), more).files.store.links;
    FileProtocol.LinkedIsStored(Run(Run(Empty, es), more).files, f, kind, owner);
  }

  /** Every attachment of every submission snapshot is linked to that submission, ready and stored, now and at any
      later time. */
  lemma SnapshotsAreSafe(es: seq<Event>, more: seq<Event>, id: TaskId, i: nat, k: nat, f: Files.FileId)
    requires var s := Run(Empty, es);
      && id in s.tasks && i < |s.tasks[id].submissions| && k < |s.tasks[id].submissions[i].snapshot|
      && f in s.tasks[id].submissions[i].snapshot[k].progress.attachments
    ensures var s := Run(Empty, es);
      (id, i) in s.owners && FileProtocol.Kept(Run(s, more).files.store, f, Files.Submission, s.owners[(id, i)])
  {
    RunInv(Empty, es);
    var s := Run(Empty, es);
    assert TaskLinked(s.files.store.links, s.owners, id, s.tasks[id].submissions);
    assert SnapshotLinked(s.files.store.links, s.tasks[id].submissions[i].snapshot, s.owners[(id, i)]);
    KeptLater(es, more, f, Files.Submission, s.owners[(id, i)]);
  }

  /** Every medium of every published revision is linked to it, ready and stored, now and at any later time. */
  lemma PublishedMediaAreSafe(es: seq<Event>, more: seq<Event>, r: Sop.RevisionId, i: nat, f: Files.FileId)
    requires var s := Run(Empty, es);
      && r in s.db.revisions && s.db.revisions[r].state == Sop.Published
      && i < |s.db.revisions[r].steps| && f in s.db.revisions[r].steps[i].media
    ensures FileProtocol.Kept(Run(Run(Empty, es), more).files.store, f, Files.SopRevision, r)
  {
    RunInv(Empty, es);
    var s := Run(Empty, es);
    assert MediaLinked(s.files.store.links, r, s.db.revisions[r].steps);
    KeptLater(es, more, f, Files.SopRevision, r);
  }

  /** No two submissions share a row, so a link names one attempt of one task. */
  lemma OwnersAreDistinct(es: seq<Event>, id: TaskId, i: nat, other: TaskId, j: nat)
    requires var s := Run(Empty, es);
      && id in s.tasks && i < |s.tasks[id].submissions| && other in s.tasks && j < |s.tasks[other].submissions|
      && (id, i) in s.owners && (other, j) in s.owners && s.owners[(id, i)] == s.owners[(other, j)]
    ensures id == other && i == j
  {
    RunInv(Empty, es);
  }

  /** The tasks that plans publish are the tasks that learners work on: each keeps the whole aggregate and its
      revision's steps. */
  lemma TasksAreSound(es: seq<Event>, id: TaskId)
    requires id in Run(Empty, es).tasks
    ensures var s := Run(Empty, es); var t := s.tasks[id];
      && Training.Shaped(t) && TrainingRuns.Aggregate(t) && id in s.db.tasks
      && s.db.tasks[id].revisionId in s.db.revisions
      && t.steps == SopRuns.TaskSteps(s.db.revisions[s.db.tasks[id].revisionId].steps)
  {
    RunInv(Empty, es);
    var s := Run(Empty, es);
    assert TaskOk(s.db.revisions, id, s.db.tasks[id], s.tasks[id]);
    TrainingRuns.InvAggregate(s.tasks[id]);
  }

  predicate Open(t: Training.Task) { !Training.Terminal(t.status) }

  /** A case has one open task at most. */
  lemma OneOpenTask(es: seq<Event>, id: TaskId, other: TaskId)
    requires id in Run(Empty, es).tasks && other in Run(Empty, es).tasks
    ensures var t, u := Run(Empty, es).tasks[id], Run(Empty, es).tasks[other];
      t.caseId == u.caseId && Open(t) && Open(u) ==> id == other
  {
    RunInv(Empty, es);
    var s := Run(Empty, es);
    OneOpenHead(s.db.revisions, s.db.tasks, s.tasks, id, other);
  }

  lemma OneOpenHead(revisions: Revisions, heads: Heads, tasks: Tasks, id: TaskId, other: TaskId)
    requires SopRuns.Tasks(revisions, heads) && Match(revisions, heads, tasks) && id in tasks && other in tasks
    ensures tasks[id].caseId == tasks[other].caseId && Open(tasks[id]) && Open(tasks[other]) ==> id == other
  {
    assert TaskOk(revisions, id, heads[id], tasks[id]);
    assert TaskOk(revisions, other, heads[other], tasks[other]);
  }
}
