/** Every run of planning, drafting, saving, publishing and training moves. */
module SopRuns {
  import opened Common
  import opened Sop
  import Http
  import Files
  import Training
  import TrainingRuns

  datatype Event =
    | NewPlan(access: Access, caseId: CaseId, title: string, plan: PlanId, revision: RevisionId)
    | NewRevision(access: Access, plan: PlanId, base: Option<RevisionId>, revision: RevisionId)
    | Save(access: Access, revision: RevisionId, goal: string, reminder: string, steps: seq<SopStep>,
        ifMatch: Option<string>, assets: Files.Assets)
    | Publish(access: Access, revision: RevisionId, ifMatch: Option<string>, matchConfirmed: bool, assets: Files.Assets,
        task: TaskId, now: int)
    /** Any transition of a task's status. */
    | Move(task: TaskId, command: Training.Command)

  const Empty: Db := Db(map[], map[], map[])

  /** New rows get fresh identifiers. */
  ghost predicate Fresh(db: Db, e: Event) {
    match e
    case NewPlan(_, _, _, plan, revision) => plan !in db.plans && revision !in db.revisions
    case NewRevision(_, _, _, revision) => revision !in db.revisions
    case Publish(_, _, _, _, _, task, _) => task !in db.tasks
    case _ => true
  }

  ghost predicate WellKeyed(db: Db) {
    forall r :: r in db.revisions ==>
        db.revisions[r].planId in db.plans && db.plans[db.revisions[r].planId].caseId == db.revisions[r].caseId
  }

  ghost function Execute(db: Db, e: Event): Result<Db>
    requires WellKeyed(db)
  {
    match e
    case NewPlan(a, caseId, title, plan, revision) => CreatePlan(db, a, caseId, title, plan, revision)
    case NewRevision(a, plan, base, revision) => CreateRevision(db, a, plan, base, revision)
    case Save(a, revision, goal, reminder, steps, ifMatch, assets) =>
        SaveRevision(db, a, revision, goal, reminder, steps, ifMatch, assets)
    case Publish(a, revision, ifMatch, matchConfirmed, assets, task, now) =>
        PublishRoute(db, a, revision, ifMatch, matchConfirmed, assets, task, now)
    case Move(task, command) =>
      if task !in db.tasks || Training.Target(db.tasks[task].status, command).None? then Err(StateConflict())
      else
        var status := Training.Target(db.tasks[task].status, command).value;
        Ok(db.(tasks := db.tasks[task := db.tasks[task].(status := status)]))
  }

  ghost predicate Succeeds(db: Db, e: Event) {
    WellKeyed(db) && Fresh(db, e) && Execute(db, e).Ok?
  }

  ghost function Step(db: Db, e: Event): Db {
    if Succeeds(db, e) then Execute(db, e).value else db
  }

  ghost function Run(db: Db, es: seq<Event>): Db {
    if es == [] then db else Step(Run(db, es[..|es| - 1]), es[|es| - 1])
  }

  // ---- revisions of a plan ----

  type Revisions = map<RevisionId, Revision>
  type TaskHeads = map<TaskId, TaskHead>

  ghost predicate HasNumber(revisions: Revisions, plan: PlanId, n: int) {
    exists r :: r in revisions && revisions[r].planId == plan && revisions[r].number == n
  }

  /** A plan's numbers are 1..n without repetition; at most one revision is a draft, and it is the newest. */
  ghost predicate Numbers(revisions: Revisions) {
    && (forall r :: r in revisions ==> revisions[r].number >= 1)
    && (forall r, q :: r in revisions && q in revisions && revisions[r].planId == revisions[q].planId && r != q ==>
          && revisions[r].number != revisions[q].number
          && (revisions[r].state == Draft ==> revisions[q].state != Draft && revisions[q].number < revisions[r].number))
    && (forall r, n: nat :: r in revisions && 1 <= n <= revisions[r].number ==>
        HasNumber(revisions, revisions[r].planId, n))
  }

  lemma StillNumbered(revisions: Revisions, after: Revisions, plan: PlanId, n: int)
    requires HasNumber(revisions, plan, n)
    requires forall q :: q in revisions ==>
               q in after && after[q].planId == revisions[q].planId && after[q].number == revisions[q].number
    ensures HasNumber(after, plan, n)
  {
    var q :| q in revisions && revisions[q].planId == plan && revisions[q].number == n;
    assert q in after;
  }

  lemma ReplaceNumbers(revisions: Revisions, r: RevisionId, row: Revision)
    requires Numbers(revisions) && r in revisions
    requires row.planId == revisions[r].planId && row.number == revisions[r].number
    requires row.state == Draft ==> revisions[r].state == Draft
    ensures Numbers(revisions[r := row])
  {
    var after := revisions[r := row];
    forall q, n: nat | q in after && 1 <= n <= after[q].number ensures HasNumber(after, after[q].planId, n) {
      StillNumbered(revisions, after, revisions[q].planId, n);
    }
  }

  lemma AddNumbers(revisions: Revisions, r: RevisionId, row: Revision, top: nat)
    requires Numbers(revisions) && r !in revisions && row.number == top + 1
    requires forall q :: q in revisions && revisions[q].planId == row.planId ==>
        revisions[q].number <= top && revisions[q].state == Published
    requires top > 0 ==> HasNumber(revisions, row.planId, top)
    ensures Numbers(revisions[r := row])
  {
    var after := revisions[r := row];
    forall q, n: nat | q in after && 1 <= n <= after[q].number ensures HasNumber(after, after[q].planId, n) {
      if q != r {
        StillNumbered(revisions, after, revisions[q].planId, n);
      } else {
        NewNumbered(revisions, after, r, top, n);
      }
    }
  }

  lemma NewNumbered(revisions: Revisions, after: Revisions, r: RevisionId, top: nat, n: nat)
    requires Numbers(revisions) && r !in revisions && r in after && after == revisions[r := after[r]]
    requires after[r].number == top + 1 && 1 <= n <= top + 1
    requires top > 0 ==> HasNumber(revisions, after[r].planId, top)
    ensures HasNumber(after, after[r].planId, n)
  {
    if n <= top {
      var last :| last in revisions && revisions[last].planId == after[r].planId && revisions[last].number == top;
      StillNumbered(revisions, after, after[r].planId, n);
    }
  }

  ghost predicate Publishable(row: Revision) {
    && !Blank(row.goal) && 1 <= |row.steps| <= 100
    && (forall i, j :: 0 <= i < j < |row.steps| ==> row.steps[i].id != row.steps[j].id)
    && (forall i :: 0 <= i < |row.steps| ==> !Blank(row.steps[i].instruction))
  }

  predicate Active(head: TaskHead) { !Training.Terminal(head.status) }

  ghost predicate HasTask(tasks: TaskHeads, r: RevisionId) {
    exists t :: t in tasks && tasks[t].revisionId == r
  }

  /** Published revisions and tasks are in bijection, and a case has one active task at most. */
  ghost predicate Tasks(revisions: Revisions, tasks: TaskHeads) {
    && (forall t :: t in tasks ==>
          && tasks[t].revisionId in revisions && revisions[tasks[t].revisionId].state == Published
          && revisions[tasks[t].revisionId].caseId == tasks[t].caseId)
    && (forall t, u :: t in tasks && u in tasks && tasks[t].revisionId == tasks[u].revisionId ==> t == u)
    && (forall r :: r in revisions && revisions[r].state == Published ==>
        HasTask(tasks, r) && Publishable(revisions[r]))
    && (forall t, u ::
        t in tasks && u in tasks && tasks[t].caseId == tasks[u].caseId && Active(tasks[t]) && Active(tasks[u]) ==>
            t == u)
  }

  lemma DraftTasks(revisions: Revisions, tasks: TaskHeads, r: RevisionId, row: Revision)
    requires Tasks(revisions, tasks) && row.state == Draft && (r in revisions ==> revisions[r].state == Draft)
    ensures Tasks(revisions[r := row], tasks)
  {
  }

  lemma PublishTasks(revisions: Revisions, tasks: TaskHeads, r: RevisionId, row: Revision, t: TaskId, head: TaskHead)
    requires Tasks(revisions, tasks) && r in revisions && revisions[r].state == Draft && row.state == Published
        && Publishable(row)
    requires t !in tasks && head.revisionId == r && head.caseId == row.caseId
    requires forall u :: u in tasks && tasks[u].caseId == row.caseId ==> !Active(tasks[u])
    ensures Tasks(revisions[r := row], tasks[t := head])
  {
    HasTaskMore(revisions, tasks, t, head);
    assert HasTask(tasks[t := head], r);
    forall u | u in tasks ensures tasks[u].revisionId != r {
      assert revisions[tasks[u].revisionId].state == Published;
    }
  }

  lemma HasTaskMore(revisions: Revisions, tasks: TaskHeads, t: TaskId, head: TaskHead)
    requires t !in tasks
    ensures HasTask(tasks[t := head], head.revisionId)
    ensures forall q :: HasTask(tasks, q) ==> HasTask(tasks[t := head], q)
  {
    var after := tasks[t := head];
    assert after[t].revisionId == head.revisionId;
    forall q | HasTask(tasks, q) ensures HasTask(after, q) {
      var u :| u in tasks && tasks[u].revisionId == q;
      assert after[u] == tasks[u];
    }
  }

  lemma MoveTasks(revisions: Revisions, tasks: TaskHeads, t: TaskId, head: TaskHead)
    requires Tasks(revisions, tasks) && t in tasks && head.revisionId == tasks[t].revisionId
        && head.caseId == tasks[t].caseId
    requires Active(head) ==> Active(tasks[t])
    ensures Tasks(revisions, tasks[t := head])
  {
    var after := tasks[t := head];
    forall q | HasTask(tasks, q) ensures HasTask(after, q) {
      var u :| u in tasks && tasks[u].revisionId == q;
      assert after[u].revisionId == q;
    }
  }

  ghost predicate Inv(db: Db) { WellKeyed(db) && Numbers(db.revisions) && Tasks(db.revisions, db.tasks) }

  lemma NewPlanInv(db: Db, e: Event)
    requires Inv(db) && e.NewPlan? && Fresh(db, e) && Execute(db, e).Ok?
    ensures Inv(Execute(db, e).value)
  {
    var row := Execute(db, e).value.revisions[e.revision];
    AddNumbers(db.revisions, e.revision, row, 0);
    DraftTasks(db.revisions, db.tasks, e.revision, row);
  }

  lemma NewRevisionShape(db: Db, e: Event) returns (row: Revision, plan: Plan)
    requires WellKeyed(db) && e.NewRevision? && Fresh(db, e) && Execute(db, e).Ok?
    ensures e.plan in db.plans && plan.caseId == db.plans[e.plan].caseId == row.caseId
    ensures Execute(db, e).value == Db(db.plans[e.plan := plan], db.revisions[e.revision := row], db.tasks)
    ensures row.planId == e.plan && row.state == Draft && row.number == MaxNumber(db, e.plan) + 1
        && !HasDraft(db, e.plan)
  {
    row, plan := Execute(db, e).value.revisions[e.revision], Execute(db, e).value.plans[e.plan];
  }

  lemma NewRevisionInv(db: Db, e: Event)
    requires Inv(db) && e.NewRevision? && Fresh(db, e) && Execute(db, e).Ok?
    ensures Inv(Execute(db, e).value)
  {
    var row, plan := NewRevisionShape(db, e);
    NoDraftTop(db, e.plan);
    AddNumbers(db.revisions, e.revision, row, MaxNumber(db, e.plan));
    DraftTasks(db.revisions, db.tasks, e.revision, row);
    KeyedMore(db, e.plan, plan, e.revision, row);
  }

  lemma KeyedMore(db: Db, p: PlanId, plan: Plan, r: RevisionId, row: Revision)
    requires WellKeyed(db) && p in db.plans && plan.caseId == db.plans[p].caseId == row.caseId && row.planId == p
    ensures WellKeyed(Db(db.plans[p := plan], db.revisions[r := row], db.tasks))
  {
  }

  /** Without a draft, the greatest number is a published revision's. */
  lemma NoDraftTop(db: Db, plan: PlanId)
    requires !HasDraft(db, plan)
    ensures var top := MaxNumber(db, plan);
      && (forall q :: q in db.revisions && db.revisions[q].planId == plan ==>
            db.revisions[q].number <= top && db.revisions[q].state == Published)
      && (top > 0 ==> HasNumber(db.revisions, plan, top))
  {
    assert IsMaxNumber(db, plan, MaxNumber(db, plan));
  }

  lemma SaveInv(db: Db, e: Event)
    requires Inv(db) && e.Save? && Execute(db, e).Ok?
    ensures Inv(Execute(db, e).value)
  {
    var row := Execute(db, e).value.revisions[e.revision];
    ReplaceNumbers(db.revisions, e.revision, row);
    DraftTasks(db.revisions, db.tasks, e.revision, row);
  }

  function PublishedRow(row: Revision): Revision {
    row.(state := Published, version := row.version + 1)
  }

  lemma PublishShape(db: Db, e: Event) returns (row: Revision, head: TaskHead)
    requires e.Publish? && Succeeds(db, e)
    ensures e.revision in db.revisions && db.revisions[e.revision].state == Draft && Publishable(row)
    ensures row == PublishedRow(db.revisions[e.revision])
    ensures head == TaskHead(row.caseId, e.revision, e.now, Training.NotStarted)
    ensures forall u :: u in db.tasks && db.tasks[u].caseId == row.caseId ==> !Active(db.tasks[u])
    ensures Step(db, e).revisions == db.revisions[e.revision := row] && Step(db, e).tasks == db.tasks[e.task := head]
    ensures WellKeyed(Step(db, e))
    ensures Files.RequireFiles(e.assets, Dedupe(Media(row.steps)), row.caseId, Files.SopMedia, None).Pass?
  {
    var published := PublishRevision(db, e.access, e.revision, e.ifMatch, e.matchConfirmed, e.assets).value;
    row, head := published.revisions[e.revision], Execute(db, e).value.tasks[e.task];
    assert !HasActiveTask(published, row.caseId);
  }

  lemma PublishInv(db: Db, e: Event)
    requires Inv(db) && e.Publish? && Fresh(db, e) && Execute(db, e).Ok?
    ensures Inv(Execute(db, e).value)
  {
    var row, head := PublishShape(db, e);
    ReplaceNumbers(db.revisions, e.revision, row);
    PublishTasks(db.revisions, db.tasks, e.revision, row, e.task, head);
  }

  lemma MoveInv(db: Db, e: Event)
    requires Inv(db) && e.Move? && Execute(db, e).Ok?
    ensures Inv(Execute(db, e).value)
  {
    MoveTasks(db.revisions, db.tasks, e.task, Execute(db, e).value.tasks[e.task]);
  }

  lemma StepInv(db: Db, e: Event)
    requires Inv(db)
    ensures Inv(Step(db, e))
  {
    if Succeeds(db, e) {
      match e
      case NewPlan(_, _, _, _, _) => NewPlanInv(db, e);
      case NewRevision(_, _, _, _) => NewRevisionInv(db, e);
      case Save(_, _, _, _, _, _, _) => SaveInv(db, e);
      case Publish(_, _, _, _, _, _, _) => PublishInv(db, e);
      case Move(_, _) => MoveInv(db, e);
    }
  }

  lemma {:induction false} RunInv(es: seq<Event>)
    ensures Inv(Run(Empty, es))
  {
    if es != [] {
      RunInv(es[..|es| - 1]);
      StepInv(Run(Empty, es[..|es| - 1]), es[|es| - 1]);
    }
  }

  /** Planning and drafting publish nothing and touch no task. */
  lemma DraftingStep(db: Db, e: Event)
    requires !e.Publish? && !e.Move?
    ensures Step(db, e).tasks == db.tasks
    ensures forall r :: r in Step(db, e).revisions && Step(db, e).revisions[r].state == Published ==>
        r in db.revisions && Step(db, e).revisions[r] == db.revisions[r]
  {
  }

  lemma PublishedStep(db: Db, e: Event, r: RevisionId)
    requires r in db.revisions && db.revisions[r].state == Published
    ensures r in Step(db, e).revisions && Step(db, e).revisions[r] == db.revisions[r]
  {
    if WellKeyed(db) && Fresh(db, e) && Execute(db, e).Ok? {
      match e
      case Publish(a, revision, ifMatch, matchConfirmed, assets, task, now) =>
        var published := PublishRevision(db, a, revision, ifMatch, matchConfirmed, assets);
        assert published.Ok? && Execute(db, e).value.revisions == published.value.revisions;
      case _ =>
    }
  }

  /** Once published, a revision's row never changes again: content, order and number stay. */
  lemma {:induction false} PublishedForEver(es: seq<Event>, more: seq<Event>, r: RevisionId)
    requires r in Run(Empty, es).revisions && Run(Empty, es).revisions[r].state == Published
    ensures r in Run(Empty, es + more).revisions && Run(Empty, es + more).revisions[r] == Run(Empty, es).revisions[r]
  {
    if more == [] {
      assert es + more == es;
    } else {
      PublishedForEver(es, more[..|more| - 1], r);
      assert (es + more)[..|es + more| - 1] == es + more[..|more| - 1];
      PublishedStep(Run(Empty, es + more[..|more| - 1]), more[|more| - 1], r);
    }
  }

  /** Numbers 1..n with no gap or repetition, one draft at most and on top, one task per published revision, one
      active task per case. */
  lemma ReachablePlans(es: seq<Event>, r: RevisionId, q: RevisionId, n: nat, t: TaskId, u: TaskId)
    requires var db := Run(Empty, es);
        r in db.revisions && q in db.revisions && db.revisions[r].planId == db.revisions[q].planId
    requires var db := Run(Empty, es); t in db.tasks && u in db.tasks
    ensures var db := Run(Empty, es);
      && (1 <= n <= db.revisions[r].number ==> HasNumber(db.revisions, db.revisions[r].planId, n))
      && (db.revisions[r].number == db.revisions[q].number ==> r == q)
      && (db.revisions[r].state == Draft ==>
          db.revisions[q].number <= db.revisions[r].number && (db.revisions[q].state == Draft ==> q == r))
      && (db.revisions[r].state == Published <==> HasTask(db.tasks, r))
      && (db.tasks[t].revisionId == db.tasks[u].revisionId ==> t == u)
      && (db.tasks[t].caseId == db.tasks[u].caseId && Active(db.tasks[t]) && Active(db.tasks[u]) ==> t == u)
  {
    RunInv(es);
  }

  function TaskSteps(steps: seq<SopStep>): seq<Training.RevisionStep> {
    seq(|steps|, k requires 0 <= k < |steps| => Training.RevisionStep(steps[k].id, steps[k].evidenceRequired))
  }

  /** The task of any published revision starts in the aggregate's invariant. */
  lemma PublishedStartsTask(es: seq<Event>, id: nat, r: RevisionId)
    requires r in Run(Empty, es).revisions && Run(Empty, es).revisions[r].state == Published
    ensures var row := Run(Empty, es).revisions[r];
            TrainingRuns.Inv(Training.NewTask(id, row.caseId, TaskSteps(row.steps))) && row.steps != []
  {
    RunInv(es);
    var row := Run(Empty, es).revisions[r];
    TrainingRuns.NewTaskInv(id, row.caseId, TaskSteps(row.steps));
  }

  /** The lines of the current-task query: every task of the database, newest first. */
  ghost predicate Listing(db: Db, lines: seq<Line>) {
    && (forall k :: 0 <= k < |lines| ==>
          && lines[k].task in db.tasks
          && db.tasks[lines[k].task].caseId == lines[k].caseId && db.tasks[lines[k].task].status == lines[k].status)
    && (forall t :: t in db.tasks ==> exists k :: 0 <= k < |lines| && lines[k].task == t)
  }

  /** `current_tasks` reports a case's active task exactly when it has one. */
  lemma CurrentIsTheActiveTask(es: seq<Event>, lines: seq<Line>, k: int, t: TaskId)
    requires var db := Run(Empty, es);
        Listing(db, lines) && Chosen(lines, k) && t in db.tasks && db.tasks[t].caseId == lines[k].caseId
    ensures !Training.Terminal(Run(Empty, es).tasks[t].status) <==>
        !Training.Terminal(lines[k].status) && lines[k].task == t
  {
    RunInv(es);
    var db := Run(Empty, es);
    var j :| 0 <= j < |lines| && lines[j].task == t;
    assert lines[j].caseId == lines[k].caseId;
  }

  // ---- exactly when a request succeeds ----

  predicate Current(version: nat, ifMatch: Option<string>) {
    Http.Version(version) && ifMatch == Some(Http.ETag(version))
  }

  predicate MediaReady(assets: Files.Assets, caseId: CaseId, f: Files.FileId) {
    f in assets && Files.Fits(assets[f], caseId, Files.SopMedia, None) && assets[f].state == Files.Ready
  }

  lemma MediaFilesExact(assets: Files.Assets, caseId: CaseId, ids: seq<Files.FileId>)
    ensures Files.RequireFiles(assets, ids, caseId, Files.SopMedia, None).Pass?
      <==> Distinct(ids) && forall f :: f in ids ==> MediaReady(assets, caseId, f)
  {
    assert forall i :: 0 <= i < |ids| ==> ids[i] in ids;
  }

  lemma {:induction false} MediaOf(steps: seq<SopStep>, f: Files.FileId)
    ensures f in Media(steps) <==> exists i :: 0 <= i < |steps| && f in steps[i].media
  {
    if steps != [] {
      MediaOf(steps[1..], f);
      if i :| 0 <= i < |steps| && f in steps[i].media { assert i > 0 ==> f in steps[1..][i - 1].media; }
      if i :| 0 <= i < |steps[1..]| && f in steps[1..][i].media { assert f in steps[i + 1].media; }
    }
  }

  lemma {:induction false} RequireMediaExact(assets: Files.Assets, steps: seq<SopStep>, caseId: CaseId)
    ensures RequireMedia(assets, steps, caseId).Pass? <==> forall i :: 0 <= i < |steps| ==>
        Distinct(steps[i].media) && forall f :: f in steps[i].media ==> MediaReady(assets, caseId, f)
  {
    if steps != [] {
      RequireMediaExact(assets, steps[..|steps| - 1], caseId);
      MediaFilesExact(assets, caseId, steps[|steps| - 1].media);
      assert steps == steps[..|steps| - 1] + [steps[|steps| - 1]];
    }
  }

  /** A draft saves exactly for its counselor, at its current version, with ordered distinct steps and ready media. */
  lemma SaveSucceedsIff(db: Db, a: Access, r: RevisionId, goal: string, reminder: string, steps: seq<SopStep>,
                        ifMatch: Option<string>, assets: Files.Assets)
    ensures SaveRevision(db, a, r, goal, reminder, steps, ifMatch, assets).Ok? <==>
        && r in db.revisions && db.revisions[r].state == Draft && !a.closed && a.counselor
        && Current(db.revisions[r].version, ifMatch)
        && Numbered(steps)
        && forall i :: 0 <= i < |steps| ==>
             Distinct(steps[i].media) && forall f :: f in steps[i].media ==>
                 MediaReady(assets, db.revisions[r].caseId, f)
  {
    if r in db.revisions {
      Http.RequireVersionExact(ifMatch, db.revisions[r].version);
      RequireMediaExact(assets, steps, db.revisions[r].caseId);
    }
  }

  /** Publishing succeeds exactly for a complete draft of a case without an active task, confirmed, current, and with
      all its media ready. */
  lemma PublishSucceedsIff(db: Db, a: Access, r: RevisionId, ifMatch: Option<string>, matchConfirmed: bool,
                           assets: Files.Assets, task: TaskId, now: int)
    requires WellKeyed(db)
    ensures PublishRoute(db, a, r, ifMatch, matchConfirmed, assets, task, now).Ok? <==>
        && r in db.revisions && db.revisions[r].state == Draft && !a.closed && a.counselor
        && Current(db.revisions[r].version, ifMatch)
        && matchConfirmed && Publishable(db.revisions[r]) && !HasActiveTask(db, db.revisions[r].caseId)
        && forall i, f :: 0 <= i < |db.revisions[r].steps| && f in db.revisions[r].steps[i].media ==>
             MediaReady(assets, db.revisions[r].caseId, f)
  {
    if r in db.revisions {
      var row := db.revisions[r];
      Http.RequireVersionExact(ifMatch, row.version);
      MediaFilesExact(assets, row.caseId, Dedupe(Media(row.steps)));
      forall f ensures f in Media(row.steps) <==> exists i :: 0 <= i < |row.steps| && f in row.steps[i].media {
        MediaOf(row.steps, f);
      }
      var published := PublishRevision(db, a, r, ifMatch, matchConfirmed, assets);
      assert published.Ok? ==> (HasActiveTask(published.value, row.caseId) <==> HasActiveTask(db, row.caseId));
    }
  }

  predicate NewestPublished(db: Db, plan: PlanId, top: nat) {
    forall q :: q in db.revisions && db.revisions[q].planId == plan && db.revisions[q].number == top ==>
        db.revisions[q].state == Published
  }

  /** A plan has a draft exactly when its newest revision is one. */
  lemma DraftIsNewest(db: Db, plan: PlanId, top: nat)
    requires Numbers(db.revisions) && IsMaxNumber(db, plan, top)
    ensures HasDraft(db, plan) <==> !NewestPublished(db, plan, top)
  {
    if HasDraft(db, plan) {
      var d :| d in db.revisions && db.revisions[d].planId == plan && db.revisions[d].state == Draft;
      assert db.revisions[d].number <= top;
      var q :| q in db.revisions && db.revisions[q].planId == plan && db.revisions[q].number == top;
    }
  }

  /** A new revision starts exactly when the plan's newest one is published, from nothing or from a published
      revision of the same plan. */
  lemma NewRevisionSucceedsIff(es: seq<Event>, a: Access, plan: PlanId, base: Option<RevisionId>, r: RevisionId)
    ensures var db := Run(Empty, es);
      CreateRevision(db, a, plan, base, r).Ok? <==>
        && plan in db.plans && !a.closed && a.counselor && NewestPublished(db, plan, MaxNumber(db, plan))
        && (base.Some? ==>
            base.value in db.revisions && db.revisions[base.value].planId == plan
                && db.revisions[base.value].state == Published)
  {
    RunInv(es);
    DraftIsNewest(Run(Empty, es), plan, MaxNumber(Run(Empty, es), plan));
  }
}
