/** Plans and revisions: draft, save, publish, and the task that publication creates (modules/sop,
    training/service.py). */
module Sop {
  import opened Common
  import Http
  import Files
  import Training

  type PlanId = nat
  type RevisionId = nat
  type TaskId = nat
  type CaseId = nat

  datatype RevisionState = Draft | Published

  datatype SopStep = SopStep(
    id: nat, position: int, instruction: string, media: seq<Files.FileId>, evidenceRequired: bool,
        estimatedSeconds: nat)

  datatype Revision = Revision(
    planId: PlanId, caseId: CaseId, number: nat, state: RevisionState, goal: string, reminder: string,
        steps: seq<SopStep>, version: nat)

  datatype Plan = Plan(caseId: CaseId, title: string, version: nat)

  datatype TaskHead = TaskHead(caseId: CaseId, revisionId: RevisionId, createdAt: int, status: Training.TaskStatus)

  datatype Db = Db(plans: map<PlanId, Plan>, revisions: map<RevisionId, Revision>, tasks: map<TaskId, TaskHead>)

  const DEFAULT_REMINDER := "default"

  // ---- service.py ----

  function CreatePlan(db: Db, a: Access, caseId: CaseId, title: string, plan: PlanId,
                      revision: RevisionId): Result<Db> {
    var lock, role := a.Locked(), a.RequireCounselor();
    if lock.Fail? then Err(lock.error)
    else if role.Fail? then Err(role.error)
    else if Blank(title) then Err(AppError(422, "INVALID_TITLE"))
    else Ok(db.(plans := db.plans[plan := Plan(caseId, Trimmed(title), 1)],
                revisions := db.revisions[revision := BlankRevision(plan, caseId, 1)]))
  }

  predicate HasDraft(db: Db, plan: PlanId) {
    exists r :: r in db.revisions && db.revisions[r].planId == plan && db.revisions[r].state == Draft
  }

  /** `coalesce(max(number), 0)` over a plan's revisions. */
  ghost predicate IsMaxNumber(db: Db, plan: PlanId, n: nat) {
    && (forall r :: r in db.revisions && db.revisions[r].planId == plan ==> db.revisions[r].number <= n)
    && (n > 0 ==> exists r :: r in db.revisions && db.revisions[r].planId == plan && db.revisions[r].number == n)
  }

  ghost function MaxNumber(db: Db, plan: PlanId): (n: nat)
    ensures IsMaxNumber(db, plan, n)
  {
    MaxOver(db, plan, db.revisions.Keys)
  }

  ghost function MaxOver(db: Db, plan: PlanId, keys: set<RevisionId>): (n: nat)
    requires keys <= db.revisions.Keys
    ensures forall r :: r in keys && db.revisions[r].planId == plan ==> db.revisions[r].number <= n
    ensures n > 0 ==> exists r :: r in keys && db.revisions[r].planId == plan && db.revisions[r].number == n
    decreases |keys|
  {
    if keys == {} then 0
    else
      var r :| r in keys;
      var n := MaxOver(db, plan, keys - {r});
      if db.revisions[r].planId == plan && db.revisions[r].number > n then db.revisions[r].number else n
  }

  function BlankRevision(plan: PlanId, caseId: CaseId, number: nat): Revision {
    Revision(plan, caseId, number, Draft, "", DEFAULT_REMINDER, [], 1)
  }

  ghost function NewDraft(db: Db, plan: PlanId, base: Option<RevisionId>): Revision
    requires plan in db.plans && (base.Some? ==> base.value in db.revisions)
  {
    var empty := BlankRevision(plan, db.plans[plan].caseId, MaxNumber(db, plan) + 1);
    if base.None? then empty
    else
      var source := db.revisions[base.value];
      empty.(goal := source.goal, reminder := source.reminder, steps := source.steps)
  }

  function OpenPlan(db: Db, a: Access, plan: PlanId, base: Option<RevisionId>): Check {
    var lock, role := a.Locked(), a.RequireCounselor();
    if plan !in db.plans then Fail(NotFound())
    else if lock.Fail? then lock
    else if role.Fail? then role
    else if HasDraft(db, plan) then Fail(Conflict("CURRENT_DRAFT_EXISTS"))
    else if base.Some? && !Copyable(db, plan, base.value) then Fail(NotFound())
    else Pass
  }

  predicate Copyable(db: Db, plan: PlanId, base: RevisionId) {
    base in db.revisions && db.revisions[base].planId == plan && db.revisions[base].state == Published
  }

  ghost function CreateRevision(db: Db, a: Access, plan: PlanId, base: Option<RevisionId>,
                                revision: RevisionId): Result<Db> {
    var open := OpenPlan(db, a, plan, base);
    if open.Fail? then Err(open.error)
    else
      Ok(db.(plans := db.plans[plan := db.plans[plan].(version := db.plans[plan].version + 1)],
             revisions := db.revisions[revision := NewDraft(db, plan, base)]))
  }

  function RequireMedia(assets: Files.Assets, steps: seq<SopStep>, caseId: CaseId): Check {
    if steps == [] then Pass
    else
      var first := RequireMedia(assets, steps[..|steps| - 1], caseId);
      if first.Fail? then first else Files.RequireFiles(assets, steps[|steps| - 1].media, caseId, Files.SopMedia, None)
  }

  predicate Numbered(steps: seq<SopStep>) {
    && (forall i, j :: 0 <= i < j < |steps| ==> steps[i].id != steps[j].id)
    && forall i :: 0 <= i < |steps| ==> steps[i].position == i + 1
  }

  /** A draft is invisible to anyone but its counselors. */
  function OpenRevision(db: Db, a: Access, revision: RevisionId): Check {
    if revision !in db.revisions then Fail(NotFound())
    else if a.Locked().Fail? then a.Locked()
    else if db.revisions[revision].state == Draft && !a.counselor then Fail(NotFound())
    else Pass
  }

  function SaveRevision(db: Db, a: Access, revision: RevisionId, goal: string, reminder: string, steps: seq<SopStep>,
                        ifMatch: Option<string>, assets: Files.Assets): Result<Db>
  {
    var open := OpenRevision(db, a, revision);
    if open.Fail? then Err(open.error)
    else
      var row := db.revisions[revision];
      var role, version, media := a.RequireCounselor(), Http.RequireVersion(ifMatch, row.version),
          RequireMedia(assets, steps, row.caseId);
      if role.Fail? then Err(role.error)
      else if version.Fail? then Err(version.error)
      else if row.state != Draft then Err(StateConflict())
      else if !Numbered(steps) then Err(AppError(422, "INVALID_STEPS"))
      else if media.Fail? then Err(media.error)
      else
        var saved := row.(goal := goal, reminder := reminder, steps := steps, version := row.version + 1);
        Ok(db.(revisions := db.revisions[revision := saved]))
  }

  function Media(steps: seq<SopStep>): seq<Files.FileId> {
    if steps == [] then [] else steps[0].media + Media(steps[1..])
  }

  /** rules.py: what a revision needs before it may be published. */
  function ValidatePublication(a: Access, row: Revision, matchConfirmed: bool): Check {
    var role := a.RequireCounselor();
    if role.Fail? then role
    else if row.state != Draft || !matchConfirmed then Fail(StateConflict())
    else if Blank(row.goal) || !(1 <= |row.steps| <= 100) || exists i, j ::
        0 <= i < j < |row.steps| && row.steps[i].id == row.steps[j].id
    then Fail(AppError(422, "INVALID_SOP"))
    else if exists i :: 0 <= i < |row.steps| && Blank(row.steps[i].instruction) then Fail(AppError(422, "INVALID_SOP"))
    else Pass
  }

  function PublishRevision(db: Db, a: Access, revision: RevisionId, ifMatch: Option<string>, matchConfirmed: bool,
                           assets: Files.Assets): Result<Db>
    requires revision in db.revisions ==> db.revisions[revision].planId in db.plans
  {
    var open := OpenRevision(db, a, revision);
    if open.Fail? then Err(open.error)
    else
      var row := db.revisions[revision];
      var version := Http.RequireVersion(ifMatch, row.version);
      var files := Files.RequireFiles(assets, Dedupe(Media(row.steps)), row.caseId, Files.SopMedia, None);
      var valid := ValidatePublication(a, row, matchConfirmed);
      if version.Fail? then Err(version.error)
      else if files.Fail? then Err(files.error)
      else if valid.Fail? then Err(valid.error)
      else
        var plan := db.plans[row.planId];
        Ok(db.(revisions := db.revisions[revision := row.(state := Published, version := row.version + 1)],
               plans := db.plans[row.planId := plan.(version := plan.version + 1)]))
  }

  predicate HasActiveTask(db: Db, caseId: CaseId) {
    exists t :: t in db.tasks && db.tasks[t].caseId == caseId && !Training.Terminal(db.tasks[t].status)
  }

  function CreateForPublication(db: Db, a: Access, revision: RevisionId, task: TaskId, now: int): Result<Db> {
    var lock, role := a.Locked(), a.RequireCounselor();
    if revision !in db.revisions || db.revisions[revision].state == Draft then Err(NotFound())
    else if lock.Fail? then Err(lock.error)
    else if role.Fail? then Err(role.error)
    else if HasActiveTask(db, db.revisions[revision].caseId) then Err(Conflict("ACTIVE_TASK_EXISTS"))
    else Ok(db.(tasks := db.tasks[task := TaskHead(db.revisions[revision].caseId, revision, now, Training.NotStarted)]))
  }

  /** The publish route: both services in one transaction, so an error in either undoes both. */
  function PublishRoute(db: Db, a: Access, revision: RevisionId, ifMatch: Option<string>, matchConfirmed: bool,
                        assets: Files.Assets, task: TaskId, now: int): Result<Db>
    requires revision in db.revisions ==> db.revisions[revision].planId in db.plans
  {
    var published := PublishRevision(db, a, revision, ifMatch, matchConfirmed, assets);
    if published.Err? then published else CreateForPublication(published.value, a, revision, task, now)
  }

  // ---- training/queries.py: current_tasks ----

  datatype Line = Line(task: TaskId, caseId: CaseId, status: Training.TaskStatus)

  /** The line chosen for a case: its first active one, or its first line when none is active. */
  predicate Chosen(lines: seq<Line>, k: int) {
    && 0 <= k < |lines|
    && (Training.Terminal(lines[k].status) ==>
          forall j :: 0 <= j < |lines| && lines[j].caseId == lines[k].caseId ==> Training.Terminal(lines[j].status))
    && forall j :: 0 <= j < k && lines[j].caseId == lines[k].caseId ==>
         Training.Terminal(lines[j].status) && !Training.Terminal(lines[k].status)
  }

  lemma ChosenKeeps(lines: seq<Line>, i: nat, k: int)
    requires i < |lines| && Chosen(lines[..i], k)
    requires lines[i].caseId == lines[k].caseId && Training.Terminal(lines[k].status) ==>
        Training.Terminal(lines[i].status)
    ensures Chosen(lines[..i + 1], k)
  {
    assert forall j :: 0 <= j < i ==> lines[..i][j] == lines[j];
  }

  lemma ChosenNew(lines: seq<Line>, i: nat)
    requires i < |lines|
    requires forall j :: 0 <= j < i && lines[j].caseId == lines[i].caseId ==>
                 Training.Terminal(lines[j].status) && !Training.Terminal(lines[i].status)
    ensures Chosen(lines[..i + 1], i)
  {
  }

  method CurrentTasks(lines: seq<Line>) returns (result: map<CaseId, (TaskId, Training.TaskStatus)>)
    ensures forall j :: 0 <= j < |lines| ==> lines[j].caseId in result
    ensures forall c :: c in result ==>
              exists k :: Chosen(lines, k) && lines[k].caseId == c && result[c] == (lines[k].task, lines[k].status)
  {
    result := map[];
    ghost var at: map<CaseId, int> := map[];
    for i := 0 to |lines|
      invariant forall j :: 0 <= j < i ==> lines[j].caseId in result
      invariant at.Keys == result.Keys
      invariant forall c :: c in at ==> Chosen(lines[..i], at[c])
      invariant forall c :: c in at ==>
          at[c] < i && lines[at[c]].caseId == c && result[c] == (lines[at[c]].task, lines[at[c]].status)
    {
      var line := lines[i];
      ghost var before := at;
      if line.caseId !in result || (Training.Terminal(result[line.caseId].1) && !Training.Terminal(line.status)) {
        forall j | 0 <= j < i && lines[j].caseId == line.caseId
          ensures Training.Terminal(lines[j].status) && !Training.Terminal(line.status)
        {
          assert Chosen(lines[..i], at[line.caseId]);
          assert lines[..i][j] == lines[j];
        }
        ChosenNew(lines, i);
        result := result[line.caseId := (line.task, line.status)];
        at := at[line.caseId := i];
      }
      forall c | c in at ensures Chosen(lines[..i + 1], at[c]) {
        if at[c] < i {
          assert Chosen(lines[..i], before[c]);
          ChosenKeeps(lines, i, at[c]);
        }
      }
    }
    assert lines[..|lines|] == lines;
    forall c | c in result ensures exists k ::
        Chosen(lines, k) && lines[k].caseId == c && result[c] == (lines[k].task, lines[k].status) {
      assert Chosen(lines, at[c]);
    }
  }

  // ---- the rows the service writes ----

  class SopStore {
    var plans: map<PlanId, Plan>
    var revisions: map<RevisionId, Revision>
    var tasks: map<TaskId, TaskHead>

    ghost function View(): Db
      reads this
    {
      Db(plans, revisions, tasks)
    }

    constructor ()
      ensures View() == Db(map[], map[], map[])
    {
      plans, revisions, tasks := map[], map[], map[];
    }

    method HighestNumber(plan: PlanId) returns (number: nat)
      ensures number == MaxNumber(View(), plan)
    {
      number := 0;
      var rest := revisions.Keys;
      while rest != {}
        invariant rest <= revisions.Keys
        invariant forall q :: q in revisions.Keys - rest && revisions[q].planId == plan ==>
            revisions[q].number <= number
        invariant number > 0 ==>
            exists q :: q in revisions && revisions[q].planId == plan && revisions[q].number == number
        decreases |rest|
      {
        var q :| q in rest;
        if revisions[q].planId == plan && revisions[q].number > number {
          number := revisions[q].number;
        }
        rest := rest - {q};
      }
      MaxNumberUnique(View(), plan, number, MaxNumber(View(), plan));
    }

    static method AddSteps(steps: seq<SopStep>) returns (rows: seq<SopStep>)
      ensures rows == steps
    {
      rows := [];
      for i := 0 to |steps|
        invariant rows == steps[..i]
      {
        var s := steps[i];
        rows := rows + [SopStep(s.id, s.position, s.instruction, s.media, s.evidenceRequired, s.estimatedSeconds)];
      }
    }

    static method CheckMedia(assets: Files.Assets, steps: seq<SopStep>, caseId: CaseId) returns (r: Check)
      ensures r == RequireMedia(assets, steps, caseId)
    {
      r := Pass;
      for i := 0 to |steps|
        invariant r == RequireMedia(assets, steps[..i], caseId) == Pass
      {
        assert steps[..i + 1][..i] == steps[..i];
        r := Files.RequireFiles(assets, steps[i].media, caseId, Files.SopMedia, None);
        if r.Fail? {
          MediaFails(assets, steps, caseId, i + 1);
          return;
        }
      }
      assert steps[..|steps|] == steps;
    }

    /** The new draft's row: blank, or a copy of the base. */
    method DraftRow(plan: PlanId, base: Option<RevisionId>) returns (row: Revision)
      requires plan in plans && (base.Some? ==> base.value in revisions)
      ensures row == NewDraft(View(), plan, base)
    {
      var number := HighestNumber(plan);
      row := BlankRevision(plan, plans[plan].caseId, number + 1);
      if base.Some? {
        var source := revisions[base.value];
        var steps := AddSteps(source.steps);
        row := row.(goal := source.goal, reminder := source.reminder, steps := steps);
      }
    }

    method AddRevision(a: Access, plan: PlanId, base: Option<RevisionId>, revision: RevisionId) returns (r: Check)
      requires revision !in revisions
      modifies this
      ensures match CreateRevision(old(View()), a, plan, base, revision)
              case Ok(db) => r.Pass? && View() == db
              case Err(e) => r == Fail(e) && View() == old(View())
    {
      r := OpenPlan(Db(plans, revisions, tasks), a, plan, base);
      if r.Fail? {
        return;
      }
      var row := DraftRow(plan, base);
      revisions := revisions[revision := row];
      plans := plans[plan := plans[plan].(version := plans[plan].version + 1)];
    }

    method Save(a: Access, revision: RevisionId, goal: string, reminder: string, steps: seq<SopStep>,
                ifMatch: Option<string>, assets: Files.Assets)
      returns (r: Check)
      modifies this`revisions
      ensures match SaveRevision(old(View()), a, revision, goal, reminder, steps, ifMatch, assets)
              case Ok(db) => r.Pass? && View() == db
              case Err(e) => r == Fail(e) && View() == old(View())
    {
      r := OpenRevision(Db(plans, revisions, tasks), a, revision);
      if r.Fail? {
        return;
      }
      var row := revisions[revision];
      r := a.RequireCounselor();
      if r.Fail? {
        return;
      }
      r := Http.RequireVersion(ifMatch, row.version);
      if r.Fail? {
        return;
      }
      if row.state != Draft {
        return Fail(StateConflict());
      }
      if !Numbered(steps) {
        return Fail(AppError(422, "INVALID_STEPS"));
      }
      r := CheckMedia(assets, steps, row.caseId);
      if r.Fail? {
        return;
      }
      var stored := AddSteps(steps);
      row := row.(steps := stored);
      row := row.(goal := goal, reminder := reminder);
      revisions := revisions[revision := row.(version := row.version + 1)];
    }

    /** The media are linked in the transaction that publishes them. */
    method PublishDraft(a: Access, revision: RevisionId, ifMatch: Option<string>, matchConfirmed: bool,
                        store: Files.FileStore)
      returns (r: Check)
      requires revision in revisions ==> revisions[revision].planId in plans
      modifies this`revisions, this`plans, store`links
      ensures match PublishRevision(old(View()), a, revision, ifMatch, matchConfirmed, store.assets)
              case Ok(db) =>
                && r.Pass? && View() == db && revision in old(revisions)
                && store.links == MediaLinks(old(store.links), revision, old(revisions)[revision])
              case Err(e) => r == Fail(e) && View() == old(View()) && store.links == old(store.links)
    {
      r := OpenRevision(Db(plans, revisions, tasks), a, revision);
      if r.Fail? {
        return;
      }
      var row := revisions[revision];
      r := Http.RequireVersion(ifMatch, row.version);
      if r.Fail? {
        return;
      }
      var ids := Dedupe(Media(row.steps));
      r := Files.RequireFiles(store.assets, ids, row.caseId, Files.SopMedia, None);
      if r.Fail? {
        return;
      }
      r := ValidatePublication(a, row, matchConfirmed);
      if r.Fail? {
        return;
      }
      revisions := revisions[revision := row.(state := Published, version := row.version + 1)];
      plans := plans[row.planId := plans[row.planId].(version := plans[row.planId].version + 1)];
      store.LinkFiles(ids, row.caseId, Files.SopRevision, revision);
    }

    method AddTask(a: Access, revision: RevisionId, task: TaskId, now: int) returns (r: Check)
      modifies this`tasks
      ensures match CreateForPublication(old(View()), a, revision, task, now)
              case Ok(db) => r.Pass? && View() == db
              case Err(e) => r == Fail(e) && View() == old(View())
    {
      if revision !in revisions || revisions[revision].state == Draft {
        return Fail(NotFound());
      }
      r := a.Locked();
      if r.Fail? {
        return;
      }
      r := a.RequireCounselor();
      if r.Fail? {
        return;
      }
      var caseId := revisions[revision].caseId;
      if exists t :: t in tasks && tasks[t].caseId == caseId && !Training.Terminal(tasks[t].status) {
        return Fail(Conflict("ACTIVE_TASK_EXISTS"));
      }
      tasks := tasks[task := TaskHead(caseId, revision, now, Training.NotStarted)];
    }

    /** The publish route: the second service's error rolls back the first one's rows and links. */
    method Publish(a: Access, revision: RevisionId, ifMatch: Option<string>, matchConfirmed: bool,
                   store: Files.FileStore, task: TaskId, now: int) returns (r: Check)
      requires revision in revisions ==> revisions[revision].planId in plans
      modifies this, store`links
      ensures match PublishRoute(old(View()), a, revision, ifMatch, matchConfirmed, store.assets, task, now)
              case Ok(db) =>
                && r.Pass? && View() == db && revision in old(revisions)
                && store.links == MediaLinks(old(store.links), revision, old(revisions)[revision])
              case Err(e) => r == Fail(e) && View() == old(View()) && store.links == old(store.links)
    {
      var saved, savedPlans, savedLinks := revisions, plans, store.links;
      r := PublishDraft(a, revision, ifMatch, matchConfirmed, store);
      if r.Fail? {
        return;
      }
      r := AddTask(a, revision, task, now);
      if r.Fail? {
        revisions, plans, store.links := saved, savedPlans, savedLinks;
      }
    }
  }

  /** Publication links the revision's media to it. */
  function MediaLinks(links: set<Files.Link>, revision: RevisionId, row: Revision): set<Files.Link> {
    Files.LinkAll(links, Dedupe(Media(row.steps)), row.caseId, Files.SopRevision, revision)
  }

  lemma MaxNumberUnique(db: Db, plan: PlanId, m: nat, n: nat)
    requires IsMaxNumber(db, plan, m) && IsMaxNumber(db, plan, n)
    ensures m == n
  {
  }

  lemma {:induction false} MediaFails(assets: Files.Assets, steps: seq<SopStep>, caseId: CaseId, k: nat)
    requires k <= |steps| && RequireMedia(assets, steps[..k], caseId).Fail?
    ensures RequireMedia(assets, steps, caseId) == RequireMedia(assets, steps[..k], caseId)
    decreases |steps| - k
  {
    if k == |steps| {
      assert steps[..k] == steps;
    } else {
      assert steps[..k + 1][..k] == steps[..k];
      MediaFails(assets, steps, caseId, k + 1);
    }
  }
}
