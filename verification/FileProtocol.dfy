/** Files under overlapping uploads, scans, links, deletions and delete jobs: every interleaving. */
module FileProtocol {
  import opened Common
  import opened Files

  type RunId = nat

  /** What the first transaction of a scan remembered. */
  datatype Reading = Reading(asset: FileId, version: nat)

  datatype Sys = Sys(store: Store, scans: map<RunId, Reading>, removals: map<RunId, Key>)

  /** Any step may be repeated or abandoned: a scan run can commit many times, with any verdict, or never. */
  datatype Event =
    | Upload(id: FileId, asset: Asset)
    | ScanRead(run: RunId, id: FileId)
    | ScanCommit(run: RunId, verdict: Verdict)
    | DeleteRequest(actor: UserId, id: FileId, access: Access, ifMatch: Option<string>)
    | RemoveRead(run: RunId, id: FileId)
    | RemoveBlob(run: RunId)
    /** `require_files` then `link_files` in the transaction that writes the owner's content. */
    | Adopt(kind: OwnerKind, owner: nat, ids: seq<FileId>, caseId: nat, purpose: Purpose, task: Option<nat>)

  const Empty: Sys := Sys(Store(map[], {}, {}, [], {}), map[], map[])

  ghost predicate Enabled(s: Sys, e: Event) {
    match e
    case Upload(id, a) => id !in s.store.assets && a.key !in s.store.blobs && forall i :: i in s.store.assets ==>
        s.store.assets[i].key != a.key
    case ScanRead(run, id) => ScanJob(id) in s.store.jobs && id in s.store.assets && Scannable(s.store.assets[id])
    case ScanCommit(run, _) => run in s.scans
    case DeleteRequest(actor, id, a, ifMatch) => DeleteFile(s.store, actor, id, a, ifMatch).Ok?
    case RemoveRead(run, id) =>
        RemoveJob(id) in s.store.jobs && id in s.store.assets && s.store.assets[id].state == Deleted
    case RemoveBlob(run) => run in s.removals
    case Adopt(_, _, ids, caseId, purpose, task) => RequireFiles(s.store.assets, ids, caseId, purpose, task).Pass?
  }

  ghost function Step(s: Sys, e: Event): Sys {
    if !Enabled(s, e) then s
    else match e
      case Upload(id, a) => s.(store := Uploaded(s.store, id, a))
      case ScanRead(run, id) => s.(scans := s.scans[run := Reading(id, s.store.assets[id].version)])
      case ScanCommit(run, verdict) =>
          s.(store := ScanCommitted(s.store, s.scans[run].asset, s.scans[run].version, verdict))
      case DeleteRequest(actor, id, a, ifMatch) => s.(store := DeleteFile(s.store, actor, id, a, ifMatch).value)
      case RemoveRead(run, id) => s.(removals := s.removals[run := s.store.assets[id].key])
      case RemoveBlob(run) => s.(store := s.store.(blobs := s.store.blobs - {s.removals[run]}))
      case Adopt(kind, owner, ids, caseId, purpose, task) =>
        s.(store := s.store.(links := LinkAll(s.store.links, ids, caseId, kind, owner)))
  }

  ghost function Run(s: Sys, es: seq<Event>): Sys {
    if es == [] then s else Step(Run(s, es[..|es| - 1]), es[|es| - 1])
  }

  lemma RunNext(s: Sys, es: seq<Event>, e: Event)
    ensures Run(s, es + [e]) == Step(Run(s, es), e)
  {
    assert (es + [e])[..|es|] == es;
  }

  // ---- exactly one effect per asset ----

  type Notices = seq<Notice>

  ghost predicate Noticed(notices: Notices, id: FileId) {
    exists i :: 0 <= i < |notices| && notices[i].asset == id
  }

  /** The version counts the verdict and the deletion; a scan verdict and its notice always come together. */
  ghost predicate AssetOk(a: Asset, notices: Notices, id: FileId) {
    match a.state
    case Quarantined => a.version == 1 && !Noticed(notices, id)
    case Scanning => false
    case Deleted => a.version == if Noticed(notices, id) then 3 else 2
    case _ => a.version == 2 && Noticed(notices, id)
  }

  ghost predicate NoticeOk(assets: Assets, n: Notice) {
    && n.asset in assets && n.recipient == assets[n.asset].uploader && n.verdict in {Ready, Rejected}
    && assets[n.asset].state in {n.verdict, Deleted}
  }

  ghost predicate Verdicts(assets: Assets, notices: Notices) {
    && (forall i, j :: 0 <= i < j < |notices| ==> notices[i].asset != notices[j].asset)
    && (forall i :: 0 <= i < |notices| ==> NoticeOk(assets, notices[i]))
    && (forall id :: id in assets ==> AssetOk(assets[id], notices, id))
  }

  // ---- links, blobs and jobs ----

  ghost predicate Doomed(assets: Assets, key: Key) {
    exists id :: id in assets && assets[id].state == Deleted && assets[id].key == key
  }

  ghost predicate Blobs(assets: Assets, blobs: set<Key>, removals: map<RunId, Key>) {
    && (forall i, j :: i in assets && j in assets && assets[i].key == assets[j].key ==> i == j)
    && (forall id :: id in assets && assets[id].state != Deleted ==> assets[id].key in blobs)
    && (forall run :: run in removals ==> Doomed(assets, removals[run]))
  }

  ghost predicate Links(assets: Assets, links: set<Link>) {
    forall l :: l in links ==> l.asset in assets && assets[l.asset].state == Ready
  }

  /** Every asset's scan is queued, and its removal exactly from its deletion on. */
  ghost predicate Queued(assets: Assets, jobs: set<FileJob>) {
    && (forall id :: id in assets <==> ScanJob(id) in jobs)
    && (forall id :: RemoveJob(id) in jobs <==> id in assets && assets[id].state == Deleted)
  }

  ghost predicate StoreOk(st: Store, removals: map<RunId, Key>) {
    && Verdicts(st.assets, st.notices) && Blobs(st.assets, st.blobs, removals)
    && Links(st.assets, st.links) && Queued(st.assets, st.jobs)
  }

  ghost predicate Inv(s: Sys) { StoreOk(s.store, s.removals) }

  // ---- one row added or replaced ----

  lemma RowVerdicts(assets: Assets, notices: Notices, id: FileId, a: Asset)
    requires Verdicts(assets, notices) && AssetOk(a, notices, id)
    requires id in assets ==> a.uploader == assets[id].uploader && (a.state == Deleted || a.state == assets[id].state)
    ensures Verdicts(assets[id := a], notices)
  {
    forall i | 0 <= i < |notices| ensures NoticeOk(assets[id := a], notices[i]) {
      assert NoticeOk(assets, notices[i]);
    }
  }

  lemma NewVerdict(assets: Assets, notices: Notices, id: FileId, a: Asset)
    requires Verdicts(assets, notices) && id in assets && !Noticed(notices, id)
    requires a.state in {Ready, Rejected} && a.version == 2 && a.uploader == assets[id].uploader
    ensures Verdicts(assets[id := a], notices + [Notice(a.uploader, a.state, id)])
  {
    var more := notices + [Notice(a.uploader, a.state, id)];
    forall i | 0 <= i < |more| ensures NoticeOk(assets[id := a], more[i]) {
      if i < |notices| { assert NoticeOk(assets, notices[i]) && notices[i].asset != id; }
    }
    var after := assets[id := a];
    forall k | k in after ensures AssetOk(after[k], more, k) {
      NoticedMore(notices, more[|notices|], k);
      assert k != id ==> AssetOk(assets[k], notices, k);
    }
  }

  lemma NoticedMore(notices: Notices, n: Notice, id: FileId)
    ensures Noticed(notices + [n], id) <==> Noticed(notices, id) || n.asset == id
  {
    var more := notices + [n];
    assert more[|notices|] == n;
    if i :| 0 <= i < |notices| && notices[i].asset == id { assert more[i].asset == id; }
  }

  lemma RowBlobs(assets: Assets, blobs: set<Key>, removals: map<RunId, Key>, id: FileId, a: Asset)
    requires Blobs(assets, blobs, removals)
    requires if id in assets then a.key == assets[id].key && assets[id].state != Deleted
             else forall i :: i in assets ==> assets[i].key != a.key
    ensures Blobs(assets[id := a], blobs + {a.key}, removals)
    ensures id in assets ==> blobs + {a.key} == blobs
  {
    forall run | run in removals ensures Doomed(assets[id := a], removals[run]) {
      var i :| i in assets && assets[i].state == Deleted && assets[i].key == removals[run];
      assert assets[id := a][i] == assets[i];
    }
  }

  // ---- every step keeps the invariant ----

  lemma UploadInv(s: Sys, e: Event)
    requires Inv(s) && e.Upload? && Enabled(s, e)
    ensures Inv(Step(s, e))
  {
    var a := Step(s, e).store.assets[e.id];
    forall i | 0 <= i < |s.store.notices| ensures s.store.notices[i].asset != e.id {
      assert NoticeOk(s.store.assets, s.store.notices[i]);
    }
    RowVerdicts(s.store.assets, s.store.notices, e.id, a);
    RowBlobs(s.store.assets, s.store.blobs, s.removals, e.id, a);
  }

  lemma VerdictInv(s: Sys, e: Event)
    requires Inv(s) && e.ScanCommit? && Enabled(s, e)
    ensures Inv(Step(s, e))
  {
    var id, st := s.scans[e.run].asset, Step(s, e).store;
    if st != s.store {
      assert AssetOk(s.store.assets[id], s.store.notices, id);
      NewVerdict(s.store.assets, s.store.notices, id, st.assets[id]);
      RowBlobs(s.store.assets, s.store.blobs, s.removals, id, st.assets[id]);
    }
  }

  lemma DeleteInv(s: Sys, e: Event)
    requires Inv(s) && e.DeleteRequest? && Enabled(s, e)
    ensures Inv(Step(s, e))
  {
    var a := DeletedRow(s, e);
    assert AssetOk(s.store.assets[e.id], s.store.notices, e.id);
    RowVerdicts(s.store.assets, s.store.notices, e.id, a);
    RowBlobs(s.store.assets, s.store.blobs, s.removals, e.id, a);
  }

  lemma DeletedRow(s: Sys, e: Event) returns (a: Asset)
    requires e.DeleteRequest? && Enabled(s, e)
    ensures e.id in s.store.assets && s.store.assets[e.id].state != Deleted && !InUse(s.store, e.id)
    ensures a == s.store.assets[e.id].(state := Deleted, version := s.store.assets[e.id].version + 1)
    ensures Step(s, e).store == s.store.(assets := s.store.assets[e.id := a], jobs := s.store.jobs + {RemoveJob(e.id)})
    ensures Step(s, e).removals == s.removals
  {
    a := Step(s, e).store.assets[e.id];
  }

  lemma AdoptInv(s: Sys, e: Event)
    requires Inv(s) && e.Adopt? && Enabled(s, e)
    ensures Inv(Step(s, e))
  {
    LinkAllExact(s.store.links, e.ids, e.caseId, e.kind, e.owner);
    var links := Step(s, e).store.links;
    forall l | l in links ensures l.asset in s.store.assets && s.store.assets[l.asset].state == Ready {
      if l !in s.store.links { assert l.asset in e.ids; }
    }
  }

  lemma StepInv(s: Sys, e: Event)
    requires Inv(s)
    ensures Inv(Step(s, e))
  {
    if Enabled(s, e) {
      match e
      case Upload(_, _) => UploadInv(s, e);
      case ScanCommit(_, _) => VerdictInv(s, e);
      case DeleteRequest(_, _, _, _) => DeleteInv(s, e);
      case Adopt(_, _, _, _, _, _) => AdoptInv(s, e);
      case RemoveRead(_, id) => assert Doomed(s.store.assets, s.store.assets[id].key);
      case _ =>
    }
  }

  lemma {:induction false} RunInv(s: Sys, es: seq<Event>)
    requires Inv(s)
    ensures Inv(Run(s, es))
  {
    if es != [] {
      RunInv(s, es[..|es| - 1]);
      StepInv(Run(s, es[..|es| - 1]), es[|es| - 1]);
    }
  }

  /** An asset has at most one verdict; its notice goes to the uploader once, and a file left the quarantine exactly
      when it was noticed or deleted. */
  lemma OneVerdict(es: seq<Event>, id: FileId)
    requires id in Run(Empty, es).store.assets
    ensures var st := Run(Empty, es).store; var a := st.assets[id];
      && (forall i, j :: 0 <= i < j < |st.notices| ==> st.notices[i].asset != id || st.notices[j].asset != id)
      && (a.state == Ready || a.state == Rejected ==>
            exists i :: 0 <= i < |st.notices| && st.notices[i] == Notice(a.uploader, a.state, id))
      && (a.state == Quarantined || a.state == Scanning ==> forall i :: 0 <= i < |st.notices| ==>
          st.notices[i].asset != id)
  {
    RunInv(Empty, es);
    var s := Run(Empty, es);
    assert AssetOk(s.store.assets[id], s.store.notices, id);
    forall i | 0 <= i < |s.store.notices| ensures NoticeOk(s.store.assets, s.store.notices[i]) {
    }
  }

  /** Notices are only ever appended. */
  lemma NoticesStep(s: Sys, e: Event)
    ensures s.store.notices <= Step(s, e).store.notices
  {
  }

  lemma {:induction false} NoticesGrow(s: Sys, es: seq<Event>)
    ensures s.store.notices <= Run(s, es).store.notices
  {
    if es != [] {
      NoticesGrow(s, es[..|es| - 1]);
      NoticesStep(Run(s, es[..|es| - 1]), es[|es| - 1]);
    }
  }

  /** Once a verdict is committed, later scans of any run never change it; the file keeps it until it is deleted. */
  lemma VerdictIsFinal(s: Sys, es: seq<Event>, i: nat)
    requires Inv(s) && i < |s.store.notices|
    ensures var n, st := s.store.notices[i], Run(s, es).store;
      && |s.store.notices| <= |st.notices| && st.notices[i] == n
      && n.asset in st.assets && (st.assets[n.asset].state == n.verdict || st.assets[n.asset].state == Deleted)
  {
    RunInv(s, es);
    NoticesGrow(s, es);
    assert NoticeOk(Run(s, es).store.assets, Run(s, es).store.notices[i]);
  }

  lemma DeletedStep(s: Sys, e: Event, id: FileId)
    requires id in s.store.assets && s.store.assets[id].state == Deleted
    ensures id in Step(s, e).store.assets && Step(s, e).store.assets[id] == s.store.assets[id]
  {
  }

  /** A deleted asset is never revived. */
  lemma {:induction false} DeletedForEver(s: Sys, es: seq<Event>, id: FileId)
    requires id in s.store.assets && s.store.assets[id].state == Deleted
    ensures id in Run(s, es).store.assets && Run(s, es).store.assets[id] == s.store.assets[id]
  {
    if es != [] {
      DeletedForEver(s, es[..|es| - 1], id);
      DeletedStep(Run(s, es[..|es| - 1]), es[|es| - 1], id);
    }
  }

  lemma {:induction false} LinksGrow(s: Sys, es: seq<Event>)
    ensures s.store.links <= Run(s, es).store.links
  {
    if es != [] {
      LinksGrow(s, es[..|es| - 1]);
      LinksStep(Run(s, es[..|es| - 1]), es[|es| - 1]);
    }
  }

  lemma LinksStep(s: Sys, e: Event)
    ensures s.store.links <= Step(s, e).store.links
  {
    if e.Adopt? { LinkAllExact(s.store.links, e.ids, e.caseId, e.kind, e.owner); }
  }

  /** A linked asset is ready and stored, and no later interleaving unlinks it, deletes it or removes its blob. */
  lemma LinkedIsKept(es: seq<Event>, more: seq<Event>, f: FileId, kind: OwnerKind, owner: nat)
    requires IsLinked(Run(Empty, es).store.links, f, kind, owner)
    ensures Kept(Run(Run(Empty, es), more).store, f, kind, owner)
  {
    RunInv(Empty, es);
    RunInv(Run(Empty, es), more);
    LinksGrow(Run(Empty, es), more);
    LinkedIsStored(Run(Run(Empty, es), more), f, kind, owner);
  }

  /** Linked for this owner, ready, and with its blob. */
  ghost predicate Kept(st: Store, f: FileId, kind: OwnerKind, owner: nat) {
    IsLinked(st.links, f, kind, owner) && f in st.assets && st.assets[f].state == Ready && st.assets[f].key in st.blobs
  }

  lemma LinkedIsStored(s: Sys, f: FileId, kind: OwnerKind, owner: nat)
    requires Inv(s) && IsLinked(s.store.links, f, kind, owner)
    ensures Kept(s.store, f, kind, owner)
  {
  }

  /** Scans and removals are never forgotten: both jobs are queued exactly when they are due. */
  lemma JobsAreQueued(es: seq<Event>, id: FileId)
    ensures var st := Run(Empty, es).store;
      && (ScanJob(id) in st.jobs <==> id in st.assets)
      && (RemoveJob(id) in st.jobs <==> id in st.assets && st.assets[id].state == Deleted)
  {
    RunInv(Empty, es);
  }
}
