/** File assets: upload, scanning, linking and deletion (infrastructure/assets.py, file_service.py, file_jobs.py). */
module Files {
  import opened Common
  import Http

  type FileId = nat
  type Key = nat
  type UserId = nat

  datatype FileState = Quarantined | Scanning | Ready | Rejected | Deleted

  datatype Purpose = ProfileMaterial | TaskEvidence | SopMedia | SupportMaterial

  datatype OwnerKind = SopRevision | Submission | SupportMessage | Annotation

  datatype Metadata = Metadata(mime: string, width: Option<nat>, height: Option<nat>)

  datatype Asset = Asset(
    caseId: nat, task: Option<nat>, uploader: UserId, purpose: Purpose, key: Key,
    metadata: Metadata, state: FileState, refused: bool, version: nat)

  datatype Link = Link(asset: FileId, caseId: nat, kind: OwnerKind, owner: nat)

  /** What detection found: clean with readable metadata, or anything else. */
  datatype Verdict = Clean(metadata: Metadata) | Unsafe

  datatype Notice = Notice(recipient: UserId, verdict: FileState, asset: FileId)

  type Assets = map<FileId, Asset>

  /** The dedupe keys under which file jobs are queued: one scan and one removal per asset. */
  datatype FileJob = ScanJob(asset: FileId) | RemoveJob(asset: FileId)

  datatype Store = Store(assets: Assets, links: set<Link>, blobs: set<Key>, notices: seq<Notice>, jobs: set<FileJob>)

  // ---- assets.py ----

  predicate Fits(a: Asset, caseId: nat, purpose: Purpose, task: Option<nat>) {
    a.caseId == caseId && a.purpose == purpose && (task.Some? ==> a.task == task)
  }

  function RequireFiles(assets: Assets, ids: seq<FileId>, caseId: nat, purpose: Purpose, task: Option<nat>): Check {
    if !Distinct(ids) then Fail(Conflict("DUPLICATE_FILE"))
    else if exists i :: 0 <= i < |ids| && (ids[i] !in assets || !Fits(assets[ids[i]], caseId, purpose, task)) then
        Fail(NotFound())
    else if exists i :: 0 <= i < |ids| && assets[ids[i]].state != Ready then Fail(Conflict("FILE_NOT_READY"))
    else Pass
  }

  predicate IsLinked(links: set<Link>, asset: FileId, kind: OwnerKind, owner: nat) {
    exists l :: l in links && l.asset == asset && l.kind == kind && l.owner == owner
  }

  function LinkOne(links: set<Link>, asset: FileId, caseId: nat, kind: OwnerKind, owner: nat): set<Link> {
    if IsLinked(links, asset, kind, owner) then links else links + {Link(asset, caseId, kind, owner)}
  }

  function LinkAll(links: set<Link>, ids: seq<FileId>, caseId: nat, kind: OwnerKind, owner: nat): set<Link> {
    if ids == [] then links
    else LinkOne(LinkAll(links, ids[..|ids| - 1], caseId, kind, owner), ids[|ids| - 1], caseId, kind, owner)
  }

  /** Linking keeps every link, links every listed asset and no other. */
  lemma {:induction false} LinkAllExact(links: set<Link>, ids: seq<FileId>, caseId: nat, kind: OwnerKind, owner: nat)
    ensures links <= LinkAll(links, ids, caseId, kind, owner)
    ensures forall a :: a in ids ==> IsLinked(LinkAll(links, ids, caseId, kind, owner), a, kind, owner)
    ensures forall l :: l in LinkAll(links, ids, caseId, kind, owner) - links ==>
        l.asset in ids && l == Link(l.asset, caseId, kind, owner)
  {
    if ids != [] {
      var init, last := ids[..|ids| - 1], ids[|ids| - 1];
      LinkAllExact(links, init, caseId, kind, owner);
      var before, after := LinkAll(links, init, caseId, kind, owner), LinkAll(links, ids, caseId, kind, owner);
      assert Link(last, caseId, kind, owner) in after || IsLinked(before, last, kind, owner);
      forall a | a in ids ensures IsLinked(after, a, kind, owner) {
        if a in init {
          var l :| l in before && l.asset == a && l.kind == kind && l.owner == owner;
          assert l in after;
        } else {
          assert a == last;
        }
      }
    }
  }

  // ---- file_service.py ----

  /** The locked read of the file's case comes first; a learner sees a step's media only once it is published. */
  function Get(st: Store, actor: UserId, id: FileId, a: Access): Result<Asset> {
    if id !in st.assets then Err(NotFound())
    else if a.Locked().Fail? then Err(a.Locked().error)
    else
      var row := st.assets[id];
      if row.state == Deleted then Err(NotFound())
      else if row.uploader != actor && (row.state != Ready || (a.learner && row.purpose == SopMedia && !Shown(st, id)))
      then Err(NotFound()) else Ok(row)
  }

  predicate Shown(st: Store, id: FileId) { exists l :: l in st.links && l.asset == id && l.kind == SopRevision }

  predicate InUse(st: Store, id: FileId) { exists l :: l in st.links && l.asset == id }

  function DeleteFile(st: Store, actor: UserId, id: FileId, a: Access, ifMatch: Option<string>): Result<Store> {
    var row := Get(st, actor, id, a);
    if row.Err? then Err(row.error)
    else if row.value.uploader != actor then Err(Forbidden())
    else
      var version := Http.RequireVersion(ifMatch, row.value.version);
      if version.Fail? then Err(version.error)
      else if InUse(st, id) then Err(Conflict("FILE_IN_USE"))
      else Ok(Deletion(st, id))
  }

  /** Exactly an uploader's unlinked file in an open case of theirs can be deleted, and only at its current version. */
  lemma DeleteExact(st: Store, actor: UserId, id: FileId, a: Access, ifMatch: Option<string>)
    ensures DeleteFile(st, actor, id, a, ifMatch).Ok? <==>
        && id in st.assets && a.Locked().Pass?
        && st.assets[id].uploader == actor && st.assets[id].state != Deleted && !InUse(st, id)
        && Http.Version(st.assets[id].version) && ifMatch == Some(Http.ETag(st.assets[id].version))
  {
    if id in st.assets { Http.RequireVersionExact(ifMatch, st.assets[id].version); }
  }

  /** Deletion marks the row and queues the removal of its blob; nothing else changes. */
  function Deletion(st: Store, id: FileId): Store
    requires id in st.assets
  {
    st.(assets := st.assets[id := st.assets[id].(state := Deleted, version := st.assets[id].version + 1)],
        jobs := st.jobs + {RemoveJob(id)})
  }

  function Uploaded(st: Store, id: FileId, a: Asset): Store {
    st.(assets := st.assets[id := a.(state := Quarantined, refused := false, version := 1)],
        blobs := st.blobs + {a.key},
        jobs := st.jobs + {ScanJob(id)})
  }

  // ---- file_jobs.py ----

  predicate Scannable(a: Asset) { a.state == Quarantined || a.state == Scanning }

  /** The second transaction of a scan: the verdict counts only if the row is still the version the scan read. */
  function ScanCommitted(st: Store, id: FileId, version: nat, verdict: Verdict): Store {
    if id !in st.assets || st.assets[id].version != version || !Scannable(st.assets[id]) then st
    else
      var row := st.assets[id];
      var state := if verdict.Clean? then Ready else Rejected;
      st.(assets := st.assets[id := row.(state := state, refused := verdict.Unsafe?,
                                         metadata := if verdict.Clean? then verdict.metadata else row.metadata,
                                         version := row.version + 1)],
          notices := st.notices + [Notice(row.uploader, state, id)])
  }

  class FileStore {
    var assets: Assets
    var links: set<Link>
    var blobs: set<Key>
    var notices: seq<Notice>
    var jobs: set<FileJob>

    ghost function View(): Store
      reads this
    {
      Store(assets, links, blobs, notices, jobs)
    }

    constructor ()
      ensures View() == Store(map[], {}, {}, [], {})
    {
      assets, links, blobs, notices, jobs := map[], {}, {}, [], {};
    }

    method Upload(id: FileId, a: Asset)
      requires id !in assets
      modifies this
      ensures View() == Uploaded(old(View()), id, a)
    {
      blobs := blobs + {a.key};
      assets := assets[id := a.(state := Quarantined, refused := false, version := 1)];
      jobs := jobs + {ScanJob(id)};
    }

    method LinkFiles(ids: seq<FileId>, caseId: nat, kind: OwnerKind, owner: nat)
      modifies this`links
      ensures links == LinkAll(old(links), ids, caseId, kind, owner)
    {
      for i := 0 to |ids|
        invariant links == LinkAll(old(links), ids[..i], caseId, kind, owner)
      {
        assert ids[..i + 1][..i] == ids[..i];
        if !exists l :: l in links && l.asset == ids[i] && l.kind == kind && l.owner == owner {
          links := links + {Link(ids[i], caseId, kind, owner)};
        }
      }
      assert ids[..|ids|] == ids;
    }

    method Delete(actor: UserId, id: FileId, a: Access, ifMatch: Option<string>) returns (r: Check)
      modifies this`assets, this`jobs
      ensures match DeleteFile(old(View()), actor, id, a, ifMatch)
              case Ok(st) => r.Pass? && View() == st
              case Err(e) => r == Fail(e) && View() == old(View())
    {
      var found := Get(Store(assets, links, blobs, notices, jobs), actor, id, a);
      if found.Err? {
        return Fail(found.error);
      }
      var row := found.value;
      if row.uploader != actor {
        return Fail(Forbidden());
      }
      var version := Http.RequireVersion(ifMatch, row.version);
      if version.Fail? {
        return version;
      }
      if exists l :: l in links && l.asset == id {
        return Fail(Conflict("FILE_IN_USE"));
      }
      row := row.(state := Deleted);
      assets := assets[id := row.(version := row.version + 1)];
      jobs := jobs + {RemoveJob(id)};
      return Pass;
    }

    method ScanCommit(id: FileId, version: nat, verdict: Verdict)
      modifies this
      ensures View() == ScanCommitted(old(View()), id, version, verdict)
    {
      if id !in assets {
        return;
      }
      var row := assets[id];
      if row.version != version || (row.state != Quarantined && row.state != Scanning) {
        return;
      }
      row := row.(state := if verdict.Clean? then Ready else Rejected);
      row := row.(refused := verdict.Unsafe?);
      if verdict.Clean? {
        row := row.(metadata := verdict.metadata);
      }
      assets := assets[id := row.(version := row.version + 1)];
      notices := notices + [Notice(row.uploader, row.state, id)];
    }
  }
}
