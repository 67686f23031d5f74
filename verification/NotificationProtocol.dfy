/** Concurrent transactions over the counters, and clients polling by cursor: every interleaving. */
module NotificationProtocol {
  import opened Common
  import opened Notifications

  type TxId = nat
  type ClientId = nat

  /** A transaction in flight: the appends it will make, how many it has made, and the rows it holds uncommitted. */
  datatype Tx = Tx(script: Script, done: nat, pending: seq<Notice>)

  datatype Client = Client(recipient: UserId, cursor: nat, seen: seq<Notice>)

  datatype Sys = Sys(store: Store, txs: map<TxId, Tx>, clients: map<ClientId, Client>)

  datatype Event =
    | Begin(tx: TxId, script: Script)
    | Lock(tx: TxId)
    | Commit(tx: TxId)
    | Rollback(tx: TxId)
    | Join(client: ClientId, recipient: UserId)
    | Poll(client: ClientId, limit: nat)

  const Empty: Sys := Sys(Store(map[], map[]), map[], map[])

  predicate Active(t: Tx) { t.done < |t.script| }

  function Wanted(t: Tx): UserId
    requires Active(t)
  {
    t.script[t.done].0
  }

  /** Counter rows locked so far; they stay locked until the transaction ends. */
  predicate Held(t: Tx, r: UserId) {
    exists i :: 0 <= i < t.done <= |t.script| && t.script[i].0 == r
  }

  ghost predicate WaitsFor(s: Sys, a: TxId, b: TxId) {
    a != b && a in s.txs && b in s.txs && Active(s.txs[a]) && Held(s.txs[b], Wanted(s.txs[a]))
  }

  ghost predicate Enabled(s: Sys, e: Event) {
    match e
    case Begin(tx, script) => tx !in s.txs
    case Lock(tx) => tx in s.txs && Active(s.txs[tx]) && forall b :: !WaitsFor(s, tx, b)
    case Commit(tx) => tx in s.txs && !Active(s.txs[tx])
    case Rollback(tx) => tx in s.txs
    case Join(c, r) => c !in s.clients
    case Poll(c, limit) => c in s.clients && 1 <= limit <= 100
  }

  /** The locked counter as the transaction sees it: the committed value and its own increments. */
  function Locked(st: Store, t: Tx): Tx
    requires Active(t)
  {
    var r := Wanted(t);
    Tx(t.script, t.done + 1,
       t.pending + [Notice(r, CounterOf(st, r).last + Count(t.script[..t.done], r) + 1, t.script[t.done].1)])
  }

  ghost function Polled(st: Store, c: Client, limit: nat): Client {
    var page := Read(st, c.recipient, c.cursor, limit);
    if page.Err? then c
    else Client(c.recipient, page.value.next,
                c.seen + seq(|page.value.items|,
                    i requires 0 <= i < |page.value.items| => RowOf(st, c.recipient, page.value.items[i])))
  }

  function RowOf(st: Store, r: UserId, n: nat): Notice {
    Notice(r, n, if (r, n) in st.rows then st.rows[(r, n)] else Message("", "", 0))
  }

  ghost function Step(s: Sys, e: Event): Sys {
    if !Enabled(s, e) then s
    else match e
      case Begin(tx, script) => s.(txs := s.txs[tx := Tx(script, 0, [])])
      case Lock(tx) => s.(txs := s.txs[tx := Locked(s.store, s.txs[tx])])
      case Commit(tx) => s.(store := PutAll(s.store, s.txs[tx].pending), txs := s.txs - {tx})
      case Rollback(tx) => s.(txs := s.txs - {tx})
      case Join(c, r) => s.(clients := s.clients[c := Client(r, 0, [])])
      case Poll(c, limit) => s.(clients := s.clients[c := Polled(s.store, s.clients[c], limit)])
  }

  ghost function Run(s: Sys, es: seq<Event>): Sys {
    if es == [] then s else Step(Run(s, es[..|es| - 1]), es[|es| - 1])
  }

  ghost predicate TxOk(s: Sys, t: Tx) {
    t.done <= |t.script| && t.pending == Plan(s.store, t.script[..t.done])
  }

  ghost predicate Exclusive(s: Sys) {
    forall a, b, r :: a in s.txs && b in s.txs && Held(s.txs[a], r) && Held(s.txs[b], r) ==> a == b
  }

  /** The client has seen its recipient's rows 1..cursor, once each and in order. */
  ghost predicate ClientOk(s: Sys, c: Client) {
    && c.cursor == |c.seen| <= CounterOf(s.store, c.recipient).last
    && forall i :: 0 <= i < |c.seen| ==>
        (c.recipient, i + 1) in s.store.rows && c.seen[i] == RowOf(s.store, c.recipient, i + 1)
  }

  ghost predicate Inv(s: Sys) {
    && Contiguous(s.store) && Exclusive(s)
    && (forall a :: a in s.txs ==> TxOk(s, s.txs[a]))
    && (forall c :: c in s.clients ==> ClientOk(s, s.clients[c]))
  }

  /** The new lock is on a counter that nobody else holds. */
  lemma LockExclusive(s: Sys, tx: TxId)
    requires Exclusive(s) && Enabled(s, Lock(tx))
    ensures Exclusive(Step(s, Lock(tx)))
  {
    var t, t' := s.txs[tx], Step(s, Lock(tx)).txs[tx];
    forall b | b in s.txs && b != tx ensures !Held(s.txs[b], Wanted(t)) {
      assert !WaitsFor(s, tx, b);
    }
    assert forall r :: Held(t', r) ==> Held(t, r) || r == Wanted(t);
  }

  lemma LockedOk(s: Sys, t: Tx)
    requires TxOk(s, t) && Active(t)
    ensures TxOk(s, Locked(s.store, t))
  {
    assert t.script[..t.done + 1][..t.done] == t.script[..t.done];
  }

  lemma LockInv(s: Sys, tx: TxId)
    requires Inv(s) && Enabled(s, Lock(tx))
    ensures Inv(Step(s, Lock(tx)))
  {
    LockExclusive(s, tx);
    LockedOk(s, s.txs[tx]);
    forall a | a in s.txs && a != tx ensures TxOk(Step(s, Lock(tx)), s.txs[a]) {
      assert TxOk(s, s.txs[a]);
    }
    forall c | c in s.clients ensures ClientOk(Step(s, Lock(tx)), s.clients[c]) {
      assert ClientOk(s, s.clients[c]);
    }
  }

  /** A commit publishes what appending atomically at that moment would: the protocol refines `AppendAll`. */
  lemma CommitIsAtomicAppend(s: Sys, tx: TxId)
    requires Inv(s) && Enabled(s, Commit(tx))
    ensures Step(s, Commit(tx)).store == AppendAll(s.store, s.txs[tx].script)
  {
    var t := s.txs[tx];
    assert t.script[..t.done] == t.script;
    PlanIsAppend(s.store, t.script);
  }

  lemma CommitInv(s: Sys, tx: TxId)
    requires Inv(s) && Enabled(s, Commit(tx))
    ensures Inv(Step(s, Commit(tx)))
  {
    var t, s' := s.txs[tx], Step(s, Commit(tx));
    CommitIsAtomicAppend(s, tx);
    AppendAllContiguous(s.store, t.script);
    forall a | a in s'.txs ensures TxOk(s', s'.txs[a]) {
      var u := s.txs[a];
      forall i | 0 <= i < u.done ensures CounterOf(s.store, u.script[i].0) == CounterOf(s'.store, u.script[i].0) {
        var r := u.script[i].0;
        assert Held(u, r);
        CountAbsent(t.script, r, t.done);
        CounterAfter(s.store, t.script, r);
      }
      PlanFrame(s.store, s'.store, u.script[..u.done]);
    }
    forall c | c in s'.clients ensures ClientOk(s', s'.clients[c]) {
      CounterAfter(s.store, t.script, s.clients[c].recipient);
    }
  }

  lemma {:induction false} CountAbsent(script: Script, r: UserId, n: nat)
    requires n == |script| && forall i :: 0 <= i < n ==> script[i].0 != r
    ensures Count(script, r) == 0
  {
    if n > 0 {
      CountAbsent(script[..n - 1], r, n - 1);
    }
  }

  lemma PolledOk(s: Sys, c: Client, limit: nat)
    requires Contiguous(s.store) && ClientOk(s, c) && 1 <= limit <= 100
    ensures ClientOk(s, Polled(s.store, c, limit)) && Read(s.store, c.recipient, c.cursor, limit).Ok?
  {
    ReadContiguous(s.store, c.recipient, c.cursor, limit);
    var items, seen := Read(s.store, c.recipient, c.cursor, limit).value.items, Polled(s.store, c, limit).seen;
    forall i | 0 <= i < |seen|
        ensures seen[i] == RowOf(s.store, c.recipient, i + 1) && (c.recipient, i + 1) in s.store.rows {
      assert i >= |c.seen| ==> items[i - |c.seen|] == i + 1;
    }
  }

  lemma PollInv(s: Sys, c: ClientId, limit: nat)
    requires Inv(s) && Enabled(s, Poll(c, limit))
    ensures Inv(Step(s, Poll(c, limit)))
    ensures Read(s.store, s.clients[c].recipient, s.clients[c].cursor, limit).Ok?
  {
    PolledOk(s, s.clients[c], limit);
  }

  lemma StepInv(s: Sys, e: Event)
    requires Inv(s)
    ensures Inv(Step(s, e))
  {
    if Enabled(s, e) {
      match e
      case Lock(tx) => LockInv(s, tx);
      case Commit(tx) => CommitInv(s, tx);
      case Poll(c, limit) => PollInv(s, c, limit);
      case _ =>
    }
  }

  /** Whatever interleaves, rollbacks included: committed numbers are exactly 1..k for every recipient, and clients
      are exact. */
  lemma {:induction false} RunInv(es: seq<Event>)
    ensures Inv(Run(Empty, es))
  {
    if es != [] {
      RunInv(es[..|es| - 1]);
      StepInv(Run(Empty, es[..|es| - 1]), es[|es| - 1]);
    }
  }

  /** A poll that reports no more has delivered everything committed; one that reports more has advanced by the full
      limit. */
  lemma PollProgress(es: seq<Event>, c: ClientId, limit: nat)
    requires Enabled(Run(Empty, es), Poll(c, limit))
    ensures var s := Run(Empty, es);
            var before, after := s.clients[c], Step(s, Poll(c, limit)).clients[c];
            var page := Read(s.store, before.recipient, before.cursor, limit);
      && page.Ok?
      && (!page.value.more <==> after.cursor == CounterOf(s.store, before.recipient).last)
      && (page.value.more ==> after.cursor == before.cursor + limit)
      && before.seen <= after.seen
  {
    RunInv(es);
    ReadContiguous(Run(Empty, es).store, Run(Empty, es).clients[c].recipient, Run(Empty, es).clients[c].cursor, limit);
  }

  /** A committed row is never renumbered, replaced or withdrawn. */
  lemma {:induction false} RowsAreForEver(es: seq<Event>, more: seq<Event>, k: (UserId, nat))
    requires k in Run(Empty, es).store.rows
    ensures k in Run(Empty, es + more).store.rows && Run(Empty, es + more).store.rows[k] == Run(Empty, es).store.rows[k]
  {
    if more == [] {
      assert es + more == es;
    } else {
      var init := more[..|more| - 1];
      RowsAreForEver(es, init, k);
      assert (es + more)[..|es + more| - 1] == es + init;
      RunInv(es + init);
      var s, e := Run(Empty, es + init), more[|more| - 1];
      if Enabled(s, e) && e.Commit? {
        CommitIsAtomicAppend(s, e.tx);
        AppendAllContiguous(s.store, s.txs[e.tx].script);
      }
    }
  }

  // ---- deadlock ----

  /** Every transaction appends through one call, whose script lists its recipients in ascending order. */
  predicate Sorted(script: Script) {
    forall i, j :: 0 <= i < j < |script| ==> script[i].0 < script[j].0
  }

  ghost predicate AllSorted(s: Sys) { forall a :: a in s.txs ==> Sorted(s.txs[a].script) }

  lemma CallIsSorted(recipients: set<UserId>, m: Message)
    ensures Sorted(CallScript(recipients, m))
    ensures forall r :: r in recipients <==>
        exists i :: 0 <= i < |CallScript(recipients, m)| && CallScript(recipients, m)[i].0 == r
  {
    AscendingSorted(recipients);
    var script, order := CallScript(recipients, m), Ascending(recipients);
    forall r | r in recipients ensures exists i :: 0 <= i < |script| && script[i].0 == r {
      var i :| 0 <= i < |order| && order[i] == r;
      assert script[i].0 == r;
    }
  }

  /** Each transaction makes one append_notifications call. */
  ghost predicate OneCallEach(es: seq<Event>) {
    forall i :: 0 <= i < |es| && es[i].Begin? ==> exists recipients, m :: es[i].script == CallScript(recipients, m)
  }

  lemma {:induction false} CallsStaySorted(es: seq<Event>)
    requires OneCallEach(es)
    ensures AllSorted(Run(Empty, es))
  {
    if es != [] {
      CallsStaySorted(es[..|es| - 1]);
      var e := es[|es| - 1];
      if e.Begin? {
        var recipients, m :| e.script == CallScript(recipients, m);
        CallIsSorted(recipients, m);
      }
    }
  }

  lemma WaitingAscends(s: Sys, a: TxId, b: TxId)
    requires AllSorted(s) && WaitsFor(s, a, b) && Active(s.txs[b])
    ensures Wanted(s.txs[a]) < Wanted(s.txs[b])
  {
  }

  /** Each transaction of the chain waits for the next one. */
  ghost predicate Chain(s: Sys, c: seq<TxId>) {
    && (forall i :: 0 <= i < |c| ==> c[i] in s.txs)
    && forall i :: 0 <= i < |c| - 1 ==> WaitsFor(s, c[i], c[i + 1])
  }

  lemma {:induction false} ChainAscends(s: Sys, c: seq<TxId>)
    requires AllSorted(s) && |c| >= 1 && Chain(s, c) && Active(s.txs[c[|c| - 1]])
    ensures Active(s.txs[c[0]]) && Wanted(s.txs[c[0]]) <= Wanted(s.txs[c[|c| - 1]])
    ensures |c| > 1 ==> Wanted(s.txs[c[0]]) < Wanted(s.txs[c[|c| - 1]])
  {
    if |c| > 1 {
      var init := c[..|c| - 1];
      assert WaitsFor(s, c[|c| - 2], c[|c| - 1]);
      assert forall i :: 0 <= i < |init| - 1 ==> WaitsFor(s, init[i], init[i + 1]) by {
        assert forall i :: 0 <= i < |init| - 1 ==> WaitsFor(s, c[i], c[i + 1]);
      }
      ChainAscends(s, init);
      WaitingAscends(s, c[|c| - 2], c[|c| - 1]);
    }
  }

  /** No reachable wait-for graph has a cycle, for any number of transactions and recipients. */
  lemma NoDeadlock(es: seq<Event>, cycle: seq<TxId>)
    requires OneCallEach(es) && |cycle| >= 1
    ensures !(Chain(Run(Empty, es), cycle) && WaitsFor(Run(Empty, es), cycle[|cycle| - 1], cycle[0]))
  {
    var s := Run(Empty, es);
    CallsStaySorted(es);
    if Chain(s, cycle) && WaitsFor(s, cycle[|cycle| - 1], cycle[0]) {
      ChainAscends(s, cycle);
      WaitingAscends(s, cycle[|cycle| - 1], cycle[0]);
    }
  }

  lemma {:induction false} HighestWaiter(s: Sys, waiting: set<TxId>) returns (a: TxId)
    requires waiting != {} && forall x :: x in waiting ==> x in s.txs && Active(s.txs[x])
    ensures a in waiting && forall x :: x in waiting ==> Wanted(s.txs[x]) <= Wanted(s.txs[a])
    decreases |waiting|
  {
    a :| a in waiting;
    var rest := waiting - {a};
    assert waiting == rest + {a};
    if rest != {} {
      var b := HighestWaiter(s, rest);
      if Wanted(s.txs[a]) < Wanted(s.txs[b]) {
        a := b;
      }
    }
  }

  /** While any transaction is open, one of them can take its next lock or commit. */
  lemma SomeoneMoves(es: seq<Event>)
    requires OneCallEach(es) && Run(Empty, es).txs != map[]
    ensures exists a :: Enabled(Run(Empty, es), Lock(a)) || Enabled(Run(Empty, es), Commit(a))
  {
    var s := Run(Empty, es);
    CallsStaySorted(es);
    var waiting := set a | a in s.txs && Active(s.txs[a]);
    if waiting == {} {
      var a :| a in s.txs;
      assert a !in waiting;
      assert Enabled(s, Commit(a));
    } else {
      var a := HighestWaiter(s, waiting);
      if b :| WaitsFor(s, a, b) {
        if Active(s.txs[b]) {
          assert b in waiting;
          WaitingAscends(s, a, b);
        } else {
          assert Enabled(s, Commit(b));
        }
      } else {
        assert Enabled(s, Lock(a));
      }
    }
  }
}
