/** Per-recipient notification counters: appending under row locks and reading by cursor
    (infrastructure/notifications.py). */
module Notifications {
  import opened Common

  type UserId = nat

  datatype Message = Message(kind: string, resourceType: string, resource: nat)

  datatype Counter = Counter(last: nat, retainedAfter: nat)

  /** Committed counters and rows; a row's key is the unique pair (recipient, seq). */
  datatype Store = Store(counters: map<UserId, Counter>, rows: map<(UserId, nat), Message>)

  datatype Notice = Notice(recipient: UserId, number: nat, message: Message)

  type Script = seq<(UserId, Message)>

  function CounterOf(st: Store, r: UserId): Counter {
    if r in st.counters then st.counters[r] else Counter(0, 0)
  }

  function Put(st: Store, n: Notice): Store {
    Store(st.counters[n.recipient := Counter(n.number, CounterOf(st, n.recipient).retainedAfter)],
          st.rows[(n.recipient, n.number) := n.message])
  }

  function Append(st: Store, r: UserId, m: Message): Store {
    Put(st, Notice(r, CounterOf(st, r).last + 1, m))
  }

  /** Appends run one after the other with nothing in between: the specification the locking protocol refines. */
  function AppendAll(st: Store, script: Script): Store {
    if script == [] then st
    else var last := script[|script| - 1]; Append(AppendAll(st, script[..|script| - 1]), last.0, last.1)
  }

  /** Every recipient's numbers are exactly 1..counter, and nothing is trimmed. */
  ghost predicate Contiguous(st: Store) {
    && (forall r: UserId, n: nat :: (r, n) in st.rows <==> 1 <= n <= CounterOf(st, r).last)
    && (forall r :: r in st.counters ==> st.counters[r].retainedAfter == 0)
  }

  lemma AppendContiguous(st: Store, r: UserId, m: Message)
    requires Contiguous(st)
    ensures Contiguous(Append(st, r, m)) && (r, CounterOf(st, r).last + 1) !in st.rows
  {
  }

  // ---- the call that one transaction makes ----

  ghost function Least(s: set<nat>): (x: nat)
    requires s != {}
    ensures x in s && forall y :: y in s ==> x <= y
  {
    LeastExists(s);
    var x :| x in s && forall y :: y in s ==> x <= y; x
  }

  lemma LeastExists(s: set<nat>)
    requires s != {}
    ensures exists x :: x in s && forall y :: y in s ==> x <= y
  {
    var x := LeastElement(s);
  }

  lemma {:induction false} LeastElement(s: set<nat>) returns (x: nat)
    requires s != {}
    ensures x in s && forall y :: y in s ==> x <= y
    decreases |s|
  {
    x :| x in s;
    var rest := s - {x};
    assert s == rest + {x};
    if rest != {} {
      var z := LeastElement(rest);
      x := if x < z then x else z;
    }
  }

  ghost function Ascending(s: set<nat>): seq<nat> {
    if s == {} then [] else [Least(s)] + Ascending(s - {Least(s)})
  }

  lemma {:induction false} AscendingSorted(s: set<nat>)
    ensures forall x :: x in Ascending(s) <==> x in s
    ensures forall i, j :: 0 <= i < j < |Ascending(s)| ==> Ascending(s)[i] < Ascending(s)[j]
  {
    if s != {} {
      var tail := Ascending(s - {Least(s)});
      AscendingSorted(s - {Least(s)});
      assert Ascending(s) == [Least(s)] + tail;
      assert forall i :: 0 <= i < |tail| ==> tail[i] in s - {Least(s)};
    }
  }

  /** The lock order of one `append_notifications` call. */
  ghost function CallScript(recipients: set<UserId>, m: Message): Script {
    var order := Ascending(recipients);
    seq(|order|, i requires 0 <= i < |order| => (order[i], m))
  }

  lemma CallStep(rest: set<UserId>, m: Message)
    requires rest != {}
    ensures CallScript(rest, m) == [(Least(rest), m)] + CallScript(rest - {Least(rest)}, m)
  {
    assert Ascending(rest) == [Least(rest)] + Ascending(rest - {Least(rest)});
  }

  /** One more locked append, on the store and on the rows returned. */
  lemma AppendStep(st: Store, script: Script, r: UserId, m: Message)
    ensures AppendAll(st, script + [(r, m)]) == Append(AppendAll(st, script), r, m)
    ensures Plan(st, script + [(r, m)])
      == Plan(st, script) + [Notice(r, CounterOf(AppendAll(st, script), r).last + 1, m)]
  {
    assert (script + [(r, m)])[..|script|] == script;
    CounterAfter(st, script, r);
  }

  class NotificationStore {
    var counters: map<UserId, Counter>
    var rows: map<(UserId, nat), Message>

    ghost function View(): Store
      reads this
    {
      Store(counters, rows)
    }

    constructor ()
      ensures View() == Store(map[], map[])
    {
      counters, rows := map[], map[];
    }

    /** One recipient: the counter is created when missing, then locked, incremented and used for the row. */
    method AppendRow(recipient: UserId, m: Message) returns (number: nat)
      modifies this
      ensures View() == Append(old(View()), recipient, m) && number == CounterOf(old(View()), recipient).last + 1
    {
      if recipient !in counters {
        counters := counters[recipient := Counter(0, 0)];
      }
      number := counters[recipient].last + 1;
      counters := counters[recipient := Counter(number, counters[recipient].retainedAfter)];
      rows := rows[(recipient, number) := m];
    }

    method AppendNotifications(recipients: set<UserId>, m: Message) returns (result: seq<Notice>)
      modifies this
      ensures View() == AppendAll(old(View()), CallScript(recipients, m))
      ensures result == Plan(old(View()), CallScript(recipients, m))
    {
      result := [];
      var rest := recipients;
      ghost var script: Script := [];
      while rest != {}
        invariant script + CallScript(rest, m) == CallScript(recipients, m)
        invariant View() == AppendAll(old(View()), script)
        invariant result == Plan(old(View()), script)
      {
        LeastExists(rest);
        var recipient :| recipient in rest && forall y :: y in rest ==> recipient <= y;
        assert recipient == Least(rest);
        CallStep(rest, m);
        AppendStep(old(View()), script, recipient, m);
        var number := AppendRow(recipient, m);
        result := result + [Notice(recipient, number, m)];
        rest := rest - {recipient};
        script := script + [(recipient, m)];
      }
      assert script == CallScript(recipients, m);
    }
  }

  // ---- reading by cursor ----

  datatype Page = Page(items: seq<nat>, next: nat, more: bool)

  /** The numbers `WHERE recipient AND seq > after ORDER BY seq LIMIT count` selects. */
  ghost function Select(st: Store, r: UserId, after: nat, count: nat): seq<nat>
    decreases count
  {
    var numbers := set k | k in st.rows && k.0 == r && k.1 > after :: k.1;
    if count == 0 || numbers == {} then [] else [Least(numbers)] + Select(st, r, Least(numbers), count - 1)
  }

  ghost function Read(st: Store, r: UserId, after: int, limit: int): Result<Page> {
    if after < 0 || !(1 <= limit <= 100) then Err(AppError(400, "INVALID_CURSOR"))
    else if after > 0 && (r !in st.counters || after > st.counters[r].last) then Err(AppError(400, "INVALID_CURSOR"))
    else if r in st.counters && after > 0 && after < st.counters[r].retainedAfter then
        Err(AppError(410, "CURSOR_EXPIRED"))
    else
      Ok(Paged(Select(st, r, after, limit + 1), after, limit))
  }

  function Paged(rows: seq<nat>, after: nat, limit: nat): Page {
    var items := if |rows| > limit then rows[..limit] else rows;
    Page(items, if items == [] then after else items[|items| - 1], |rows| > limit)
  }

  /** The `count` numbers that follow `after`. */
  function Numbers(after: nat, count: nat): (r: seq<nat>)
    ensures |r| == count && (forall i :: 0 <= i < count ==> r[i] == after + 1 + i)
    decreases count
  {
    if count == 0 then [] else [after + 1] + Numbers(after + 1, count - 1)
  }

  function Min(a: nat, b: nat): nat { if a < b then a else b }

  lemma {:induction false} SelectContiguous(st: Store, r: UserId, after: nat, count: nat)
    requires Contiguous(st) && after <= CounterOf(st, r).last
    ensures Select(st, r, after, count) == Numbers(after, Min(count, CounterOf(st, r).last - after))
    decreases count
  {
    var numbers := set k | k in st.rows && k.0 == r && k.1 > after :: k.1;
    if count > 0 && after < CounterOf(st, r).last {
      assert (r, after + 1) in st.rows;
      assert after + 1 in numbers;
      assert Least(numbers) == after + 1;
      SelectContiguous(st, r, after + 1, count - 1);
    } else if count > 0 {
      assert numbers == {};
    }
  }

  /** On a contiguous store a cursor up to the counter is always accepted and yields the next numbers without a gap. */
  lemma ReadContiguous(st: Store, r: UserId, after: nat, limit: nat)
    requires Contiguous(st) && after <= CounterOf(st, r).last && 1 <= limit <= 100
    ensures var got := Min(limit, CounterOf(st, r).last - after);
            Read(st, r, after, limit) == Ok(Page(Numbers(after, got), after + got,
                after + limit < CounterOf(st, r).last))
  {
    var left: nat := CounterOf(st, r).last - after;
    SelectContiguous(st, r, after, limit + 1);
    ReadRows(st, r, after, limit, Numbers(after, Min(limit + 1, left)));
    PagedNumbers(after, left, limit);
  }

  lemma ReadRows(st: Store, r: UserId, after: nat, limit: nat, rows: seq<nat>)
    requires forall k :: k in st.counters ==> st.counters[k].retainedAfter == 0
    requires after <= CounterOf(st, r).last && 1 <= limit <= 100 && Select(st, r, after, limit + 1) == rows
    ensures Read(st, r, after, limit) == Ok(Paged(rows, after, limit))
  {
  }

  lemma PagedNumbers(after: nat, left: nat, limit: nat)
    requires limit >= 1
    ensures Paged(Numbers(after, Min(limit + 1, left)), after, limit)
      == Page(Numbers(after, Min(limit, left)), after + Min(limit, left), limit < left)
  {
    NumbersPrefix(after, Min(limit, left), Min(limit + 1, left));
  }

  lemma NumbersPrefix(after: nat, n: nat, m: nat)
    requires n <= m
    ensures Numbers(after, m)[..n] == Numbers(after, n)
  {
  }

  // ---- what a transaction writes, given the counters it read under lock ----

  function Count(script: Script, r: UserId): nat {
    if script == [] then 0
    else Count(script[..|script| - 1], r) + if script[|script| - 1].0 == r then 1 else 0
  }

  function Plan(st: Store, script: Script): seq<Notice> {
    if script == [] then []
    else
      var init, last := script[..|script| - 1], script[|script| - 1];
      Plan(st, init) + [Notice(last.0, CounterOf(st, last.0).last + Count(init, last.0) + 1, last.1)]
  }

  function PutAll(st: Store, notices: seq<Notice>): Store {
    if notices == [] then st else Put(PutAll(st, notices[..|notices| - 1]), notices[|notices| - 1])
  }

  lemma {:induction false} CounterAfter(st: Store, script: Script, r: UserId)
    ensures CounterOf(AppendAll(st, script), r).last == CounterOf(st, r).last + Count(script, r)
    ensures CounterOf(AppendAll(st, script), r).retainedAfter == CounterOf(st, r).retainedAfter
  {
    if script != [] {
      CounterAfter(st, script[..|script| - 1], r);
    }
  }

  /** Writing the planned rows at commit is the same as appending one by one at that moment. */
  lemma {:induction false} PlanIsAppend(st: Store, script: Script)
    ensures PutAll(st, Plan(st, script)) == AppendAll(st, script)
  {
    if script != [] {
      var init := script[..|script| - 1];
      PlanIsAppend(st, init);
      CounterAfter(st, init, script[|script| - 1].0);
      assert Plan(st, script)[..|Plan(st, script)| - 1] == Plan(st, init);
    }
  }

  lemma {:induction false} PlanFrame(st: Store, st': Store, script: Script)
    requires forall i :: 0 <= i < |script| ==> CounterOf(st, script[i].0) == CounterOf(st', script[i].0)
    ensures Plan(st, script) == Plan(st', script)
  {
    if script != [] {
      PlanFrame(st, st', script[..|script| - 1]);
    }
  }

  lemma {:induction false} AppendAllContiguous(st: Store, script: Script)
    requires Contiguous(st)
    ensures Contiguous(AppendAll(st, script))
    ensures forall k :: k in st.rows ==> k in AppendAll(st, script).rows && AppendAll(st, script).rows[k] == st.rows[k]
  {
    if script != [] {
      AppendAllContiguous(st, script[..|script| - 1]);
      AppendContiguous(AppendAll(st, script[..|script| - 1]), script[|script| - 1].0, script[|script| - 1].1);
    }
  }
}
