/** Observation events a learner's device sends in batches, and sends again when unsure
    (modules/training/service.py). */
module Observations {
  import opened Common
  import Training

  type EventId = nat

  /** `at` is None when the timestamp carries no time zone. */
  datatype Event = Event(id: EventId, session: nat, step: Training.StepId, sequence: int, kind: string, value: int,
      at: Option<int>)

  /** A stored row: the event under its task and revision. */
  datatype Row = Row(task: nat, revision: nat, event: Event)

  type Table = map<EventId, Row>

  datatype Tally = Tally(table: Table, accepted: nat, duplicates: nat)

  /** One event of a batch: refused, stored, or recognised as already stored. */
  function RecordOne(t: Tally, task: nat, revision: nat, allowed: set<Training.StepId>, e: Event): Result<Tally> {
    if e.step !in allowed then Err(AppError(422, "INVALID_STEP"))
    else if e.at.None? then Err(AppError(422, "INVALID_TIMESTAMP"))
    else if e.id !in t.table then Ok(Tally(t.table[e.id := Row(task, revision, e)], t.accepted + 1, t.duplicates))
    else if t.table[e.id] != Row(task, revision, e) then Err(Conflict("EVENT_ID_REUSED"))
    else Ok(t.(duplicates := t.duplicates + 1))
  }

  function RecordAll(table: Table, task: nat, revision: nat, allowed: set<Training.StepId>,
                     events: seq<Event>): Result<Tally> {
    if events == [] then Ok(Tally(table, 0, 0))
    else
      var before := RecordAll(table, task, revision, allowed, events[..|events| - 1]);
      if before.Err? then before else RecordOne(before.value, task, revision, allowed, events[|events| - 1])
  }

  /** Well-formed for the task, and no identifier stands for two different events. */
  ghost predicate Acceptable(table: Table, task: nat, revision: nat, allowed: set<Training.StepId>,
                             events: seq<Event>) {
    && (forall i :: 0 <= i < |events| ==> events[i].step in allowed && events[i].at.Some?)
    && (forall i :: 0 <= i < |events| && events[i].id in table ==>
        table[events[i].id] == Row(task, revision, events[i]))
    && forall i, j :: 0 <= i < j < |events| && events[i].id == events[j].id ==> events[i] == events[j]
  }

  /** Every event is stored and nothing stored before has changed. */
  ghost predicate Holds(table: Table, task: nat, revision: nat, events: seq<Event>) {
    forall i :: 0 <= i < |events| ==> events[i].id in table && table[events[i].id] == Row(task, revision, events[i])
  }

  ghost predicate Extends(table: Table, after: Table) {
    forall id :: id in table ==> id in after && after[id] == table[id]
  }

  /** Each event is counted once, as new or as a duplicate, and the table grows by the new ones. */
  lemma {:induction false} Recorded(table: Table, task: nat, revision: nat, allowed: set<Training.StepId>,
                                    events: seq<Event>)
    requires RecordAll(table, task, revision, allowed, events).Ok?
    ensures var t := RecordAll(table, task, revision, allowed, events).value;
      && Extends(table, t.table) && Holds(t.table, task, revision, events)
      && t.accepted + t.duplicates == |events| && |t.table| == |table| + t.accepted
  {
    if events != [] {
      var init, last := events[..|events| - 1], events[|events| - 1];
      Recorded(table, task, revision, allowed, init);
      var before := RecordAll(table, task, revision, allowed, init).value;
      OneRecorded(before, task, revision, allowed, last);
      assert RecordOne(before, task, revision, allowed, last) == RecordAll(table, task, revision, allowed, events);
      OneMore(table, before, RecordAll(table, task, revision, allowed, events).value, task, revision, init, last);
      assert init + [last] == events;
    }
  }

  lemma OneMore(table: Table, before: Tally, after: Tally, task: nat, revision: nat, init: seq<Event>, last: Event)
    requires Extends(table, before.table) && Holds(before.table, task, revision, init)
        && Extends(before.table, after.table)
    requires after.table == before.table[last.id := Row(task, revision, last)]
    ensures Extends(table, after.table) && Holds(after.table, task, revision, init + [last])
  {
    assert last.id in before.table ==> before.table[last.id] == Row(task, revision, last);
    HoldsAppend(before.table, task, revision, init, last);
  }

  lemma OneRecorded(t: Tally, task: nat, revision: nat, allowed: set<Training.StepId>, e: Event)
    requires RecordOne(t, task, revision, allowed, e).Ok?
    ensures var after := RecordOne(t, task, revision, allowed, e).value;
      && after.table == t.table[e.id := Row(task, revision, e)] && Extends(t.table, after.table)
      && after.accepted + after.duplicates == t.accepted + t.duplicates + 1
      && |after.table| - |t.table| == after.accepted - t.accepted
  {
  }

  lemma HoldsAppend(table: Table, task: nat, revision: nat, init: seq<Event>, last: Event)
    requires Holds(table, task, revision, init) && (last.id in table ==> table[last.id] == Row(task, revision, last))
    ensures Holds(table[last.id := Row(task, revision, last)], task, revision, init + [last])
  {
  }

  /** Nothing is stored but the batch. */
  lemma {:induction false} OnlyTheBatch(table: Table, task: nat, revision: nat, allowed: set<Training.StepId>,
                                        events: seq<Event>, id: EventId)
    requires RecordAll(table, task, revision, allowed, events).Ok?
        && id in RecordAll(table, task, revision, allowed, events).value.table
    ensures id in table || exists i :: 0 <= i < |events| && events[i].id == id
  {
    if events != [] {
      var init, last := events[..|events| - 1], events[|events| - 1];
      if id == last.id {
        assert events[|events| - 1].id == id;
      } else {
        OnlyTheBatch(table, task, revision, allowed, init, id);
        if i :| 0 <= i < |init| && init[i].id == id { assert events[i].id == id; }
      }
    }
  }

  /** The last event fits the table and the events before it. */
  ghost predicate Fits(table: Table, task: nat, revision: nat, allowed: set<Training.StepId>, init: seq<Event>,
                       last: Event) {
    && last.step in allowed && last.at.Some? && (last.id in table ==> table[last.id] == Row(task, revision, last))
    && forall i :: 0 <= i < |init| && init[i].id == last.id ==> init[i] == last
  }

  lemma AcceptableAppend(table: Table, task: nat, revision: nat, allowed: set<Training.StepId>, init: seq<Event>,
                         last: Event)
    ensures Acceptable(table, task, revision, allowed, init + [last])
      <==> Acceptable(table, task, revision, allowed, init) && Fits(table, task, revision, allowed, init, last)
  {
    var all := init + [last];
    assert forall i :: 0 <= i < |init| ==> all[i] == init[i];
    assert all[|init|] == last;
  }

  lemma FitsIsRecorded(table: Table, task: nat, revision: nat, allowed: set<Training.StepId>, init: seq<Event>,
                       last: Event)
    requires RecordAll(table, task, revision, allowed, init).Ok?
    ensures Fits(table, task, revision, allowed, init, last)
      <==> RecordOne(RecordAll(table, task, revision, allowed, init).value, task, revision, allowed, last).Ok?
  {
    Recorded(table, task, revision, allowed, init);
    if last.id in RecordAll(table, task, revision, allowed, init).value.table {
      OnlyTheBatch(table, task, revision, allowed, init, last.id);
    }
  }

  /** A batch is refused exactly when an event is malformed or an identifier is reused with other values. */
  lemma {:induction false} RecordedIffAcceptable(table: Table, task: nat, revision: nat, allowed: set<Training.StepId>,
      events: seq<Event>)
    ensures RecordAll(table, task, revision, allowed, events).Ok? <==>
        Acceptable(table, task, revision, allowed, events)
  {
    if events != [] {
      var init, last := events[..|events| - 1], events[|events| - 1];
      RecordedIffAcceptable(table, task, revision, allowed, init);
      assert events == init + [last];
      AcceptableAppend(table, task, revision, allowed, init, last);
      if RecordAll(table, task, revision, allowed, init).Ok? {
        FitsIsRecorded(table, task, revision, allowed, init, last);
      }
    }
  }

  /** Sending a stored batch again, later and whatever else was stored since, accepts nothing new and changes
      nothing. */
  lemma {:induction false} ResendIsHarmless(later: Table, task: nat, revision: nat, allowed: set<Training.StepId>,
                                            events: seq<Event>)
    requires Holds(later, task, revision, events) && forall i :: 0 <= i < |events| ==>
        events[i].step in allowed && events[i].at.Some?
    ensures RecordAll(later, task, revision, allowed, events) == Ok(Tally(later, 0, |events|))
  {
    if events != [] {
      assert events == events[..|events| - 1] + [events[|events| - 1]];
      ResendIsHarmless(later, task, revision, allowed, events[..|events| - 1]);
    }
  }

  class EventStore {
    var table: Table

    constructor ()
      ensures table == map[]
    {
      table := map[];
    }

    /** An error rolls back what the batch had stored. */
    method Record(running: bool, access: Access, task: nat, revision: nat, allowed: set<Training.StepId>,
                  events: seq<Event>)
      returns (r: Result<(nat, nat)>)
      modifies this
      ensures access.Locked().Fail? ==> r == Err(access.Locked().error)
      ensures access.Locked().Pass? && !access.learner ==> r == Err(Forbidden())
      ensures access.Locked().Pass? && access.learner && !running ==> r == Err(Conflict("TASK_NOT_RUNNING"))
      ensures access.Locked().Pass? && access.learner && running ==>
          var all := RecordAll(old(table), task, revision, allowed, events);
          if all.Ok? then table == all.value.table && r == Ok((all.value.accepted, all.value.duplicates))
              else r == Err(all.error)
      ensures r.Err? ==> table == old(table)
    {
      var check := access.Locked();
      if check.Fail? { return Err(check.error); }
      check := access.RequireLearner();
      if check.Fail? { return Err(check.error); }
      if !running { return Err(Conflict("TASK_NOT_RUNNING")); }
      var before := table;
      var accepted, duplicates, i := 0, 0, 0;
      while i < |events|
        invariant 0 <= i <= |events|
        invariant RecordAll(before, task, revision, allowed, events[..i]) == Ok(Tally(table, accepted, duplicates))
      {
        var e := events[i];
        assert events[..i + 1][..i] == events[..i];
        var one := RecordOne(Tally(table, accepted, duplicates), task, revision, allowed, e);
        if one.Err? {
          table := before;
          ErrorStays(before, task, revision, allowed, events, i + 1);
          return Err(one.error);
        }
        if e.id !in table {
          table := table[e.id := Row(task, revision, e)];
          accepted := accepted + 1;
        } else {
          duplicates := duplicates + 1;
        }
        i := i + 1;
      }
      assert events[..i] == events;
      r := Ok((accepted, duplicates));
    }
  }

  /** The first refused event decides the batch's error. */
  lemma {:induction false} ErrorStays(table: Table, task: nat, revision: nat, allowed: set<Training.StepId>,
                                      events: seq<Event>, n: nat)
    requires n <= |events| && RecordAll(table, task, revision, allowed, events[..n]).Err?
    ensures RecordAll(table, task, revision, allowed, events) == RecordAll(table, task, revision, allowed, events[..n])
  {
    if n < |events| {
      assert events[..|events| - 1][..n] == events[..n];
      ErrorStays(table, task, revision, allowed, events[..|events| - 1], n);
    } else {
      assert events[..n] == events;
    }
  }
}
