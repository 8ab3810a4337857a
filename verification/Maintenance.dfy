/**
 A maintenance poll and an ownership check as they run. `others` lists what everyone else
 does at each await, and the ghost `log` records every step as an action of `Ownership`,
 so what is proved there for all interleavings holds here.
 */
module Maintenance {
  import opened Git
  import opened Ownership

  predicate ActsAs(a: Action, i: nat) {
    match a
    case Load(j) => i == j
    case Look(j, _, _, _, _) => i == j
    case Save(j, _, _) => i == j
    case ReadAgain(j) => i == j
    case Confirm(j, _, _) => i == j
    case Abandon(j) => i == j
    case Fail(j, _, _) => i == j
    case _ => false
  }

  lemma OthersLeave(w: World, a: Action, i: nat)
    requires Enabled(w, a) && !ActsAs(a, i)
    ensures PollerOf(Do(w, a), i) == PollerOf(w, i)
  {
    hide Judge, NewRecord;
  }

  lemma AdoptedIsFixed(w: World, a: Action)
    requires Enabled(w, a)
    ensures Do(w, a).adopted == w.adopted
  {
    hide Judge, NewRecord;
  }

  /** What one poll learns outside the store; `completed`: the process and the labels of an ended binding are done with. */
  datatype Reading = Reading(deleted: bool, completed: bool, fails: bool, work: nat, live: bool, detail: nat, observed: nat)

  function LabelsRead(w: World, deleted: bool): Option<Labels> {
    if deleted then None else Some(Labels(w.events[..|w.events|], w.request, w.active, false))
  }

  // ---------------------------------------------------------------- the end of an undisturbed poll

  function StatusOf(store: Store, key: string): Status {
    if key in store.records then store.records[key].status else Active
  }

  /** Where the history of this activation begins: fixed by its record, by an older receipt, or by the log now. */
  function Boundary(w: World, key: string, deleted: bool): nat {
    if key in w.store.records then w.store.records[key].after
    else if w.adopted.Some? then w.adopted.value
    else if deleted || w.events == [] then 0 else w.events[|w.events| - 1].id
  }

  /** The active label was taken away after the boundary, or it is gone although it was touched or written since. */
  predicate LabelGone(w: World, after: nat) {
    || (exists i :: 0 <= i < |w.events| && w.events[i].Removed? && w.events[i].id > after)
    || (!w.active && (w.recorded || exists i :: 0 <= i < |w.events| && w.events[i].Added? && w.events[i].id > after))
  }

  /** Nothing about this binding is looked at any more. */
  predicate Skipped(w: World, key: string, reading: Reading) {
    StatusOf(w.store, key) == Deleted || (StatusOf(w.store, key) != Active && reading.completed)
  }

  /** How a binding that is looked at ends. */
  predicate Verdict(w: World, key: string, reading: Reading, status: Status) {
    && (status == Deleted <==> reading.deleted)
    && (!reading.deleted && StatusOf(w.store, key) != Active ==> status == StatusOf(w.store, key))
    && (!reading.deleted && StatusOf(w.store, key) == Active ==>
          && (status == Merged <==> w.request == RequestMerged)
          && (status == Closed <==> w.request == RequestClosed)
          && (status == Stopped <==> w.request == Opened && (!w.store.live || LabelGone(w, Boundary(w, key, reading.deleted))))
          && (status == Active <==> w.request == Opened && w.store.live && !LabelGone(w, Boundary(w, key, reading.deleted))))
  }

  /** The poll ended an activation, so the process may have been completed with it. */
  predicate Ends(w: World, key: string, reading: Reading, status: Status) {
    reading.deleted || (StatusOf(w.store, key) == Active && status != Active)
  }

  /** What an undisturbed poll leaves: the verdict under the same boundary, and every other record as it was. */
  predicate Polled(w: World, key: string, reading: Reading, store: Store) {
    if Skipped(w, key, reading) then store == w.store
    else
      && key in store.records
      && store.records == w.store.records[key := store.records[key]]
      && store.records[key].after == Boundary(w, key, reading.deleted)
      && Verdict(w, key, reading, store.records[key].status)
      && store.live == if Ends(w, key, reading, store.records[key].status) then reading.live else w.store.live
  }

  /** What an ownership check looks for; the label of a binding that was never recorded is written by the check. */
  predicate MayWrite(w: World, key: string) {
    var after := Boundary(w, key, false);
    && w.store.live && StatusOf(w.store, key) == Active && w.request == Opened
    && (forall i :: 0 <= i < |w.events| && w.events[i].Removed? ==> w.events[i].id <= after)
    && (w.active || (key !in w.store.records && !w.recorded
                     && forall i :: 0 <= i < |w.events| && w.events[i].Added? ==> w.events[i].id <= after))
  }

  /** A check that passes changes nothing but adopt a binding without a record, and give it the label. */
  predicate Adopted(w: World, key: string, t: World) {
    if key in w.store.records then t == w
    else t == w.(
      store := w.store.(records := w.store.records[key := Record(Boundary(w, key, false), Active, 0)]),
      recorded := true, active := true, events := w.events + if w.active then [] else [Added(LastId(w.events) + 1)])
  }

  lemma Judgement(w: World, key: string, reading: Reading)
    requires !Skipped(w, key, reading)
    ensures var r := Judge(w.store, key, w.adopted, w.recorded, LabelsRead(w, reading.deleted), reading.detail);
            r.after == Boundary(w, key, reading.deleted) && Verdict(w, key, reading, r.status)
  {
    assert w.events[..|w.events|] == w.events;
  }

  predicate Saving(w: World, key: string, reading: Reading, record: Record, saved: Store) {
    && saved.records == w.store.records[key := record]
    && saved.live == if Ends(w, key, reading, record.status) then reading.live else w.store.live
  }

  lemma SkippedIsPolled(w: World, key: string, reading: Reading)
    requires Skipped(w, key, reading)
    ensures Polled(w, key, reading, w.store) && (Lost(w, key) ==> Ended(w.store, key))
  {
  }

  lemma SameLabels(w: World, i: nat, p: Poller, deleted: bool)
    ensures LabelsRead(Put(w, i, p), deleted) == LabelsRead(w, deleted)
  {
  }

  /** The two writes of a poll leave its verdict. */
  lemma WritesLeaveVerdict(w: World, key: string, reading: Reading, record: Record, saved: Store, store: Store)
    requires !Skipped(w, key, reading) && record.after == Boundary(w, key, reading.deleted) && Verdict(w, key, reading, record.status)
    requires Saving(w, key, reading, record, saved) && OnlyDetail(saved, key, store)
    ensures Polled(w, key, reading, store)
  {
    hide Verdict, LabelGone, Boundary;
  }

  /** A removal in the log ends the record; a healthy binding keeps it. */
  lemma PollEnds(w: World, key: string, reading: Reading, store: Store)
    requires Polled(w, key, reading, store)
    ensures Lost(w, key) ==> Ended(store, key)
    ensures Thriving(w, key) && !reading.deleted ==> HasStatus(store, key, Active)
  {
  }

  predicate Thriving(w: World, key: string) {
    && HasStatus(w.store, key, Active)
    && w.request == Opened && w.active && !Removal(w.events, w.store.records[key].after)
  }

  predicate Ended(store: Store, key: string) {
    key in store.records && store.records[key].status != Active
  }

  class Server {
    /** The process store, the forge, and how far every poller is. */
    var world: World
    ghost const origin: World
    ghost var log: seq<Action>

    ghost predicate Valid()
      reads this
    {
      Inv(origin) && Legal(origin, log) && After(origin, log) == world
    }

    constructor (w: World)
      requires Inv(w)
      ensures Valid() && world == w && log == []
    {
      world, origin, log := w, w, [];
    }

    method Step(a: Action)
      requires Valid() && Enabled(world, a)
      modifies this
      ensures Valid() && world == Do(old(world), a) && log == old(log) + [a]
    {
      hide Enabled, Do, Inv;
      Extend(origin, log, a);
      world, log := Do(world, a), log + [a];
    }

    /** Everyone else, other pollers and workers included, acts as far as it can. */
    method Meanwhile(i: nat, others: seq<Action>)
      requires Valid()
      modifies this
      ensures Valid() && old(log) <= log
      ensures PollerOf(world, i) == old(PollerOf(world, i))
      ensures world.adopted == old(world).adopted && old(world).events <= world.events
      ensures others == [] ==> world == old(world)
    {
      hide Valid, Enabled, Do, PollerOf;
      for n := 0 to |others|
        invariant Valid() && old(log) <= log
        invariant PollerOf(world, i) == old(PollerOf(world, i))
        invariant world.adopted == old(world).adopted && old(world).events <= world.events
        invariant n == 0 ==> world == old(world)
      {
        if Enabled(world, others[n]) && !ActsAs(others[n], i) {
          OthersLeave(world, others[n], i);
          AdoptedIsFixed(world, others[n]);
          StepAppends(world, others[n]);
          Step(others[n]);
        }
      }
    }

    method LoadSnapshot(i: nat) returns (process: Store)
      requires Valid() && PollerOf(world, i) == Resting
      modifies this
      ensures Valid() && old(log) <= log
      ensures process == old(world).store && world == Put(old(world), i, Loaded(process))
    {
      hide Valid;
      process := world.store;
      Step(Load(i));
    }

    method JudgeBinding(i: nat, key: string, process: Store, reading: Reading) returns (record: Record)
      requires Valid() && PollerOf(world, i) == Loaded(process)
      modifies this
      ensures Valid() && old(log) <= log
      ensures record == Judge(process, key, old(world).adopted, old(world).recorded, LabelsRead(old(world), reading.deleted), reading.detail)
      ensures world == Put(old(world), i, Judged(key, process, record))
    {
      hide Valid, Judge;
      record := Judge(process, key, world.adopted, world.recorded, LabelsRead(world, reading.deleted), reading.detail);
      Step(Look(i, key, |world.events|, reading.deleted, reading.detail));
    }

    /** `applyProcessObservation` on behalf of a poller's first write. */
    method SaveRecord(i: nat, key: string, expected: Store, record: Record, work: nat, live: bool) returns (ok: bool)
      requires Valid() && PollerOf(world, i) == Judged(key, expected, record)
      modifies this
      ensures Valid() && old(log) <= log && ok == (old(world).store == expected)
      ensures ok ==> world == Put(old(world).(store := Store(work, live, expected.records[key := record])), i, Saved(key, record))
      ensures !ok ==> world == Put(old(world), i, Resting)
    {
      hide Valid;
      ok := world.store == expected;
      Step(Save(i, work, live));
    }

    method LoadAgain(i: nat, key: string, record: Record) returns (again: Store)
      requires Valid() && PollerOf(world, i) == Saved(key, record)
      modifies this
      ensures Valid() && old(log) <= log
      ensures again == old(world).store && world == Put(old(world), i, Reread(key, again, record))
    {
      hide Valid;
      again := world.store;
      Step(ReadAgain(i));
    }

    /** The second write, conditional on the snapshot that was read again. */
    method ConfirmRecord(i: nat, key: string, again: Store, record: Record, work: nat, detail: nat) returns (ok: bool)
      requires Valid() && PollerOf(world, i) == Reread(key, again, record) && record.status == Active && again.live
      modifies this
      ensures Valid() && old(log) <= log && ok == (old(world).store == again) && PollerOf(world, i) == Resting
      ensures world.store ==
                if ok then again.(work := work, records := again.records[key := record.(detail := detail)]) else old(world).store
    {
      hide Valid;
      ok := world.store == again;
      Step(Confirm(i, work, detail));
    }

    method GiveUp(i: nat)
      requires Valid()
      modifies this
      ensures Valid() && old(log) <= log && world == Put(old(world), i, Resting)
    {
      hide Valid;
      Step(Abandon(i));
    }

    /** An exception after the first write: only the record's detail changes. */
    method RecordFailure(i: nat, key: string, detail: nat)
      requires Valid()
      modifies this
      ensures Valid() && old(log) <= log && PollerOf(world, i) == Resting
      ensures key in old(world).store.records ==>
                world.store == old(world).store.(records := old(world).store.records[key := old(world).store.records[key].(detail := detail)])
      ensures key !in old(world).store.records ==> world.store == old(world).store
    {
      hide Valid;
      Step(Fail(i, key, detail));
    }

    /** After the first write: read again, look at the request, and confirm or note the failure. */
    method ObserveBinding(i: nat, key: string, record: Record, reading: Reading, first: seq<Action>, second: seq<Action>)
      requires Valid() && PollerOf(world, i) == Saved(key, record)
      modifies this
      ensures Valid() && old(log) <= log && PollerOf(world, i) == Resting
      ensures first == [] && second == [] && Holds(old(world).store, key, record) ==> OnlyDetail(old(world).store, key, world.store)
    {
      hide Valid, Enabled, Do;
      Meanwhile(i, first);
      var again := LoadAgain(i, key, record);
      if record.status != Active || !again.live {
        GiveUp(i);
        return;
      }
      Meanwhile(i, second);
      if reading.fails {
        RecordFailure(i, key, reading.observed);
      } else {
        var _ := ConfirmRecord(i, key, again, record, again.work, reading.observed);
      }
    }

    /** Load, look and save, conditional on what was loaded. */
    method FirstWrite(i: nat, key: string, reading: Reading, others: seq<Action>) returns (ok: bool, record: Record)
      requires Valid() && PollerOf(world, i) == Resting
      modifies this
      ensures Valid() && old(log) <= log
      ensures PollerOf(world, i) == if ok then Saved(key, record) else Resting
      ensures ok ==> Holds(world.store, key, record)
      ensures others == [] ==> (ok <==> !Skipped(old(world), key, reading))
      ensures others == [] && !ok ==> world.store == old(world).store
      ensures others == [] && ok ==>
                && record.after == Boundary(old(world), key, reading.deleted) && Verdict(old(world), key, reading, record.status)
                && Saving(old(world), key, reading, record, world.store)
    {
      hide Valid, Enabled, Do, Judge, Verdict, Boundary, LabelsRead;
      ghost var w := world;
      record := Record(0, Active, 0);
      var process := LoadSnapshot(i);
      if key in process.records
         && (process.records[key].status == Deleted || (process.records[key].status != Active && reading.completed)) {
        GiveUp(i);
        ok := false;
        return;
      }
      Judgement(w, key, reading);
      SameLabels(w, i, Loaded(process), reading.deleted);
      Meanwhile(i, others);
      record := JudgeBinding(i, key, process, reading);
      var stopped := reading.deleted || (record.status != Active && (key in process.records ==> process.records[key].status == Active));
      ok := SaveRecord(
        i, key, process, record, if stopped then reading.work else process.work, if stopped then reading.live else process.live);
    }

    /**
     One poll of one binding. Undisturbed, it ends the record exactly when the request was
     deleted, merged or closed, the process is over or the label is gone, each with its own
     status, and changes nothing else.
     */
    method PollBinding(i: nat, key: string, reading: Reading, others: seq<seq<Action>>)
      requires Valid() && PollerOf(world, i) == Resting && |others| == 3
      modifies this
      ensures Valid() && old(log) <= log && PollerOf(world, i) == Resting
      ensures others == [[], [], []] ==> Polled(old(world), key, reading, world.store)
      ensures others == [[], [], []] && Lost(old(world), key) ==> Ended(world.store, key)
    {
      hide Valid, Enabled, Do, Verdict, Boundary, Polled, Lost, Ended, Skipped, Ends, Saving;
      ghost var w := world;
      var ok, record := FirstWrite(i, key, reading, others[0]);
      ghost var saved := world.store;
      if ok {
        ObserveBinding(i, key, record, reading, others[1], others[2]);
      }
      if others == [[], [], []] {
        if ok {
          WritesLeaveVerdict(w, key, reading, record, saved, world.store);
          PollEnds(w, key, reading, world.store);
        } else {
          SkippedIsPolled(w, key, reading);
        }
      }
    }

    /** `ensureGitLabMaintenanceLabels` for an active record. */
    method EnsureActiveLabel(after: nat)
      requires Valid()
      modifies this
      ensures Valid() && old(log) <= log
      ensures var w, labels := old(world), Labels(old(world).events, old(world).request, old(world).active, false);
              world == if Settled(Active, after, labels) then w.(recorded := true)
                       else w.(recorded := true, active := true, events := w.events + [Added(LastId(w.events) + 1)])
    {
      hide Valid;
      if !Settled(Active, after, Labels(world.events, world.request, world.active, false)) {
        Step(Label(Added(LastId(world.events) + 1), true));
      }
      Step(RecordActivation);
    }

    /**
     `assertOwnership`: a binding without a record is adopted first. A worker that is
     allowed to write holds an active record of a live process whose label was not taken
     away after the boundary, and nothing it read has changed. Undisturbed, every such worker
     is allowed to write.
     */
    method AssertOwnership(i: nat, key: string, others: seq<seq<Action>>) returns (ok: bool)
      requires Valid() && |others| == 2
      modifies this
      ensures Valid() && old(log) <= log
      ensures ok ==> exists labels: Labels :: old(world).events <= labels.events && Owns(world.store, key, labels, world.store)
      ensures Lost(old(world), key) ==> !ok
      ensures others == [[], []] ==> (ok <==> MayWrite(old(world), key))
      ensures others == [[], []] && ok ==> Adopted(old(world), key, world)
    {
      hide Valid, Enabled, Do;
      ok := false;
      ghost var start := world;
      var process := world.store;
      if !process.live || (key in process.records && process.records[key].status != Active) {
        return;
      }
      Meanwhile(i, others[0]);
      var labels := Labels(world.events, world.request, world.active, false);
      if key !in process.records {
        if (world.recorded && !labels.active) || world.store != process {
          return;
        }
        Adopting(world, key);
        Step(Adopt(key, |labels.events|));
        process := world.store;
        Meanwhile(i, others[1]);
        if world.store != process {
          return;
        }
        EnsureActiveLabel(process.records[key].after);
        labels := Labels(world.events, world.request, world.active, false);
      } else if Lost(start, key) {
        RemovalPersists(start.events, labels.events, process.records[key].after);
      }
      ok := Owns(process, key, labels, world.store);
    }
  }

  predicate Holds(store: Store, key: string, record: Record) {
    key in store.records && store.records[key] == record
  }

  /** Only the detail of one record, and the work of the process, may be new. */
  predicate OnlyDetail(before: Store, key: string, store: Store) {
    && key in before.records && key in store.records && store.live == before.live
    && store.records == before.records[key := before.records[key].(detail := store.records[key].detail)]
  }

  lemma Adopting(w: World, key: string)
    requires key !in w.store.records && w.store.live
    ensures Enabled(w, Adopt(key, |w.events|))
    ensures Do(w, Adopt(key, |w.events|)) ==
              w.(store := w.store.(records := w.store.records[key := Record(Boundary(w, key, false), Active, 0)]))
  {
    assert w.events[..|w.events|] == w.events;
  }
}
