/**
 Maintenance ownership: any number of pollers and workers share one compare-and-set process
 store and an append-only log of label events. Every await of a poller is a point where
 the others act, so a poll is several actions and a run is any interleaving of them.
 */
module Ownership {
  import opened Git

  // ---------------------------------------------------------------- labels

  /** A change of the active label, an addition of the done label, or anything else. */
  datatype LabelEvent = Added(id: nat) | Removed(id: nat) | DoneAdded(id: nat) | Unrelated(id: nat)

  datatype RequestState = Opened | RequestMerged | RequestClosed

  /** What a label read returns: the log first, the request and its labels after it. */
  datatype Labels = Labels(events: seq<LabelEvent>, request: RequestState, active: bool, done: bool)

  datatype Activation = Pending | Running | Withdrawn

  /** An operator took the active label away after the boundary. */
  predicate Removal(events: seq<LabelEvent>, after: nat) {
    exists i :: 0 <= i < |events| && events[i].Removed? && events[i].id > after
  }

  predicate Touched(events: seq<LabelEvent>, after: nat) {
    exists i :: 0 <= i < |events| && (events[i].Added? || events[i].Removed?) && events[i].id > after
  }

  /** `gitLabActivationStatus` */
  function ActivationStatus(after: nat, labels: Labels): Activation {
    if Removal(labels.events, after) then Withdrawn
    else if !Touched(labels.events, after) then Pending
    else if labels.active then Running else Withdrawn
  }

  function LastId(events: seq<LabelEvent>): nat {
    if events == [] then 0 else events[|events| - 1].id
  }

  // ---------------------------------------------------------------- the store

  datatype Status = Active | Stopped | Merged | Closed | Deleted

  /** `detail` stands for the observation, the pending feedback and the refresh error. */
  datatype Record = Record(after: nat, status: Status, detail: nat)

  /** `work` stands for everything else that a compare-and-set compares. */
  datatype Store = Store(work: nat, live: bool, records: map<string, Record>)

  /** `applyProcessObservation`: the write is refused unless nothing it depends on has changed. */
  predicate Unchanged(store: Store, expected: Store) {
    store == expected
  }

  datatype Poller =
    | Resting
    | Loaded(snapshot: Store)
    | Judged(key: string, snapshot: Store, record: Record)
    | Saved(key: string, record: Record)
    | Reread(key: string, snapshot: Store, record: Record)

  /** `adopted` is the boundary of an older activation receipt; `recorded` whether an activation write is logged. */
  datatype World = World(
    store: Store, events: seq<LabelEvent>, request: RequestState, active: bool, recorded: bool,
    adopted: Option<nat>, pollers: map<nat, Poller>)

  function NewRecord(adopted: Option<nat>, events: seq<LabelEvent>): Record {
    Record(if adopted.Some? then adopted.value else LastId(events), Active, 0)
  }

  /** The record a poll decides on from its snapshot and the labels it read; None: the request was deleted. */
  function Judge(snapshot: Store, key: string, adopted: Option<nat>, recorded: bool, labels: Option<Labels>, detail: nat): Record {
    var known := if key in snapshot.records then snapshot.records[key]
                 else NewRecord(adopted, if labels.Some? then labels.value.events else []);
    var r := known.(detail := detail);
    if labels.None? then r.(status := Deleted)
    else if r.status != Active then r
    else if labels.value.request != Opened then r.(status := if labels.value.request == RequestMerged then Merged else Closed)
    else if !snapshot.live || ActivationStatus(r.after, labels.value) == Withdrawn || (recorded && !labels.value.active)
    then r.(status := Stopped)
    else r
  }

  // ---------------------------------------------------------------- actions

  datatype Action =
    // others: operators, the engine, label writes
    | Label(event: LabelEvent, active: bool)
    | Request(request: RequestState)
    | Work(work: nat, live: bool)
    | RecordActivation
    // a worker that adopts a binding without a record, having read `seen` of the log
    | Adopt(key: string, seen: nat)
    // one poll of the binding `key` by poller `i`, in program order
    | Load(i: nat)
    | Look(i: nat, key: string, seen: nat, deleted: bool, detail: nat)
    | Save(i: nat, work: nat, live: bool)
    | ReadAgain(i: nat)
    | Confirm(i: nat, work: nat, detail: nat)
    | Abandon(i: nat)
    | Fail(i: nat, key: string, detail: nat)

  function PollerOf(w: World, i: nat): Poller {
    if i in w.pollers then w.pollers[i] else Resting
  }

  predicate Enabled(w: World, a: Action) {
    match a
    case Label(event, _) => event.id > LastId(w.events)
    case Request(_) => true
    case Work(_, _) => true
    case RecordActivation => true
    case Adopt(key, seen) => key !in w.store.records && w.store.live && seen <= |w.events|
    case Load(i) => PollerOf(w, i) == Resting
    case Look(i, _, seen, _, _) => PollerOf(w, i).Loaded? && seen <= |w.events|
    case Save(i, _, _) => PollerOf(w, i).Judged?
    case ReadAgain(i) => PollerOf(w, i).Saved?
    case Confirm(i, _, _) =>
      PollerOf(w, i).Reread? && PollerOf(w, i).record.status == Active && PollerOf(w, i).snapshot.live
    case Abandon(i) => true
    case Fail(i, _, _) => true
  }

  function Put(w: World, i: nat, p: Poller): World {
    w.(pollers := w.pollers[i := p])
  }

  function LookedAt(w: World, i: nat, key: string, seen: nat, deleted: bool, detail: nat): World
    requires PollerOf(w, i).Loaded? && seen <= |w.events|
  {
    var s := PollerOf(w, i).snapshot;
    var labels := if deleted then None else Some(Labels(w.events[..seen], w.request, w.active, false));
    Put(w, i, Judged(key, s, Judge(s, key, w.adopted, w.recorded, labels, detail)))
  }

  function SavedBy(w: World, i: nat, work: nat, live: bool): World
    requires PollerOf(w, i).Judged?
  {
    var p := PollerOf(w, i);
    if Unchanged(w.store, p.snapshot)
    then Put(w.(store := Store(work, live, w.store.records[p.key := p.record])), i, Saved(p.key, p.record))
    else Put(w, i, Resting)
  }

  /** The second write: the local record replaces whatever the re-read snapshot holds. */
  function ConfirmedBy(w: World, i: nat, work: nat, detail: nat): World
    requires PollerOf(w, i).Reread?
  {
    var p := PollerOf(w, i);
    if Unchanged(w.store, p.snapshot)
    then Put(w.(store := w.store.(work := work, records := w.store.records[p.key := p.record.(detail := detail)])), i, Resting)
    else Put(w, i, Resting)
  }

  function FailedBy(w: World, i: nat, key: string, detail: nat): World {
    var store := if key !in w.store.records then w.store
                 else w.store.(records := w.store.records[key := w.store.records[key].(detail := detail)]);
    Put(w.(store := store), i, Resting)
  }

  function Do(w: World, a: Action): World
    requires Enabled(w, a)
  {
    match a
    case Label(event, active) => w.(events := w.events + [event], active := active)
    case Request(request) => w.(request := request)
    case Work(work, live) => w.(store := w.store.(work := work, live := live))
    case RecordActivation => w.(recorded := true)
    case Adopt(key, seen) =>
      w.(store := w.store.(records := w.store.records[key := NewRecord(w.adopted, w.events[..seen])]))
    case Load(i) => Put(w, i, Loaded(w.store))
    case Look(i, key, seen, deleted, detail) => LookedAt(w, i, key, seen, deleted, detail)
    case Save(i, work, live) => SavedBy(w, i, work, live)
    case ReadAgain(i) => Put(w, i, Reread(PollerOf(w, i).key, w.store, PollerOf(w, i).record))
    case Confirm(i, work, detail) => ConfirmedBy(w, i, work, detail)
    case Abandon(i) => Put(w, i, Resting)
    case Fail(i, key, detail) => FailedBy(w, i, key, detail)
  }

  predicate Legal(w: World, run: seq<Action>)
    decreases |run|, 0
  {
    run == [] ||
    var before := run[..|run| - 1];
    Legal(w, before) && Enabled(After(w, before), run[|run| - 1])
  }

  function After(w: World, run: seq<Action>): World
    requires Legal(w, run)
    decreases |run|, 1
  {
    if run == [] then w else
      var before := run[..|run| - 1];
      Do(After(w, before), run[|run| - 1])
  }

  // ---------------------------------------------------------------- what every step keeps

  /** What a poller holds agrees with the store on the boundary, and its verdict is final. */
  predicate Consistent(store: Store, p: Poller) {
    match p
    case Judged(key, s, r) =>
      key in s.records ==> r.after == s.records[key].after && (s.records[key].status != Active ==> r.status != Active)
    case Saved(key, r) => key in store.records && store.records[key].after == r.after
    case Reread(key, s, r) => key in store.records && store.records[key].after == r.after && key in s.records
    case _ => true
  }

  ghost predicate Inv(w: World) {
    forall i: nat :: i in w.pollers ==> Consistent(w.store, w.pollers[i])
  }

  /** Every known record keeps its boundary. */
  predicate SameBoundaries(s: Store, t: Store) {
    forall key :: key in s.records ==> key in t.records && t.records[key].after == s.records[key].after
  }

  lemma StepKeepsBoundaries(w: World, a: Action)
    requires Inv(w) && Enabled(w, a)
    ensures SameBoundaries(w.store, Do(w, a).store)
  {
    hide Judge, NewRecord;
  }

  lemma BoundariesKeepConsistent(s: Store, t: Store, p: Poller)
    requires Consistent(s, p) && SameBoundaries(s, t)
    ensures Consistent(t, p)
  {
  }

  lemma ActorStaysConsistent(w: World, a: Action, i: nat)
    requires Inv(w) && Enabled(w, a) && i in Do(w, a).pollers
    requires PollerOf(w, i) != Do(w, a).pollers[i]
    ensures Consistent(Do(w, a).store, Do(w, a).pollers[i])
  {
    StepKeepsBoundaries(w, a);
    hide Judge, NewRecord, SameBoundaries;
    match a
    case Look(i', key, seen, deleted, detail) => LookIsFinal(w, i', key, seen, deleted, detail);
    case _ =>
  }

  lemma LookIsFinal(w: World, i: nat, key: string, seen: nat, deleted: bool, detail: nat)
    requires PollerOf(w, i).Loaded? && seen <= |w.events|
    ensures LookedAt(w, i, key, seen, deleted, detail).store == w.store
    ensures Consistent(w.store, PollerOf(LookedAt(w, i, key, seen, deleted, detail), i))
  {
    hide NewRecord, ActivationStatus;
  }

  lemma StepKeepsInv(w: World, a: Action)
    requires Inv(w) && Enabled(w, a)
    ensures Inv(Do(w, a)) && SameBoundaries(w.store, Do(w, a).store)
  {
    StepKeepsBoundaries(w, a);
    forall i: nat | i in Do(w, a).pollers
      ensures Consistent(Do(w, a).store, Do(w, a).pollers[i])
    {
      if PollerOf(w, i) == Do(w, a).pollers[i] {
        BoundariesKeepConsistent(w.store, Do(w, a).store, PollerOf(w, i));
      } else {
        ActorStaysConsistent(w, a, i);
      }
    }
  }

  /** Over every run, with any number of pollers and workers, no activation boundary changes. */
  lemma {:induction false} BoundaryNeverChanges(w: World, run: seq<Action>, k: nat)
    requires Inv(w) && Legal(w, run) && k <= |run|
    ensures Inv(After(w, run))
    ensures Legal(w, run[..k]) && SameBoundaries(After(w, run[..k]).store, After(w, run).store)
    decreases |run|
  {
    hide Enabled, Do, Inv;
    if k == |run| {
      assert run[..k] == run;
    }
    if run != [] {
      var before := run[..|run| - 1];
      BoundaryNeverChanges(w, before, if k < |run| then k else 0);
      StepKeepsInv(After(w, before), run[|run| - 1]);
      if k < |run| {
        assert before[..k] == run[..k];
      }
    }
  }

  /**
   When a record that is not active becomes active: exactly when a poller's second write
   goes through although the record it had read again was no longer active.
   */
  lemma ActiveAgainIff(w: World, a: Action, key: string)
    requires Inv(w) && Enabled(w, a)
    requires key in w.store.records && w.store.records[key].status != Active
    ensures key in Do(w, a).store.records
    ensures Do(w, a).store.records[key].status == Active <==>
              && a.Confirm? && PollerOf(w, a.i).key == key
              && Unchanged(w.store, PollerOf(w, a.i).snapshot)
              && PollerOf(w, a.i).snapshot.records[key].status != Active
  {
    hide Judge, NewRecord;
  }

  lemma Extend(w: World, run: seq<Action>, a: Action)
    requires Legal(w, run) && Enabled(After(w, run), a)
    ensures Legal(w, run + [a]) && After(w, run + [a]) == Do(After(w, run), a)
  {
    hide Enabled, Do;
    assert (run + [a])[..|run|] == run;
  }

  // ---------------------------------------------------------------- one poller

  predicate ByPollerZero(a: Action) {
    match a
    case Load(i) => i == 0
    case Look(i, _, _, _, _) => i == 0
    case Save(i, _, _) => i == 0
    case ReadAgain(i) => i == 0
    case Confirm(i, _, _) => i == 0
    case Abandon(i) => i == 0
    case Fail(i, _, _) => i == 0
    case _ => true
  }

  /** Polls do not overlap, so what poller 0 saved is what it reads again. */
  predicate Undisturbed(w: World) {
    && (forall i: nat :: i in w.pollers ==> i == 0)
    && match PollerOf(w, 0)
       case Saved(key, r) => key in w.store.records && w.store.records[key] == r
       case Reread(key, s, r) => key in s.records && s.records[key] == r
       case _ => true
  }

  lemma SoleStep(w: World, a: Action)
    requires Undisturbed(w) && Enabled(w, a) && ByPollerZero(a)
    ensures Undisturbed(Do(w, a))
  {
    hide Judge, NewRecord;
  }

  /** With one poller and any number of workers, a record that left active stays so. */
  lemma {:induction false} SinglePollerNeverReactivates(w: World, run: seq<Action>, k: nat, key: string)
    requires Inv(w) && Undisturbed(w) && Legal(w, run) && k <= |run|
    requires forall j :: 0 <= j < |run| ==> ByPollerZero(run[j])
    ensures Inv(After(w, run)) && Undisturbed(After(w, run)) && Legal(w, run[..k])
    ensures key in After(w, run[..k]).store.records && After(w, run[..k]).store.records[key].status != Active ==>
              key in After(w, run).store.records && After(w, run).store.records[key].status != Active
    decreases |run|
  {
    hide Enabled, Do, Inv, Undisturbed;
    if k == |run| {
      assert run[..k] == run;
    }
    if run != [] {
      var before, a := run[..|run| - 1], run[|run| - 1];
      SinglePollerNeverReactivates(w, before, if k < |run| then k else 0, key);
      var mid := After(w, before);
      StepKeepsInv(mid, a);
      SoleStep(mid, a);
      if k < |run| {
        assert before[..k] == run[..k];
        if key in mid.store.records && mid.store.records[key].status != Active {
          UndisturbedStaysInactive(mid, a, key);
        }
      }
    }
  }

  lemma UndisturbedStaysInactive(w: World, a: Action, key: string)
    requires Inv(w) && Undisturbed(w) && Enabled(w, a) && ByPollerZero(a)
    requires key in w.store.records && w.store.records[key].status != Active
    ensures key in Do(w, a).store.records && Do(w, a).store.records[key].status != Active
  {
    ActiveAgainIff(w, a, key);
    hide Do;
  }

  /** An active binding between two polls. */
  predicate Healthy(w: World, key: string) {
    && key in w.store.records && w.store.records[key].status == Active && w.store.live
    && w.request == Opened && w.active && !Removal(w.events, w.store.records[key].after)
    && PollerOf(w, 0) == Resting && PollerOf(w, 1) == Resting
  }

  predicate HasStatus(store: Store, key: string, status: Status) {
    store.live && key in store.records && store.records[key].status == status
  }

  lemma FirstPollSaves(w: World, key: string) returns (run: seq<Action>)
    requires Healthy(w, key)
    ensures Legal(w, run) && |run| == 3
    ensures var s := After(w, run);
            && HasStatus(s.store, key, Active) && s.events == w.events && s.request == Opened
            && s.store.records[key].after == w.store.records[key].after
            && PollerOf(s, 0) == Saved(key, s.store.records[key]) && PollerOf(s, 1) == Resting
  {
    run := [];
    assert Legal(w, run) && After(w, run) == w;
    hide Legal, After;
    Extend(w, run, Load(0));
    run := run + [Load(0)];
    Extend(w, run, Look(0, key, |w.events|, false, 0));
    run := run + [Look(0, key, |w.events|, false, 0)];
    assert w.events[..|w.events|] == w.events;
    Extend(w, run, Save(0, 0, true));
    run := run + [Save(0, 0, true)];
  }

  lemma SecondPollStops(w: World, key: string) returns (run: seq<Action>)
    requires Healthy(w, key)
    ensures Legal(w, run) && |run| == 7
    ensures var s := After(w, run);
            HasStatus(s.store, key, Stopped) && PollerOf(s, 0).Saved? && PollerOf(s, 0).key == key && PollerOf(s, 0).record.status == Active
  {
    run := FirstPollSaves(w, key);
    hide Legal, After;
    Extend(w, run, Load(1));
    run := run + [Load(1)];
    var removed := Removed(LastId(w.events) + w.store.records[key].after + 1);
    Extend(w, run, Label(removed, false));
    run := run + [Label(removed, false)];
    var n := |w.events|;
    assert After(w, run).events[..n + 1][n] == removed;
    Extend(w, run, Look(1, key, n + 1, false, 0));
    run := run + [Look(1, key, n + 1, false, 0)];
    Extend(w, run, Save(1, 0, true));
    run := run + [Save(1, 0, true)];
  }

  /**
   Two overlapping pollers break it, from any healthy state: the second stops the record
   between the first one's write and its second read, and the first one's confirmation
   makes it active again.
   */
  lemma OverlappingPollsReactivate(w: World, key: string) returns (run: seq<Action>)
    requires Healthy(w, key)
    ensures Legal(w, run) && |run| == 9 && Legal(w, run[..7])
    ensures HasStatus(After(w, run[..7]).store, key, Stopped)
    ensures HasStatus(After(w, run).store, key, Active)
  {
    run := SecondPollStops(w, key);
    hide Legal, After;
    ghost var seven := run;
    Extend(w, run, ReadAgain(0));
    run := run + [ReadAgain(0)];
    Extend(w, run, Confirm(0, 0, 0));
    run := run + [Confirm(0, 0, 0)];
    assert run[..7] == seven;
  }

  // ---------------------------------------------------------------- removal is permanent

  lemma RemovalPersists(events: seq<LabelEvent>, later: seq<LabelEvent>, after: nat)
    requires Removal(events, after) && events <= later
    ensures Removal(later, after)
  {
    var i :| 0 <= i < |events| && events[i].Removed? && events[i].id > after;
    assert later[i] == events[i];
  }

  lemma StepAppends(w: World, a: Action)
    requires Enabled(w, a)
    ensures w.events <= Do(w, a).events
  {
    hide Judge, NewRecord;
  }

  lemma {:induction false} LogOnlyGrows(w: World, run: seq<Action>, k: nat)
    requires Legal(w, run) && k <= |run|
    ensures Legal(w, run[..k]) && After(w, run[..k]).events <= After(w, run).events
    decreases |run|
  {
    hide Enabled, Do;
    if k == |run| {
      assert run[..k] == run;
    } else {
      var before := run[..|run| - 1];
      LogOnlyGrows(w, before, k);
      StepAppends(After(w, before), run[|run| - 1]);
      assert before[..k] == run[..k];
    }
  }

  predicate Lost(w: World, key: string) {
    key in w.store.records && Removal(w.events, w.store.records[key].after)
  }

  /** `assertOwnership` for a binding with a record: `start` is read first, the labels next, and nothing may have changed after. */
  predicate Owns(start: Store, key: string, labels: Labels, finish: Store) {
    && start.live && key in start.records && start.records[key].status == Active
    && finish == start && labels.request == Opened
    && ActivationStatus(start.records[key].after, labels) != Withdrawn && labels.active
  }

  /**
   Once an operator has removed the active label after the boundary, no later read of the
   labels lets a worker write, whether or not the label was added again; and the next poll
   that reads the log ends the record.
   */
  lemma RemovalEndsOwnership(w: World, run: seq<Action>, k: nat, key: string, labels: Labels)
    requires Inv(w) && Legal(w, run) && k <= |run| && Legal(w, run[..k])
    requires Lost(After(w, run[..k]), key) && After(w, run[..k]).events <= labels.events
    ensures var now := After(w, run);
            && !Owns(now.store, key, labels, now.store)
            && Lost(now, key)
            && forall detail :: Judge(now.store, key, now.adopted, now.recorded, Some(labels), detail).status != Active
  {
    var past := After(w, run[..k]);
    var now := After(w, run);
    BoundaryNeverChanges(w, run, k);
    LogOnlyGrows(w, run, k);
    hide After, Legal, Inv;
    RemovalPersists(past.events, labels.events, past.store.records[key].after);
    RemovalPersists(past.events, now.events, past.store.records[key].after);
  }

  // ---------------------------------------------------------------- label writes

  /** An operator activated the request again after its removal. */
  predicate AddedAgain(events: seq<LabelEvent>, after: nat) {
    exists i, j :: 0 <= i < j < |events| && events[i].Removed? && events[i].id > after && events[j].Added? && events[j].id > after
  }

  predicate ShownDone(labels: Labels, after: nat) {
    labels.done || exists i :: 0 <= i < |labels.events| && labels.events[i].DoneAdded? && labels.events[i].id > after
  }

  /** The test of `ensureGitLabMaintenanceLabels`: nothing is left to write. */
  predicate Settled(status: Status, after: nat, labels: Labels) {
    if status == Active then
      labels.request != Opened || ActivationStatus(after, labels) == Withdrawn || (labels.active && !labels.done)
    else
      AddedAgain(labels.events, after) || (!labels.active && (status != Merged || ShownDone(labels, after)))
  }

  /** The update it makes otherwise, and the event the forge logs for the active label. */
  function Relabelled(status: Status, labels: Labels, id: nat): Labels {
    if status == Active then
      labels.(active := true, done := false, events := labels.events + if labels.active then [] else [Added(id)])
    else
      labels.(active := false, done := labels.done || status == Merged,
      events := labels.events + if labels.active then [Removed(id)] else [])
  }

  /** One reconciliation of the labels, write included. */
  function Reconciled(status: Status, after: nat, labels: Labels, id: nat): Labels {
    if Settled(status, after, labels) then labels else Relabelled(status, labels, id)
  }

  /**
   A label write is made at most once and never against an operator: a removal is not
   undone, a newer activation is left alone, and what the write leaves behind needs no
   second write. Otherwise an active request shows the active label alone, an ended one
   does not show it, and exactly a merged one is shown as done.
   */
  lemma LabelWritesSettle(status: Status, after: nat, labels: Labels, id: nat)
    ensures var t := Reconciled(status, after, labels, id);
            && Settled(status, after, t)
            && (!Settled(status, after, labels) ==> if status == Active then !Removal(labels.events, after) else !AddedAgain(labels.events, after))
            && (status == Active ==>
                  if labels.request != Opened || Removal(labels.events, after) || (Touched(labels.events, after) && !labels.active)
                  then t == labels
                  else t.active && !t.done)
            && (status != Active ==>
                  if AddedAgain(labels.events, after) then t == labels
                  else !t.active && (if status == Merged then ShownDone(t, after) else t.done == labels.done))
  {
  }
}
