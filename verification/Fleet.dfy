/**
 Any number of repositories over any number of executions, evidence, maintenance decisions,
 repairs and operator decisions, in every configuration. Turns and gates are left open: an
 event may happen whenever its own code accepts it, so every schedule of the process graph
 is among the runs.
 */
module Fleet {
  import opened Git
  import opened Delivery
  import opened DeliveryRuns
  import opened DeliveryOrder
  import opened Coordinated
  import P = Policy
  import F = DeliveryFlow

  /** A coordinated process has several keys, any other one. */
  datatype Setting = Setting(cfg: Config, keys: seq<string>) {
    predicate Valid() {
      Distinct(keys) && |keys| > 0 && (!cfg.coordinated ==> |keys| == 1)
    }
  }

  datatype Event =
    | Executed(w: Forge)
    // without maintenance
    | Reported(key: string, evidence: Evidence)
    | Noted(key: string, evidence: Evidence)
    // with maintenance
    | Looked(key: string, atDeliver: bool, executing: bool, project: nat, sight: P.Sight)
    | Settled(key: string)
    | Stopped(key: string, iid: nat, url: string)
    | Ended(key: string, sight: P.Sight)
    // revision turns and the operator
    | Repaired(key: string, at: F.Position, changes: bool, summary: string)
    | GaveUp(key: string)
    | Retried(key: string)
    | Resumed(key: string)

  predicate Enabled(st: Setting, m: Store, e: Event) {
    match e
    case Executed(_) => true
    case Reported(key, ev) => !st.cfg.maintenance && Apply(Read(m, key), ev, Read(m, key).ciCycles < 3).Some?
    case Noted(_, _) => !st.cfg.maintenance
    case Looked(key, at, executing, project, o) => st.cfg.maintenance && P.Decide(Read(m, key), at, executing, project, o).Some?
    case Settled(_) => st.cfg.maintenance
    case Stopped(_, _, _) => st.cfg.maintenance
    case Ended(_, _) => st.cfg.maintenance
    case _ => true
  }

  /** One execution of Deliver. */
  function Execute(st: Setting, w: Forge, m: Store): (Outcome, Store)
    requires st.Valid()
  {
    if st.cfg.coordinated then DeliverAll(st.cfg, w, st.keys, m)
    else
      var end := Run(st.cfg, w.answers(st.keys[0]), Read(m, st.keys[0]));
      (end.outcome, m[st.keys[0] := end.s])
  }

  /** What an event other than an execution makes of the state of its key. */
  function Changed(st: Setting, s: Pub, e: Event): Pub
    requires e.Reported? ==> Apply(s, e.evidence, s.ciCycles < 3).Some?
    requires e.Looked? ==> P.Decide(s, e.atDeliver, e.executing, e.project, e.sight).Some?
  {
    match e
    case Executed(_) => s
    case Reported(_, ev) => Apply(s, ev, s.ciCycles < 3).value
    case Noted(_, ev) => s.(pending := Some(ev))
    case Looked(_, at, executing, project, o) => P.Decide(s, at, executing, project, o).value.s
    case Settled(_) => P.Settled(s)
    case Stopped(_, iid, url) => P.Stopped(s, iid, url)
    case Ended(_, o) => P.Ended(s, o)
    case Repaired(_, at, changes, summary) =>
      var origin := if s.reconciliationRequired then Feedback else F.RepairReason(s, at);
      s.(repairPending := false, adjustment := Some(Adjustment(origin, changes || s.reconciliationRequired, summary)))
    case GaveUp(_) => if st.cfg.maintenance then s.(repairPending := false) else s
    case Retried(_) => if st.cfg.maintenance then s.(cycles := 0) else s
    case Resumed(_) => s.(repairPending := false, notes := [], adjustment := None)
  }

  function Happen(st: Setting, m: Store, e: Event): Store
    requires st.Valid() && Enabled(st, m, e)
  {
    if e.Executed? then Execute(st, e.w, m).1 else m[e.key := Changed(st, Read(m, e.key), e)]
  }

  predicate Legal(st: Setting, m: Store, es: seq<Event>)
    requires st.Valid()
    decreases |es|, 0
  {
    es == [] || (Legal(st, m, es[..|es| - 1]) && Enabled(st, After(st, m, es[..|es| - 1]), es[|es| - 1]))
  }

  function After(st: Setting, m: Store, es: seq<Event>): Store
    requires st.Valid() && Legal(st, m, es)
    decreases |es|, 1
  {
    if es == [] then m else Happen(st, After(st, m, es[..|es| - 1]), es[|es| - 1])
  }

  // ---------------------------------------------------------------- the execution of one key

  /** The state a key's own run starts from. */
  function Seen(st: Setting, w: Forge, key: string, s: Pub): Pub {
    if st.cfg.coordinated && key in st.keys then Observe(s, w.terminal(false, key)) else s
  }

  /** Whether a sweep gets to a key. */
  predicate Reaches(cfg: Config, w: Forge, keys: seq<string>, m: Store, key: string) {
    keys != [] &&
    var first := keys[0];
    if first == key then !Finished(Read(m, key)) && !w.cancelled(key)
    else if Finished(Read(m, first)) then Reaches(cfg, w, keys[1..], m, key)
    else
      && !w.cancelled(first)
      && var end := Run(cfg, w.answers(first), Read(m, first));
      && end.outcome in {Waiting, Completed, Aborted} && Reaches(cfg, w, keys[1..], m[first := end.s], key)
  }

  lemma {:induction false} SweepRuns(cfg: Config, w: Forge, keys: seq<string>, m: Store, key: string)
    requires Distinct(keys)
    ensures var sweep := SweepFrom(cfg, w, keys, m);
            Read(sweep.m, key) ==
              if Reaches(cfg, w, keys, m, key) then Run(cfg, w.answers(key), Read(m, key)).s else Read(m, key)
    decreases |keys|
  {
    hide Run;
    if keys != [] {
      var first := keys[0];
      if Finished(Read(m, first)) {
        SweepRuns(cfg, w, keys[1..], m, key);
        NotReached(cfg, w, keys[1..], m, first);
      } else if !w.cancelled(first) {
        var end := Run(cfg, w.answers(first), Read(m, first));
        if end.outcome in {Waiting, Completed, Aborted} {
          SweepRuns(cfg, w, keys[1..], m[first := end.s], key);
          NotReached(cfg, w, keys[1..], m[first := end.s], first);
        }
      }
    }
  }

  lemma {:induction false} NotReached(cfg: Config, w: Forge, keys: seq<string>, m: Store, key: string)
    requires key !in keys
    ensures !Reaches(cfg, w, keys, m, key)
    decreases |keys|
  {
    hide Run;
    if keys != [] {
      var first := keys[0];
      NotReached(cfg, w, keys[1..], m, key);
      NotReached(cfg, w, keys[1..], m[first := Run(cfg, w.answers(first), Read(m, first)).s], key);
    }
  }

  /** The run a key had in an execution that was saved. */
  function RunOf(st: Setting, w: Forge, m: Store, key: string): Option<End>
    requires st.Valid()
  {
    var s := Seen(st, w, key, Read(m, key));
    if Execute(st, w, m).0 == Threw || key !in st.keys then None
    else if !st.cfg.coordinated then Some(Run(st.cfg, w.answers(key), s))
    else if Reaches(st.cfg, w, st.keys, ReconcileTerminals(w, false, st.keys, m), key) then Some(Run(st.cfg, w.answers(key), s))
    else None
  }

  /** After an execution a key has the state of its own run, up to a terminal request seen at its end. */
  lemma ExecutionIsLocal(st: Setting, w: Forge, m: Store, key: string)
    requires st.Valid()
    ensures var s, t, end := Read(m, key), Read(Execute(st, w, m).1, key), RunOf(st, w, m, key);
            var r := if end.Some? then end.value.s else Seen(st, w, key, s);
            if Execute(st, w, m).0 == Threw then t == s else t == r || t == Observe(r, w.terminal(true, key))
  {
    hide Run;
    if st.cfg.coordinated {
      var observed := ReconcileTerminals(w, false, st.keys, m);
      TerminalsLocal(w, false, st.keys, m, key);
      SweepRuns(st.cfg, w, st.keys, observed, key);
      SweepOutcome(st.cfg, w, st.keys, observed);
      if key !in st.keys {
        NotReached(st.cfg, w, st.keys, observed, key);
      }
      var sweep := SweepFrom(st.cfg, w, st.keys, observed);
      if sweep.SourceCancelled? {
        TerminalsLocal(w, true, st.keys, sweep.m, key);
      }
    } else {
      SingleIsLocal(st, w, m, key);
    }
  }

  lemma SingleIsLocal(st: Setting, w: Forge, m: Store, key: string)
    requires st.Valid() && !st.cfg.coordinated
    ensures var s, t, end := Read(m, key), Read(Execute(st, w, m).1, key), RunOf(st, w, m, key);
            if Execute(st, w, m).0 == Threw then t == s else t == if end.Some? then end.value.s else s
  {
    ThrowingDiscards(st.cfg, w.answers(st.keys[0]), Read(m, st.keys[0]));
    hide Run;
    assert forall k :: k in st.keys ==> k == st.keys[0];
  }

  // ---------------------------------------------------------------- what every event keeps

  lemma ObserveKeepsOrder(s: Pub, seen: Option<Request>)
    requires Orderly(s)
    ensures Orderly(Observe(s, seen)) && Alike(s, Observe(s, seen))
    ensures Exclusive(s) ==> Exclusive(Observe(s, seen))
  {
  }

  lemma ChangeKeepsOrder(st: Setting, s: Pub, e: Event)
    requires Orderly(s) && !e.Executed?
    requires e.Reported? ==> Apply(s, e.evidence, s.ciCycles < 3).Some?
    requires e.Looked? ==> P.Decide(s, e.atDeliver, e.executing, e.project, e.sight).Some?
    ensures Orderly(Changed(st, s, e))
    ensures Changed(st, s, e).cycles == if e.Retried? && st.cfg.maintenance then 0 else s.cycles
    ensures Changed(st, s, e).noChanges == s.noChanges
    ensures !e.Stopped? ==> Changed(st, s, e).stopped == s.stopped
  {
    hide Apply, P.Decide;
    match e
    case Reported(_, ev) =>
      ApplyKeeps(s, ev, s.ciCycles < 3);
      ApplyIsAlike(s, ev, s.ciCycles < 3);
    case Looked(_, at, executing, project, o) => DecideKeepsOrder(s, at, executing, project, o);
    case _ =>
  }

  ghost predicate AllOrderly(m: Store) {
    forall key :: Orderly(Read(m, key))
  }

  lemma ExecutionKeepsOrder(st: Setting, w: Forge, m: Store, key: string)
    requires st.Valid() && Orderly(Read(m, key))
    ensures Orderly(Read(Execute(st, w, m).1, key))
  {
    hide Run, Execute, Orderly, RunOf;
    ExecutionIsLocal(st, w, m, key);
    var s := Read(m, key);
    ObserveKeepsOrder(s, w.terminal(false, key));
    var seen := Seen(st, w, key, s);
    RunKeepsOrder(st.cfg, w.answers(key), seen);
    RunOfIs(st, w, m, key);
    ObserveKeepsOrder(seen, w.terminal(true, key));
    ObserveKeepsOrder(Run(st.cfg, w.answers(key), seen).s, w.terminal(true, key));
  }

  lemma RunOfIs(st: Setting, w: Forge, m: Store, key: string)
    requires st.Valid()
    ensures RunOf(st, w, m, key).Some? ==>
              && RunOf(st, w, m, key).value == Run(st.cfg, w.answers(key), Seen(st, w, key, Read(m, key)))
              && Execute(st, w, m).0 != Threw
  {
    hide Run;
  }

  lemma EventKeepsOrder(st: Setting, m: Store, e: Event, key: string)
    requires st.Valid() && Enabled(st, m, e) && Orderly(Read(m, key))
    ensures Orderly(Read(Happen(st, m, e), key))
  {
    if e.Executed? {
      hide Run, Execute, Orderly;
      ExecutionKeepsOrder(st, e.w, m, key);
    } else if key == e.key {
      ChangeKeepsOrder(st, Read(m, key), e);
      hide Changed, Orderly;
    }
  }

  lemma {:induction false} OrderHolds(st: Setting, m: Store, es: seq<Event>)
    requires st.Valid() && AllOrderly(m) && Legal(st, m, es)
    ensures AllOrderly(After(st, m, es))
  {
    hide Enabled, Happen, Orderly;
    if es != [] {
      var before, e := es[..|es| - 1], es[|es| - 1];
      OrderHolds(st, m, before);
      forall key
        ensures Orderly(Read(Happen(st, After(st, m, before), e), key))
      {
        EventKeepsOrder(st, After(st, m, before), e, key);
      }
    }
  }

  /** Over every run, per repository and in every configuration, at most three CI repairs were automatic. */
  lemma CiRepairsAreBounded(st: Setting, m: Store, es: seq<Event>, key: string)
    requires st.Valid() && AllOrderly(m) && Legal(st, m, es)
    ensures Read(After(st, m, es), key).ciCycles <= 3
  {
    OrderHolds(st, m, es);
    hide After, Legal;
    OrderCounts(Read(After(st, m, es), key));
  }

  // ---------------------------------------------------------------- leases

  /**
   Over every run in every configuration, each ordinary push of a repository's next
   execution follows a clean reconcile of that execution and is leased by it.
   */
  lemma EveryPushOfTheFleetIsLeased(st: Setting, m: Store, es: seq<Event>, key: string, a: Answers)
    requires st.Valid() && AllOrderly(m) && Legal(st, m, es)
    requires Answerable(a, Read(After(st, m, es), key))
    ensures AllLeased(a, Run(st.cfg, a, Read(After(st, m, es), key)).calls)
  {
    OrderHolds(st, m, es);
    hide Run, AllLeased, After, Legal, Answerable;
    EveryPushIsLeased(st.cfg, a, Read(After(st, m, es), key));
  }

  // ---------------------------------------------------------------- closed gates

  lemma QuietRun(cfg: Config, a: Answers, s: Pub)
    requires !cfg.maintenance && Orderly(s) && !DeliverGate(cfg, s)
    ensures Run(cfg, a, s) == End(if s.stopped then Aborted else Waiting, s, [])
  {
  }

  /**
   Without maintenance, for any number of repositories: a closed Deliver gate means that no
   repository's run would make an outside call or change its state.
   */
  lemma ClosedGatesDoNothing(st: Setting, m: Store, es: seq<Event>, key: string, a: Answers)
    requires st.Valid() && AllOrderly(m) && Legal(st, m, es) && !st.cfg.maintenance
    requires key in st.keys && forall k :: k in st.keys ==> !DeliverGate(st.cfg, Read(After(st, m, es), k))
    ensures var s := Read(After(st, m, es), key);
            Run(st.cfg, a, s).calls == [] && Run(st.cfg, a, s).s == s
  {
    OrderHolds(st, m, es);
    hide Run, After, Legal;
    QuietRun(st.cfg, a, Read(After(st, m, es), key));
  }

  // ---------------------------------------------------------------- verdicts

  /** A request is reported to have ended. */
  predicate Ends(e: Event) {
    e.Ended? || (e.Reported? && e.evidence.fact.Terminal?)
  }

  /** A repository becomes both unchanged and terminal exactly when a request of an unchanged one ends. */
  lemma ChangeKeepsExclusiveIff(st: Setting, m: Store, e: Event)
    requires st.Valid() && Enabled(st, m, e) && !e.Executed? && Orderly(Read(m, e.key)) && Exclusive(Read(m, e.key))
    ensures Exclusive(Read(Happen(st, m, e), e.key)) <==> !(Ends(e) && Read(m, e.key).noChanges)
  {
    var s := Read(m, e.key);
    ChangeKeepsOrder(st, s, e);
    hide Apply;
    match e
    case Reported(_, ev) =>
      ApplyIsAlike(s, ev, s.ciCycles < 3);
      TerminalIsApplied(s, ev, s.ciCycles < 3);
    case Looked(_, at, executing, project, o) => hide P.Route, P.EvidenceFor, P.Retained, P.HeadMoved;
    case _ =>
  }

  lemma TerminalIsApplied(s: Pub, e: Evidence, count: bool)
    ensures e.fact.Terminal? ==> Apply(s, e, count).Some? && Apply(s, e, count).value.terminal.Some?
  {
  }

  lemma ExecutionKeepsExclusive(st: Setting, w: Forge, m: Store, key: string)
    requires st.Valid() && st.cfg.coordinated && Exclusive(Read(m, key))
    ensures Exclusive(Read(Execute(st, w, m).1, key))
  {
    hide Run, Execute;
    ExecutionIsLocal(st, w, m, key);
    RunOfIs(st, w, m, key);
    var seen := Seen(st, w, key, Read(m, key));
    if RunOf(st, w, m, key).Some? {
      TerminalsLocal(w, false, st.keys, m, key);
      ReachedIsOpen(st.cfg, w, st.keys, ReconcileTerminals(w, false, st.keys, m), key);
      OutcomesOpenTheirGates(st.cfg, w.answers(key), seen);
    }
  }

  lemma {:induction false} ReachedIsOpen(cfg: Config, w: Forge, keys: seq<string>, m: Store, key: string)
    requires Distinct(keys) && Reaches(cfg, w, keys, m, key)
    ensures !Finished(Read(m, key)) && key in keys
    decreases |keys|
  {
    hide Run;
    var first := keys[0];
    if first != key {
      if Finished(Read(m, first)) {
        ReachedIsOpen(cfg, w, keys[1..], m, key);
      } else {
        ReachedIsOpen(cfg, w, keys[1..], m[first := Run(cfg, w.answers(first), Read(m, first)).s], key);
      }
    }
  }

  /** Requests end only of repositories that were not found unchanged. */
  predicate EndsChanged(st: Setting, m: Store, es: seq<Event>)
    requires st.Valid() && Legal(st, m, es)
  {
    es == [] ||
    (EndsChanged(st, m, es[..|es| - 1])
     && var e := es[|es| - 1]; Ends(e) ==> !Read(After(st, m, es[..|es| - 1]), e.key).noChanges)
  }

  lemma {:induction false} ExclusiveHolds(st: Setting, m: Store, es: seq<Event>, key: string)
    requires st.Valid() && st.cfg.coordinated && AllOrderly(m) && Legal(st, m, es) && EndsChanged(st, m, es)
    requires Exclusive(Read(m, key))
    ensures Exclusive(Read(After(st, m, es), key))
  {
    hide Enabled, Execute, Changed, Exclusive, Orderly;
    if es != [] {
      var before, e := es[..|es| - 1], es[|es| - 1];
      ExclusiveHolds(st, m, before, key);
      OrderHolds(st, m, before);
      var mid := After(st, m, before);
      if e.Executed? {
        ExecutionKeepsExclusive(st, e.w, mid, key);
      } else if e.key == key {
        ChangeKeepsExclusiveIff(st, mid, e);
      }
    }
  }

  /**
   Over every run of a coordinated process in which requests end only of changed
   repositories: an execution that finishes all of them, with none stopped, reports the
   server's verdict.
   */
  lemma VerdictsAgreeOverRuns(st: Setting, m: Store, es: seq<Event>, w: Forge)
    requires st.Valid() && st.cfg.coordinated && AllOrderly(m) && AllExclusive(m, st.keys)
    requires Legal(st, m, es) && EndsChanged(st, m, es)
    requires var t := Execute(st, w, After(st, m, es));
             AllFinished(t.1, st.keys) && NoneStopped(t.1, st.keys) && t.0 in {Waiting, Completed, Aborted}
    ensures var t := Execute(st, w, After(st, m, es)); Completion(t.1, st.keys) == Some(t.0)
  {
    var mid := After(st, m, es);
    forall i | 0 <= i < |st.keys|
      ensures Exclusive(Read(mid, st.keys[i]))
    {
      ExclusiveHolds(st, m, es, st.keys[i]);
    }
    hide Run, After, Legal;
    WorkerAndServerAgree(st.cfg, w, st.keys, mid);
  }

  // ---------------------------------------------------------------- bounded loops

  /** A loop of the key that was sent back to a worker. */
  predicate Sends(st: Setting, w: Forge, m: Store, key: string)
    requires st.Valid()
  {
    var end := RunOf(st, w, m, key);
    end.Some? && Looped(Seen(st, w, key, Read(m, key)), end.value) && end.value.outcome == ConflictReady
  }

  predicate Acknowledges(st: Setting, w: Forge, m: Store, key: string)
    requires st.Valid()
  {
    RunOf(st, w, m, key).Some? && Records(RunOf(st, w, m, key).value.calls)
  }

  /** Loops of a key sent back to a worker since its last acknowledged publication or granted retry. */
  function WorkerLoops(st: Setting, m: Store, es: seq<Event>, key: string): nat
    requires st.Valid() && Legal(st, m, es)
  {
    if es == [] then 0
    else
      var n, mid, e := WorkerLoops(st, m, es[..|es| - 1], key), After(st, m, es[..|es| - 1]), es[|es| - 1];
      match e
      case Executed(w) => (if Acknowledges(st, w, mid, key) then 0 else n) + if Sends(st, w, mid, key) then 1 else 0
      case Retried(k) => if k == key && st.cfg.maintenance then 0 else n
      case _ => n
  }

  /** What an execution costs a key, and where a loop goes. */
  lemma ExecutionSpends(st: Setting, w: Forge, m: Store, key: string)
    requires st.Valid() && Orderly(Read(m, key))
    ensures var s, t, end := Read(m, key), Read(Execute(st, w, m).1, key), RunOf(st, w, m, key);
            var spent := if Acknowledges(st, w, m, key) then 0 else s.cycles;
            var looped := end.Some? && Looped(Seen(st, w, key, s), end.value);
            && t.cycles == spent + (if looped then 1 else 0)
            && (looped ==> (end.value.outcome == ConflictReady <==> spent < 3))
  {
    hide Run, Execute, Orderly, Looped, Records, RunOf;
    ExecutionIsLocal(st, w, m, key);
    RunOfIs(st, w, m, key);
    var s := Read(m, key);
    ObserveKeepsOrder(s, w.terminal(false, key));
    var seen := Seen(st, w, key, s);
    assert seen.cycles == s.cycles;
    RunKeepsOrder(st.cfg, w.answers(key), seen);
    BudgetIsKept(st.cfg, w.answers(key), seen);
    ThrowingIsNotLooping(seen, Run(st.cfg, w.answers(key), seen));
    ObserveKeepsOrder(seen, w.terminal(true, key));
    ObserveKeepsOrder(Run(st.cfg, w.answers(key), seen).s, w.terminal(true, key));
    NothingRunsThrown(st, w, m, key);
  }

  lemma ThrowingIsNotLooping(start: Pub, end: End)
    ensures end.outcome == Threw ==> !Looped(start, end)
  {
  }

  lemma NothingRunsThrown(st: Setting, w: Forge, m: Store, key: string)
    requires st.Valid()
    ensures Execute(st, w, m).0 == Threw ==> RunOf(st, w, m, key).None?
    ensures RunOf(st, w, m, key).Some? ==> RunOf(st, w, m, key).value.outcome != Threw
  {
    hide Run;
    if st.cfg.coordinated && RunOf(st, w, m, key).Some? {
      var observed := ReconcileTerminals(w, false, st.keys, m);
      TerminalsLocal(w, false, st.keys, m, key);
      ReachedEnds(st.cfg, w, st.keys, observed, key);
      SweepOutcome(st.cfg, w, st.keys, observed);
    }
  }

  lemma {:induction false} ReachedEnds(cfg: Config, w: Forge, keys: seq<string>, m: Store, key: string)
    requires Distinct(keys) && Reaches(cfg, w, keys, m, key)
    ensures var sweep, end := SweepFrom(cfg, w, keys, m), Run(cfg, w.answers(key), Read(m, key));
            end.outcome in {Waiting, Completed, Aborted} || sweep == Interrupted(end.outcome, sweep.m)
    decreases |keys|
  {
    hide Run;
    var first := keys[0];
    if first != key {
      if Finished(Read(m, first)) {
        ReachedEnds(cfg, w, keys[1..], m, key);
      } else {
        ReachedEnds(cfg, w, keys[1..], m[first := Run(cfg, w.answers(first), Read(m, first)).s], key);
      }
    }
  }

  /**
   Over every run, per repository and in every configuration: since the last acknowledged
   publication or the last retry that grants a new budget, at most three loops went back to
   a worker, and the next one goes to a worker exactly while there were fewer than three.
   */
  lemma {:induction false} LoopsAreBounded(st: Setting, m: Store, es: seq<Event>, key: string)
    requires st.Valid() && AllOrderly(m) && Read(m, key).cycles == 0 && Legal(st, m, es)
    ensures var cycles := Read(After(st, m, es), key).cycles;
            WorkerLoops(st, m, es, key) == if cycles < 3 then cycles else 3
    ensures forall w: Forge :: var t, end := After(st, m, es), RunOf(st, w, After(st, m, es), key);
              end.Some? && Looped(Seen(st, w, key, Read(t, key)), end.value) ==>
                (end.value.outcome == ConflictReady <==> Acknowledges(st, w, t, key) || WorkerLoops(st, m, es, key) < 3)
  {
    hide Run, Execute, Looped, Records, RunOf, Changed, Enabled, Orderly;
    if es != [] {
      var before, e := es[..|es| - 1], es[|es| - 1];
      LoopsAreBounded(st, m, before, key);
      OrderHolds(st, m, before);
      var mid := After(st, m, before);
      if e.Executed? {
        ExecutionSpends(st, e.w, mid, key);
      } else if e.key == key {
        ChangeSpends(st, mid, e);
      }
    }
    OrderHolds(st, m, es);
    forall w: Forge
      ensures var t, end := After(st, m, es), RunOf(st, w, After(st, m, es), key);
              end.Some? && Looped(Seen(st, w, key, Read(t, key)), end.value) ==>
                (end.value.outcome == ConflictReady <==> Acknowledges(st, w, t, key) || WorkerLoops(st, m, es, key) < 3)
    {
      ExecutionSpends(st, w, After(st, m, es), key);
    }
  }

  lemma ChangeSpends(st: Setting, m: Store, e: Event)
    requires st.Valid() && Enabled(st, m, e) && !e.Executed? && Orderly(Read(m, e.key))
    ensures Read(Happen(st, m, e), e.key).cycles == if e.Retried? && st.cfg.maintenance then 0 else Read(m, e.key).cycles
  {
    ChangeKeepsOrder(st, Read(m, e.key), e);
    hide Changed, Orderly;
  }

  // ---------------------------------------------------------------- different verdicts

  /** A coordinated process of two maintained repositories. */
  function Pair(a: string, b: string): Setting {
    Setting(Config(true, true, false), [a, b])
  }

  /** A first publication at `sha`; `changes` says whether there is anything to publish, `fails` which call throws. */
  function Publishing(sha: Sha, link: Link, changes: bool, fails: nat -> bool): Answers {
    Answers(changes, Sync(false, false, None), Pushed(sha), link, false, Pushed(sha), Rebased(sha), sha, fails)
  }

  /** Nothing has ended and nobody cancels; `first` answers for `a`, `second` for `b`. */
  function Calm(a: string, first: Answers, second: Answers): Forge {
    Forge((again, key) => None, key => false, key => if key == a then first else second)
  }

  lemma {:induction false} CalmTerminals(w: Forge, again: bool, keys: seq<string>, m: Store)
    requires forall key :: w.terminal(again, key).None?
    ensures ReconcileTerminals(w, again, keys, m) == m
    decreases |keys|
  {
    if keys != [] {
      CalmTerminals(w, again, keys[1..], m);
    }
  }

  /** An execution that creates the request and then throws leaves no trace in the state. */
  lemma RequestIsCreatedAndForgotten(a: string, b: string, sha: Sha, link: Link)
    requires a != b
    ensures var st, throwing := Pair(a, b), Publishing(sha, link, true, i => i == 5);
            && st.Valid()
            && EnsureRequest in Run(st.cfg, throwing, Initial).calls
            && Execute(st, Calm(a, throwing, throwing), map[]) == (Threw, map[])
  {
    var st, throwing := Pair(a, b), Publishing(sha, link, true, i => i == 5);
    var end := Run(st.cfg, throwing, Initial);
    assert end.outcome == Threw && end.calls[4] == EnsureRequest;
    var w := Calm(a, throwing, throwing);
    CalmTerminals(w, false, st.keys, map[]);
    hide Run;
    assert SweepFrom(st.cfg, w, st.keys, map[]) == Interrupted(Threw, map[a := end.s]);
  }

  /** The first repository is found unchanged, the second is published. */
  lemma OneIsUnchanged(a: string, b: string, sha: Sha, link: Link)
    requires a != b
    ensures var st := Pair(a, b);
            && st.Valid()
            && var m := Execute(st, Calm(a, Publishing(sha, link, false, _ => false), Publishing(sha, link, true, _ => false)), map[]).1;
            && Read(m, a) == Initial.(noChanges := true)
            && !Read(m, b).noChanges && !Read(m, b).stopped
  {
    var st := Pair(a, b);
    var first, second := Publishing(sha, link, false, _ => false), Publishing(sha, link, true, _ => false);
    var w := Calm(a, first, second);
    var ended, published := Run(st.cfg, first, Initial), Run(st.cfg, second, Initial);
    assert ended == End(Completed, Initial.(noChanges := true), []);
    assert published.outcome == Waiting && !published.s.noChanges && !published.s.stopped;
    CalmTerminals(w, false, st.keys, map[]);
    hide Run;
    var m := map[a := ended.s];
    assert st.keys[1..] == [b] && [b][1..] == [];
    assert SweepFrom(st.cfg, w, [b], m) == Through(m[b := published.s]);
    assert SweepFrom(st.cfg, w, st.keys, map[]) == Through(m[b := published.s]);
  }

  /** The request of the unchanged repository is merged, that of the other one closed. */
  function EndedSight(request: P.RequestState): P.Sight {
    P.Sight(request, 1, "", "", None, None, false, [], "")
  }

  lemma FinishedVerdicts(a: string, b: string, m: Store, w: Forge)
    requires a != b && (forall again, key :: w.terminal(again, key).None?)
    requires Read(m, a).noChanges && Merged(Read(m, a))
    requires !Read(m, b).noChanges && Read(m, b).terminal.Some? && !Merged(Read(m, b))
    ensures var st := Pair(a, b);
            && st.Valid()
            && Execute(st, w, m) == (Completed, m) && Completion(m, st.keys) == Some(Aborted)
  {
    var st := Pair(a, b);
    CalmTerminals(w, false, st.keys, m);
    hide Run;
    assert st.keys[0] == a && st.keys[1] == b && st.keys[1..] == [b] && [b][1..] == [];
    assert SweepFrom(st.cfg, w, [b], m) == Through(m);
    assert SweepFrom(st.cfg, w, st.keys, m) == Through(m);
  }

  /**
   A request is created but the execution throws, the next one finds nothing to publish,
   and both requests end.
   */
  function Forgetting(a: string, b: string, sha: Sha, link: Link): seq<Event> {
    var lost := Publishing(sha, link, true, i => i == 5);
    []
    + [Executed(Calm(a, lost, lost))]
    + [Executed(Calm(a, Publishing(sha, link, false, _ => false), Publishing(sha, link, true, _ => false)))]
    + [Ended(a, EndedSight(P.RequestMerged))]
    + [Ended(b, EndedSight(P.RequestClosed))]
  }

  lemma Extend(st: Setting, m: Store, es: seq<Event>, e: Event)
    requires st.Valid() && Legal(st, m, es) && Enabled(st, After(st, m, es), e)
    ensures Legal(st, m, es + [e]) && After(st, m, es + [e]) == Happen(st, After(st, m, es), e)
  {
    hide Enabled, Happen;
    assert (es + [e])[..|es|] == es;
  }

  lemma EndingStep(st: Setting, m: Store, key: string, request: P.RequestState)
    requires st.Valid() && st.cfg.maintenance
    ensures var e := Ended(key, EndedSight(request));
            && Enabled(st, m, e)
            && var t := Happen(st, m, e);
            && (forall k :: k != key ==> Read(t, k) == Read(m, k))
            && Read(t, key).noChanges == Read(m, key).noChanges && Read(t, key).terminal.Some?
            && (Merged(Read(t, key)) <==> request == P.RequestMerged)
  {
  }

  lemma ExecutedStep(st: Setting, m: Store, w: Forge)
    requires st.Valid()
    ensures Enabled(st, m, Executed(w)) && Happen(st, m, Executed(w)) == Execute(st, w, m).1
  {
    hide Execute;
  }

  /**
   From an empty store: the unchanged repository's request was merged, the changed one's
   closed. The worker reports completed, the server aborted.
   */
  lemma VerdictsDiffer(a: string, b: string, sha: Sha, link: Link, w: Forge)
    requires a != b && forall again, key :: w.terminal(again, key).None?
    ensures var st, es := Pair(a, b), Forgetting(a, b, sha, link);
            && st.Valid() && Legal(st, map[], es)
            && var t := Execute(st, w, After(st, map[], es));
            t.0 == Completed && Completion(t.1, st.keys) == Some(Aborted)
  {
    var st, m, lost := Pair(a, b), map[], Publishing(sha, link, true, i => i == 5);
    var throwing := Executed(Calm(a, lost, lost));
    var publishing := Executed(Calm(a, Publishing(sha, link, false, _ => false), Publishing(sha, link, true, _ => false)));
    var merged, closed := Ended(a, EndedSight(P.RequestMerged)), Ended(b, EndedSight(P.RequestClosed));
    assert Forgetting(a, b, sha, link) == [] + [throwing] + [publishing] + [merged] + [closed];
    assert st.cfg.maintenance;
    RequestIsCreatedAndForgotten(a, b, sha, link);
    OneIsUnchanged(a, b, sha, link);
    assert Legal(st, m, []) && After(st, m, []) == m;
    assert Initial.(noChanges := true).noChanges;
    hide *;
    ExecutedStep(st, m, throwing.w);
    Extend(st, m, [], throwing);
    ExecutedStep(st, m, publishing.w);
    Extend(st, m, [] + [throwing], publishing);
    var es := [] + [throwing] + [publishing];
    EndingStep(st, After(st, m, es), a, P.RequestMerged);
    Extend(st, m, es, merged);
    EndingStep(st, After(st, m, es + [merged]), b, P.RequestClosed);
    Extend(st, m, es + [merged], closed);
    EndedStays(After(st, m, es + [merged]), After(st, m, es + [merged] + [closed]), a);
    FinishedVerdicts(a, b, After(st, m, es + [merged] + [closed]), w);
  }

  lemma EndedStays(m: Store, t: Store, key: string)
    requires Read(t, key) == Read(m, key)
    ensures Merged(Read(t, key)) <==> Merged(Read(m, key))
  {
  }

  /** How a request ended is the verdict of its process; a withdrawn label aborts it. */
  lemma EndsDecideTheVerdict(s: Pub, key: string, o: P.Sight, iid: nat, url: string)
    requires !s.noChanges && s.terminal.None?
    ensures Completion(map[key := P.Ended(s, o)], [key]) == Some(if o.request == P.RequestMerged then Completed else Aborted)
    ensures Completion(map[key := P.Stopped(s, iid, url)], [key]) == Some(Aborted)
  {
    forall t: Pub
      ensures Read(map[key := t], [key][0]) == t
    {
    }
    assert Read(map[key := P.Ended(s, o)], [key][0]) == P.Ended(s, o);
    assert Read(map[key := P.Stopped(s, iid, url)], [key][0]) == P.Stopped(s, iid, url);
  }

  /** A look that stores the end of a request stores the verdict too. */
  lemma LooksDecideTheVerdict(s: Pub, key: string, atDeliver: bool, executing: bool, project: nat, o: P.Sight)
    requires s.pending.None? && !Finished(s)
    ensures var d := P.Decide(s, atDeliver, executing, project, o);
            d.Some? && d.value.s.terminal.Some? ==>
              o.request != P.Opened && Completion(map[key := d.value.s], [key]) == Some(if o.request == P.RequestMerged then Completed else Aborted)
  {
    var d := P.Decide(s, atDeliver, executing, project, o);
    if d.Some? {
      LookedTerminal(s, atDeliver, executing, project, o);
      hide P.Decide;
      assert Read(map[key := d.value.s], [key][0]) == d.value.s;
    }
  }

  lemma LookedTerminal(s: Pub, atDeliver: bool, executing: bool, project: nat, o: P.Sight)
    requires s.pending.None? && !Finished(s) && P.Decide(s, atDeliver, executing, project, o).Some?
    ensures var t := P.Decide(s, atDeliver, executing, project, o).value.s;
            && t.noChanges == s.noChanges && t.stopped == s.stopped
            && (t.terminal.Some? ==> o.request != P.Opened && (t.terminal.value.merged <==> o.request == P.RequestMerged))
  {
    hide P.Retained, P.Route, P.EvidenceFor;
    var q := P.HeadMoved(s, executing, o.head);
    if P.EvidenceFor(q, o).Some? {
      EvidenceTerminal(q, o);
      RouteTerminal(q, P.EvidenceFor(q, o).value, project, o);
    }
  }

  lemma EvidenceTerminal(s: Pub, o: P.Sight)
    ensures var e := P.EvidenceFor(s, o);
            e.Some? && e.value.fact.Terminal? ==>
              o.request != P.Opened && (e.value.fact.request.merged <==> o.request == P.RequestMerged)
  {
    hide P.Divergence, P.MaxId;
  }

  lemma RouteTerminal(s: Pub, e: Evidence, project: nat, o: P.Sight)
    ensures var d := P.Route(s, s, e, project, o);
            d.Some? ==>
              && d.value.s.noChanges == s.noChanges && d.value.s.stopped == s.stopped
              && d.value.s.terminal == if e.fact.Terminal? then Some(e.fact.request) else s.terminal
  {
    hide P.Known, P.Dispatch;
    match e.fact
    case Batch(_, _) => DispatchTerminal(s, e, P.ToFeedback, false);
    case Conflicting(_) => DispatchTerminal(s, e, P.ToConflict, false);
    case Failure(_) =>
      DispatchTerminal(s, e, P.ToOperator, true);
      DispatchTerminal(s, e, P.ToCi, false);
    case _ =>
  }

  lemma DispatchTerminal(s: Pub, e: Evidence, edge: P.Edge, operator: bool)
    requires !e.fact.Terminal?
    ensures var d := P.Dispatch(s, e, edge, operator);
            d.Some? ==>
              && d.value.s.noChanges == s.noChanges && d.value.s.stopped == s.stopped && d.value.s.terminal == s.terminal
  {
    ApplyTerminal(s, e, !operator);
    hide Apply;
  }

  lemma ApplyTerminal(s: Pub, e: Evidence, count: bool)
    requires !e.fact.Terminal?
    ensures var t := Apply(s, e, count);
            t.Some? ==> t.value.noChanges == s.noChanges && t.value.stopped == s.stopped && t.value.terminal == s.terminal
  {
    hide Relevant, AtHead;
    AtHeadTerminal(s.(observationKey := Or(e.key, s.observationKey)), e.remoteHead);
    match e.fact
    case Batch(_, _) =>
    case Failure(_) =>
    case Conflicting(_) =>
    case _ =>
  }

  lemma AtHeadTerminal(s: Pub, head: Option<Sha>)
    ensures var t := AtHead(s, head);
            t.noChanges == s.noChanges && t.stopped == s.stopped && t.terminal == s.terminal
  {
  }
}
