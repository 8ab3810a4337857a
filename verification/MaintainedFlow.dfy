/**
 The turns of a maintained process with one repository: when a repair turn is selected
 whose gate is closed, and what can be done about it.
 */
module MaintainedFlow {
  import opened Git
  import opened Delivery
  import DR = DeliveryRuns
  import F = DeliveryFlow
  import opened Policy
  import opened FeedbackRuns

  // ---------------------------------------------------------------- decisions and executions

  /** What a decision on an open request without stored evidence does to turn selection. */
  predicate Shaped(start: Pub, d: Decision) {
    var s := d.s;
    && s.reconciliationRequired == start.reconciliationRequired && s.adjustment == start.adjustment
    && s.stopped == start.stopped && s.noChanges == start.noChanges
    && (DR.Held(start) ==> DR.Held(s))
    && match d.edge
       case None =>
         s.reason == start.reason && s.notes == start.notes && (s.result == start.result || s.result.None?)
       case Some(e) =>
         && s.adjustment.None? && s.result.None? && s.terminal.None?
         && match e
            case ToFeedback => s.notes != [] && (s.reason == Some(Reason.Feedback) || (s.notes == start.notes && s.reason == start.reason))
            case ToConflict => s.conflict.Some? && s.reason == Some(Rebase) && s.notes == []
            case ToCi => s.reason == Some(Ci) && s.pipeline.Some? && s.notes == []
            case ToOperator => s.reason == Some(Ci) && s.pipeline.Some? && s.notes == []
  }

  lemma ApplyIsShaped(s: Pub, e: Evidence, count: bool)
    requires s.terminal.None? && s.notes == [] && s.adjustment.None? && s.result.None?
    requires s.head.Some? && s.pr.Some?
    ensures Apply(s, e, count).Some? ==>
              var t := Apply(s, e, count).value;
              && t.reconciliationRequired == s.reconciliationRequired && t.adjustment.None? && t.result.None?
              && t.stopped == s.stopped && t.noChanges == s.noChanges
              && (DR.Held(s) && s.head.Some? && s.pr.Some? ==> DR.Held(t))
              && (!e.fact.Terminal? ==> t.terminal.None?)
              && (e.fact.Batch? ==> t.reason == Some(Reason.Feedback) && t.notes == e.fact.notes)
              && (!e.fact.Batch? ==> t.notes == [])
              && (e.fact.Conflicting? ==> t.reason == Some(Rebase) && t.conflict.Some?)
              && (e.fact.Failure? ==> t.reason == Some(Ci) && t.pipeline.Some?)
  {
    hide AtHead, Relevant;
    HeadIsShaped(s.(observationKey := Or(e.key, s.observationKey)), e.remoteHead);
    match e.fact
    case Batch(_, _) =>
    case Failure(_) =>
    case Conflicting(_) =>
    case _ =>
  }

  lemma HeadIsShaped(s: Pub, head: Option<Sha>)
    ensures var t := AtHead(s, head);
            && t == s.(head := t.head, workBaseline := t.workBaseline, lastPublished := t.lastPublished, pipeline := t.pipeline)
            && (s.head.Some? ==> t.head.Some?)
  {
  }

  lemma DispatchIsShaped(s: Pub, e: Evidence, edge: Edge, operator: bool)
    requires s.terminal.None? && s.notes == [] && s.adjustment.None? && s.result.None?
    requires s.head.Some? && s.pr.Some?
    requires match e.fact
             case Batch(notes, _) => edge == ToFeedback && notes != []
             case Conflicting(_) => edge == ToConflict
             case Failure(_) => edge in {ToCi, ToOperator}
             case _ => false
    ensures Dispatch(s, e, edge, operator).Some? ==> Shaped(s, Dispatch(s, e, edge, operator).value)
  {
    ApplyIsShaped(s, e, !operator);
    hide Apply;
  }

  lemma RouteIsShaped(s: Pub, e: Evidence, project: nat, o: Sight)
    requires s.terminal.None? && s.notes == [] && s.adjustment.None? && s.result.None?
    requires s.head.Some? && s.pr.Some?
    requires e.fact.Batch? ==> e.fact.notes != []
    ensures Route(s, s, e, project, o).Some? ==> Shaped(s, Route(s, s, e, project, o).value)
  {
    hide Dispatch, Known;
    match e.fact
    case Batch(_, _) => DispatchIsShaped(s, e, ToFeedback, false);
    case Conflicting(_) => DispatchIsShaped(s, e, ToConflict, false);
    case Failure(_) =>
      DispatchIsShaped(s, e, ToOperator, true);
      DispatchIsShaped(s, e, ToCi, false);
    case _ =>
  }

  lemma EvidenceHasNotes(s: Pub, o: Sight)
    ensures EvidenceFor(s, o).Some? && EvidenceFor(s, o).value.fact.Batch? ==> EvidenceFor(s, o).value.fact.notes != []
  {
    hide Divergence;
  }

  lemma DecideIsShaped(start: Pub, atDeliver: bool, executing: bool, project: nat, o: Sight)
    requires start.pending.None? && !Finished(start)
    ensures var d := Decide(start, atDeliver, executing, project, o); d.Some? ==> Shaped(start, d.value)
  {
    var s := HeadMoved(start, executing, o.head);
    EvidenceHasNotes(s, o);
    hide Route, EvidenceFor;
    if EvidenceFor(s, o).Some? && s.head.Some? && s.pr.Some? && s.notes == [] && s.adjustment.None? && s.result.None? {
      RouteIsShaped(s, EvidenceFor(s, o).value, project, o);
    }
  }

  /** Every edge that the policy chooses on an unfinished repository opens the gate of its repair turn. */
  lemma EdgesOpenTheirGates(start: Pub, atDeliver: bool, executing: bool, project: nat, o: Sight)
    requires start.pending.None? && !Finished(start)
    ensures var d := Decide(start, atDeliver, executing, project, o);
            d.Some? ==> match d.value.edge
                        case None => true
                        case Some(ToCi) => CiGate(d.value.s)
                        case Some(ToOperator) => true
                        case Some(_) => FeedbackGate(d.value.s)
  {
    DecideIsShaped(start, atDeliver, executing, project, o);
    hide Decide;
  }

  // ---------------------------------------------------------------- what every run keeps

  /** Repairs and results belong to Deliver, a running repair has an open gate, and a retry knows its reason. */
  predicate Steady(st: Setting, w: World) {
    && !st.coordinated && w.s.pending.None?
    && (w.s.adjustment.Some? || w.s.result.Some? ==> w.at in {F.AtDeliver, F.Over})
    && (w.s.notes != [] ==> w.s.reason == Some(Reason.Feedback))
    && DR.Held(w.s)
    && (w.executing && w.at in {F.AtFeedback, F.AtCi} && !Finished(w.s) ==> GateIsOpen(st, w))
    && (w.at == F.AtCi ==> w.s.reason == Some(Ci))
    && (w.at in {F.AtFeedback, F.AtOperator} && w.s.reason.None? ==> w.s.reconciliationRequired)
  }

  /** A repair turn is selected, nothing executes, and its gate is closed although the request is open. */
  predicate Blocked(st: Setting, w: World) {
    w.at in {F.AtFeedback, F.AtCi} && !w.executing && !Finished(w.s) && !GateIsOpen(st, w)
  }

  /** The look shows an open request without feedback, failure or conflict to hand over. */
  predicate Quiet(s: Pub, o: Sight) {
    && s.pr.Some? && s.pr.value.number == o.iid && o.request == Opened
    && Divergence(s, o).None? && o.feedback == []
    && !(o.pipeline.Some? && o.pipeline.value.status == Failed && o.current)
  }

  /** A quiet look takes away what the selected repair turn was waiting for: the head moved, or the pipeline is gone. */
  predicate TakesAway(w: World, o: Sight) {
    && w.at in {F.AtFeedback, F.AtCi} && !w.executing && !Finished(w.s) && Quiet(HeadMoved(w.s, false, o.head), o)
    && if w.at == F.AtFeedback then
         w.s.notes == [] && !w.s.reconciliationRequired && w.s.conflict.Some? && Some(o.head) != w.s.head
       else o.pipeline.None?
  }

  /** The steps that select a closed repair turn, or close the selected one. */
  predicate Closes(st: Setting, w: World, a: Action)
    requires Enabled(st, w, a)
  {
    match a
    case Retried => !Finished(w.s) && F.RetriesNothing(w.s)
    case Look(sight, seen) => TakesAway(w, sight.(feedback := FeedbackRuns.Feedback(w, seen)))
    case Skim(sight) => TakesAway(w, sight.(feedback := []))
    case _ => false
  }

  lemma QuietIsObserved(s: Pub, o: Sight)
    ensures s.head.Some? ==> (Quiet(s, o) <==> EvidenceFor(s, o).Some? && EvidenceFor(s, o).value.fact.Observed?)
  {
    hide Divergence;
  }

  /** What a look makes of a process at an open repair turn. */
  lemma LookBlocksIff(st: Setting, w: World, o: Sight)
    requires Steady(st, w) && w.at in {F.AtFeedback, F.AtCi} && !w.executing && !Finished(w.s) && GateIsOpen(st, w)
    ensures var d := Judged(st, w, o);
            (d.Some? && d.value.edge.None? && !Finished(d.value.s) && !GateIsOpen(st, w.(s := d.value.s))) <==> TakesAway(w, o)
  {
    var s := HeadMoved(w.s, false, o.head);
    QuietIsObserved(s, o);
    EvidenceEnds(s, o);
    hide Quiet, EvidenceFor, Dispatch;
    if EvidenceFor(s, o).Some? {
      DispatchHasEdge(s, EvidenceFor(s, o).value);
    }
  }

  lemma EvidenceEnds(s: Pub, o: Sight)
    ensures EvidenceFor(s, o).Some? && EvidenceFor(s, o).value.fact.Failure? ==> o.pipeline.Some? && o.pipeline.value.status == Failed
    ensures EvidenceFor(s, o).Some? ==> !EvidenceFor(s, o).value.fact.Cancelled?
  {
    hide Divergence;
  }

  lemma DispatchHasEdge(s: Pub, e: Evidence)
    ensures forall edge, operator :: Dispatch(s, e, edge, operator).Some? ==> Dispatch(s, e, edge, operator).value.edge == Some(edge)
  {
    hide Apply;
  }

  // ---------------------------------------------------------------- every step

  /** A decision without an edge that is saved. */
  lemma SavedIsSteady(st: Setting, w: World, d: Decision)
    requires Steady(st, w) && Shaped(w.s, d) && d.edge.None? && d.s.pending.None? && !w.executing
    ensures Steady(st, w.(s := d.s))
  {
  }

  lemma DeskIsSteady(st: Setting, w: World, desk: Desk)
    ensures (Steady(st, w.(desk := desk)) <==> Steady(st, w)) && (Blocked(st, w.(desk := desk)) <==> Blocked(st, w))
  {
  }

  lemma LookIsSteady(st: Setting, w: World, a: Action)
    requires Steady(st, w) && Enabled(st, w, a) && (a.Look? || a.Skim?)
    ensures Steady(st, Do(st, w, a))
  {
    var o := if a.Look? then a.sight.(feedback := FeedbackRuns.Feedback(w, a.seen)) else a.sight.(feedback := []);
    var d := Judged(st, w, o);
    assert w.s.pending.None?;
    DecisionsKeepCursor(w.s, w.at == F.AtDeliver, w.executing, st.project, o);
    if Finished(w.s) {
      FinishedStays(w.s, w.at == F.AtDeliver, w.executing, st.project, o);
    } else {
      DecideIsShaped(w.s, w.at == F.AtDeliver, w.executing, st.project, o);
    }
    hide Decide, Steady, Shaped, Blocked;
    if d.Some? && d.value.edge.None? && !w.executing {
      if Finished(w.s) {
        assert w.(s := d.value.s) == w;
      } else {
        SavedIsSteady(st, w, d.value);
      }
      DeskIsSteady(st, w.(s := d.value.s), Routed);
    }
    DeskIsSteady(st, w, Routed);
    if d.Some? {
      DeskIsSteady(st, w, Decided(w.Now(), o, d.value));
    }
  }

  lemma FinishedStays(s: Pub, atDeliver: bool, executing: bool, project: nat, o: Sight)
    requires Finished(s)
    ensures Decide(s, atDeliver, executing, project, o) == Some(Decision.Decision(s, None))
  {
  }

  lemma FireIsSteady(st: Setting, w: World)
    requires Steady(st, w) && DeskOk(st, w) && w.desk.Decided?
    ensures Steady(st, Fired(w))
    ensures Fires(w) ==> !Blocked(st, Fired(w))
  {
    var work := w.desk.work;
    if Finished(work.s) {
      FinishedStays(work.s, work.at == F.AtDeliver, work.executing, st.project, w.desk.sight);
    } else {
      DecideIsShaped(work.s, work.at == F.AtDeliver, work.executing, st.project, w.desk.sight);
      DecisionsKeepCursor(work.s, work.at == F.AtDeliver, work.executing, st.project, w.desk.sight);
    }
    hide Decide, Complete;
  }

  lemma DeliveredIsSteady(st: Setting, w: World, a: Answers)
    requires Steady(st, w) && Enabled(st, w, Delivered(a))
    ensures Steady(st, Do(st, w, Delivered(a))) && !Blocked(st, Do(st, w, Delivered(a)))
  {
    DR.ExecutionSelects(st.Cfg(), a, w.s);
    DR.ExecutionsKeepFeedback(st.Cfg(), a, w.s);
    hide Run;
  }

  lemma PollIsSteady(st: Setting, w: World, a: Action)
    requires Steady(st, w) && Enabled(st, w, a) && (a.Post? || a.Refuse? || a.Begin? || a.Answer? || a.Drop?)
    ensures Steady(st, Do(st, w, a))
    ensures Blocked(st, Do(st, w, a)) <==> Blocked(st, w)
  {
    RestFrame(st, w, a);
    hide Messages;
  }

  /** Both are about the process alone. */
  lemma ProcessDecides(st: Setting, w: World, t: World)
    requires t.s == w.s && t.at == w.at && t.executing == w.executing && t.waiting == w.waiting
    ensures Steady(st, t) <==> Steady(st, w)
    ensures Blocked(st, t) <==> Blocked(st, w)
  {
  }

  lemma SettledIsSteady(st: Setting, w: World)
    requires Steady(st, w) && w.s.result.Some?
    ensures Steady(st, w.(s := Settled(w.s))) && !Blocked(st, w) && !Blocked(st, w.(s := Settled(w.s)))
  {
  }

  lemma SettleIsSteady(st: Setting, w: World)
    requires Steady(st, w) && Enabled(st, w, Settle)
    ensures Steady(st, Do(st, w, Settle))
    ensures Blocked(st, Do(st, w, Settle)) <==> Blocked(st, w)
  {
    hide *;
    SettleFrame(st, w);
    var t := Do(st, w, Settle);
    if t == w.(desk := Resting) {
      ProcessDecides(st, w, t);
    } else {
      SettledIsSteady(st, w);
      ProcessDecides(st, w.(s := Settled(w.s)), t);
    }
  }

  lemma EngineIsSteady(st: Setting, w: World, a: Action)
    requires Steady(st, w) && Enabled(st, w, a)
    requires a.Park? || a.Unpark? || a.Start? || a.Fail? || a.Elsewhere? || a.Sees?
    ensures Steady(st, Do(st, w, a))
    ensures !Blocked(st, w) ==> !Blocked(st, Do(st, w, a))
  {
  }

  lemma EndIsSteady(st: Setting, w: World, a: Action)
    requires Steady(st, w) && Enabled(st, w, a) && (a.Stop? || a.End?)
    ensures Steady(st, Do(st, w, a)) && !Blocked(st, Do(st, w, a))
  {
  }

  lemma TurnIsSteady(st: Setting, w: World, a: Action)
    requires Steady(st, w) && Enabled(st, w, a) && (a.Repaired? || a.GaveUp? || a.Retried? || a.Resumed?)
    ensures Steady(st, Do(st, w, a))
    ensures Blocked(st, Do(st, w, a)) <==> Closes(st, w, a)
  {
    ReasonIsOneOf(w.s.reason);
  }

  lemma ReasonIsOneOf(r: Option<Reason>)
    ensures r in {None, Some(Reason.Feedback), Some(Ci), Some(Rebase)}
  {
    if r.Some? {
      match r.value
      case Feedback =>
      case Ci =>
      case Rebase =>
    }
  }

  lemma OtherIsSteady(st: Setting, w: World, a: Action)
    requires Steady(st, w) && Enabled(st, w, a) && !a.Look? && !a.Skim? && !a.Fire? && !a.Delivered?
    ensures Steady(st, Do(st, w, a))
    ensures !Blocked(st, w) ==> (Blocked(st, Do(st, w, a)) <==> Closes(st, w, a))
  {
    hide Steady, Blocked, Do, Enabled;
    if a.Post? || a.Refuse? || a.Begin? || a.Answer? || a.Drop? {
      PollIsSteady(st, w, a);
    } else if a.Settle? {
      SettleIsSteady(st, w);
    } else if a.Park? || a.Unpark? || a.Start? || a.Fail? || a.Elsewhere? || a.Sees? {
      EngineIsSteady(st, w, a);
    } else if a.Stop? || a.End? {
      EndIsSteady(st, w, a);
    } else {
      TurnIsSteady(st, w, a);
    }
  }

  /**
   For every step of a maintained process with one repository: it blocks a repair turn
   exactly when it is a retry without anything to repair, or a quiet look that takes the
   work away from the selected turn.
   */
  lemma BlocksIff(st: Setting, w: World, a: Action)
    requires Steady(st, w) && DeskOk(st, w) && Enabled(st, w, a) && !Blocked(st, w)
    ensures Steady(st, Do(st, w, a))
    ensures Blocked(st, Do(st, w, a)) <==> Closes(st, w, a)
  {
    match a
    case Look(_, _) => LookBlocks(st, w, a);
    case Skim(_) => LookBlocks(st, w, a);
    case Fire => FireBlocks(st, w);
    case Delivered(answers) => DeliveredIsSteady(st, w, answers);
    case _ => OtherIsSteady(st, w, a);
  }

  lemma FireBlocks(st: Setting, w: World)
    requires Steady(st, w) && DeskOk(st, w) && Enabled(st, w, Fire) && !Blocked(st, w)
    ensures Steady(st, Do(st, w, Fire)) && !Blocked(st, Do(st, w, Fire))
  {
    FireIsSteady(st, w);
    hide Decide, Complete;
  }

  lemma LookBlocks(st: Setting, w: World, a: Action)
    requires Steady(st, w) && Enabled(st, w, a) && !Blocked(st, w) && (a.Look? || a.Skim?)
    ensures Steady(st, Do(st, w, a))
    ensures Blocked(st, Do(st, w, a)) <==> Closes(st, w, a)
  {
    LookIsSteady(st, w, a);
    var o := if a.Look? then a.sight.(feedback := FeedbackRuns.Feedback(w, a.seen)) else a.sight.(feedback := []);
    var saved := LookSaves(st, w, a, o);
    DeskIsSteady(st, w.(s := saved), Do(st, w, a).desk);
    if w.at in {F.AtFeedback, F.AtCi} && !w.executing && !Finished(w.s) {
      LookBlocksIff(st, w, o);
    }
    if Finished(w.s) {
      FinishedStays(w.s, w.at == F.AtDeliver, w.executing, st.project, o);
    }
    hide Do, Decide, HeadMoved, Quiet, Steady, Enabled;
  }

  /** The state a look leaves behind, apart from the poll itself. */
  function Saved(st: Setting, w: World, o: Sight): Pub {
    var d := Judged(st, w, o);
    if d.Some? && d.value.edge.None? && !w.executing then d.value.s else w.s
  }

  lemma LookSaves(st: Setting, w: World, a: Action, o: Sight) returns (saved: Pub)
    requires Enabled(st, w, a) && (a.Look? || a.Skim?)
    requires o == if a.Look? then a.sight.(feedback := FeedbackRuns.Feedback(w, a.seen)) else a.sight.(feedback := [])
    ensures saved == Saved(st, w, o) && Do(st, w, a) == w.(s := saved, desk := Do(st, w, a).desk)
  {
    saved := Saved(st, w, o);
    hide Decide;
  }

  // ---------------------------------------------------------------- every run

  lemma {:induction false} SteadyHolds(st: Setting, w: World, run: seq<Action>)
    requires Fine(st, w) && Steady(st, w) && Legal(st, w, run)
    ensures Fine(st, After(st, w, run)) && Steady(st, After(st, w, run))
  {
    hide Enabled, Do, Fine, Steady;
    InvHolds(st, w, run);
    if run != [] {
      var before, a := run[..|run| - 1], run[|run| - 1];
      SteadyHolds(st, w, before);
      FineParts(st, After(st, w, before));
      StepIsSteady(st, After(st, w, before), a);
    }
  }

  lemma StepIsSteady(st: Setting, w: World, a: Action)
    requires Steady(st, w) && DeskOk(st, w) && Enabled(st, w, a)
    ensures Steady(st, Do(st, w, a))
  {
    hide Steady, Do, Enabled, DeskOk;
    match a
    case Look(_, _) => LookIsSteady(st, w, a);
    case Skim(_) => LookIsSteady(st, w, a);
    case Fire => FireStepIsSteady(st, w);
    case Delivered(answers) => DeliveredIsSteady(st, w, answers);
    case _ => OtherIsSteady(st, w, a);
  }

  lemma FireStepIsSteady(st: Setting, w: World)
    requires Steady(st, w) && DeskOk(st, w) && Enabled(st, w, Fire)
    ensures Steady(st, Do(st, w, Fire))
  {
    FireIsSteady(st, w);
    hide Decide, Complete;
  }

  /**
   Over every run from an unblocked state: a process that ends up blocked has a step `k`
   that blocked it, a retry without anything to repair or a quiet look that took the work
   away; without such a step it is never blocked.
   */
  lemma {:induction false} BlockedBecause(st: Setting, w: World, run: seq<Action>) returns (k: nat)
    requires Fine(st, w) && Steady(st, w) && !Blocked(st, w) && Legal(st, w, run)
    ensures Blocked(st, After(st, w, run)) ==>
              && k < |run| && Legal(st, w, run[..k]) && Enabled(st, After(st, w, run[..k]), run[k])
              && !Blocked(st, After(st, w, run[..k])) && Closes(st, After(st, w, run[..k]), run[k])
  {
    hide Enabled, Do, Fine, Steady, Blocked, Closes;
    k := 0;
    if run != [] {
      var before, a := run[..|run| - 1], run[|run| - 1];
      k := BlockedBecause(st, w, before);
      if Blocked(st, After(st, w, before)) {
        assert run[..k] == before[..k];
      } else {
        SteadyHolds(st, w, before);
        FineParts(st, After(st, w, before));
        BlocksIff(st, After(st, w, before), a);
        k := |run| - 1;
      }
    }
  }

  /** Address Feedback is selected and has nothing to work on. */
  predicate Stranded(w: World) {
    && w.at == F.AtFeedback && !w.executing && w.s.pending.None? && w.s.adjustment.None? && w.s.result.None?
    && w.s.notes == [] && w.s.conflict.None? && !w.s.reconciliationRequired
  }

  lemma StrandedStep(st: Setting, w: World, a: Action)
    requires !st.coordinated && Stranded(w) && Enabled(st, w, a) && !a.Stop? && !a.End?
    ensures a != Start && Stranded(Do(st, w, a))
  {
    if a.Look? || a.Skim? {
      var o := if a.Look? then a.sight.(feedback := FeedbackRuns.Feedback(w, a.seen)) else a.sight.(feedback := []);
      StrandedLook(st, w, o);
      hide Decide;
    } else {
      hide Decide, Messages, Run;
    }
  }

  /** What a look can save for a stranded process leaves it stranded. */
  lemma StrandedLook(st: Setting, w: World, o: Sight)
    requires Stranded(w)
    ensures var d := Judged(st, w, o); d.Some? && d.value.edge.None? ==> Stranded(w.(s := d.value.s))
  {
    var s := HeadMoved(w.s, false, o.head);
    hide EvidenceFor, Known, Dispatch;
    if EvidenceFor(s, o).Some? {
      DispatchHasEdge(s, EvidenceFor(s, o).value);
    }
  }

  /** Only the end of the request helps: until it ends or is stopped, every continuation stays, and no worker starts. */
  lemma {:induction false} StrandedStays(st: Setting, w: World, run: seq<Action>)
    requires !st.coordinated && Stranded(w) && Legal(st, w, run)
    requires forall i :: 0 <= i < |run| ==> !run[i].Stop? && !run[i].End?
    ensures Stranded(After(st, w, run))
    ensures forall i :: 0 <= i < |run| ==> run[i] != Start
  {
    hide Enabled, Do, Stranded;
    if run != [] {
      StrandedStays(st, w, run[..|run| - 1]);
      StrandedStep(st, After(st, w, run[..|run| - 1]), run[|run| - 1]);
    }
  }

  /** A blocked feedback turn is stranded; a blocked CI turn opens with the next pipeline that a quiet look shows. */
  lemma BlockedFeedbackIsStranded(st: Setting, w: World)
    requires Steady(st, w) && Blocked(st, w)
    ensures w.at == F.AtFeedback ==> Stranded(w)
    ensures w.at == F.AtCi ==> w.s.reason == Some(Ci) && w.s.pipeline.None?
  {
  }

  lemma BlockedCiOpensIff(st: Setting, w: World, o: Sight)
    requires Steady(st, w) && Blocked(st, w) && w.at == F.AtCi && w.s.head.Some? && w.s.pr.Some?
    ensures var d := Judged(st, w, o);
            (d.Some? && d.value.edge.None? && CiGate(d.value.s)) <==>
              o.pipeline.Some? && Quiet(HeadMoved(w.s, false, o.head), o)
  {
    var s := HeadMoved(w.s, false, o.head);
    QuietIsObserved(s, o);
    EvidenceEnds(s, o);
    hide Quiet, EvidenceFor, Dispatch;
    if EvidenceFor(s, o).Some? {
      DispatchHasEdge(s, EvidenceFor(s, o).value);
    }
  }

  // ---------------------------------------------------------------- how a process gets stranded

  /** A look at a request that conflicts with its target. */
  function Diverged(head: Sha, link: Link, base: Sha): Sight {
    Plain(head, link).(diverged := Some(base))
  }

  /** The state after the conflict was handed to a worker. */
  function Conflicted(s: Pub, head: Sha, link: Link, base: Sha): Pub {
    var c := Conflict(link.number, head, base);
    s.(observationKey := Some(""), conflict := Some(c), lastConflict := Some(c), reason := Some(Rebase), repairPending := true)
  }

  lemma ConflictLook(st: Setting, w: World, head: Sha, link: Link, base: Sha)
    requires w.at == F.AtDeliver && !w.executing && w.waiting && w.desk.Resting? && w.s.pending.None? && !Finished(w.s)
    requires w.s.head == Some(head) && w.s.pr == Some(link) && w.s.adjustment.None? && w.s.result.None? && w.s.notes == []
    requires w.s.conflict.None? && w.s.lastConflict.None? && !w.s.repairPending
    ensures var look := Look(Diverged(head, link, base), None);
            && Enabled(st, w, look)
            && var t := Do(st, w, look);
            && t == w.(desk := t.desk) && Fires(t)
            && t.desk.decision == Decision.Decision(Conflicted(w.s, head, link, base), Some(ToConflict))
  {
  }

  /** Hand a decision over: the edge fires and the poll is over. */
  lemma HandOver(st: Setting, w: World, run: seq<Action>, look: Action, s: Pub, edge: Edge)
    requires Legal(st, w, run) && Enabled(st, After(st, w, run), look)
    requires var t := After(st, w, run); var u := Do(st, t, look);
             u == t.(desk := u.desk) && Fires(u) && u.desk.decision == Decision.Decision(s, Some(edge)) && t.desk == Resting
    ensures Legal(st, w, run + [look] + [Fire] + [Drop])
    ensures After(st, w, run + [look] + [Fire] + [Drop]) == After(st, w, run).(s := s, at := TurnOf(edge))
  {
    hide *;
    Extend(st, w, run, look);
    FireStep(st, After(st, w, run + [look]));
    Extend(st, w, run + [look], Fire);
    DropStep(st, After(st, w, run + [look] + [Fire]));
    Extend(st, w, run + [look] + [Fire], Drop);
  }

  /** The head moves to a commit without a conflict while the process is idle away from Deliver. */
  lemma QuietLook(st: Setting, w: World, head: Sha, link: Link, base: Sha, s: Pub, other: Sha)
    requires w.s == Conflicted(s, head, link, base) || w.s == Conflicted(s, head, link, base).(repairPending := false)
    requires w.at in {F.AtFeedback, F.AtOperator} && !w.executing && w.desk.Resting? && other != head
    requires s.pending.None? && !Finished(s) && s.head == Some(head) && s.pr == Some(link) && s.adjustment.None? && s.result.None?
    requires s.notes == [] && !s.reconciliationRequired
    ensures var look := Look(Plain(other, link), None);
            && Enabled(st, w, look)
            && var t := Do(st, w, look);
            && t == w.(s := t.s, desk := Routed) && !Finished(t.s) && Stranded(t.(at := F.AtFeedback, desk := Resting))
            && t.s.reason == Some(Rebase)
  {
  }

  lemma PublishedIsPlain(head: Sha, link: Link)
    ensures var s := Published(head, link);
            && s.pending.None? && !Finished(s) && s.head == Some(head) && s.pr == Some(link) && s.adjustment.None? && s.result.None?
            && s.notes == [] && !s.reconciliationRequired && s.conflict.None? && s.lastConflict.None? && !s.repairPending
            && s.pipeline.None? && s.ciCycles == 0 && s.stage == Awaiting && s.issueLinked
  {
  }

  /** A published request before its first feedback. */
  predicate Starts(w: World, head: Sha, link: Link) {
    Begins(w) && w.s == Published(head, link) && w.at == F.AtDeliver && w.waiting && !w.executing
  }

  lemma StartsFacts(st: Setting, w: World, head: Sha, link: Link)
    requires Starts(w, head, link)
    ensures Legal(st, w, []) && After(st, w, []) == w
    ensures w.at == F.AtDeliver && w.waiting && !w.executing && w.desk == Resting && w.s == Published(head, link)
  {
  }

  /** A conflict is handed to the feedback turn. */
  lemma ConflictIsHanded(st: Setting, w: World, head: Sha, link: Link, base: Sha) returns (run: seq<Action>)
    requires Starts(w, head, link)
    ensures Legal(st, w, run)
    ensures After(st, w, run) == w.(s := Conflicted(Published(head, link), head, link, base), at := F.AtFeedback)
    ensures w.desk == Resting && w.waiting && !w.executing
  {
    assert TurnOf(ToConflict) == F.AtFeedback;
    hide *;
    StartsFacts(st, w, head, link);
    PublishedIsPlain(head, link);
    ConflictLook(st, w, head, link, base);
    var look := Look(Diverged(head, link, base), None);
    HandOver(st, w, [], look, Conflicted(w.s, head, link, base), ToConflict);
    run := [] + [look] + [Fire] + [Drop];
  }

  /** Without any operator: the selected feedback turn loses its conflict before the wait check. */
  lemma MovedHeadStrandsTheRepair(st: Setting, w: World, head: Sha, link: Link, base: Sha, other: Sha) returns (run: seq<Action>)
    requires Starts(w, head, link) && other != head
    ensures Legal(st, w, run) && Stranded(After(st, w, run)) && !Finished(After(st, w, run).s)
  {
    assert forall t: World, d: Desk :: t.at == F.AtFeedback && Stranded(t.(at := F.AtFeedback, desk := Resting)) ==> Stranded(t.(desk := d));
    hide *;
    run := ConflictIsHanded(st, w, head, link, base);
    PublishedIsPlain(head, link);
    QuietLook(st, After(st, w, run), head, link, base, Published(head, link), other);
    var look := Look(Plain(other, link), None);
    Extend(st, w, run, look);
    run := run + [look];
    var t := After(st, w, run);
    assert t == t.(desk := t.desk);
  }

  lemma ConflictStarts(st: Setting, w: World, s: Pub, head: Sha, link: Link, base: Sha)
    requires w.s == Conflicted(s, head, link, base) && !Finished(s) && w.at == F.AtFeedback && w.waiting && !w.executing
    ensures GateIsOpen(st, w)
    ensures var t := w.(executing := true, waiting := false);
            && Enabled(st, t, GaveUp)
            && Do(st, t, GaveUp) == w.(s := w.s.(repairPending := false), at := F.AtOperator, waiting := true)
  {
  }

  lemma RetryStrands(st: Setting, w: World)
    requires w.at == F.AtOperator && !w.executing && w.s.reason == Some(Rebase) && Stranded(w.(at := F.AtFeedback, desk := Resting))
    ensures Enabled(st, w, Retried) && Stranded(Do(st, w, Retried)) && (!Finished(w.s) ==> !Finished(Do(st, w, Retried).s))
  {
  }

  /** With an operator: the conflict is given up, the head moves, and the retry selects a turn without work. */
  lemma RetryStrandsTheRepair(st: Setting, w: World, head: Sha, link: Link, base: Sha, other: Sha) returns (run: seq<Action>)
    requires Starts(w, head, link) && other != head
    ensures Legal(st, w, run) && Stranded(After(st, w, run)) && !Finished(After(st, w, run).s)
    ensures run != [] && run[|run| - 1] == Retried
  {
    hide *;
    run := ConflictIsHanded(st, w, head, link, base);
    PublishedIsPlain(head, link);
    ConflictStarts(st, After(st, w, run), Published(head, link), head, link, base);
    StartStep(st, After(st, w, run));
    Extend(st, w, run, Start);
    Extend(st, w, run + [Start], GaveUp);
    run := run + [Start] + [GaveUp];
    QuietLook(st, After(st, w, run), head, link, base, Published(head, link), other);
    var look := Look(Plain(other, link), None);
    Extend(st, w, run, look);
    run := run + [look];
    RetryStrands(st, After(st, w, run));
    Extend(st, w, run, Retried);
    run := run + [Retried];
  }

  /** Such a process is within all that was said about runs. */
  lemma StartsAreSteady(st: Setting, w: World, head: Sha, link: Link)
    requires Starts(w, head, link) && !st.coordinated
    ensures Fine(st, w) && Steady(st, w) && !Blocked(st, w)
  {
    NothingIsComplete(w.notes, 0);
  }

  // ---------------------------------------------------------------- a failure that is counted twice

  /** A look at a request whose current pipeline failed. */
  function Failing(head: Sha, link: Link, p: Pipeline): Sight {
    Plain(head, link).(pipeline := Some(p), current := true)
  }

  function Counted(s: Pub, p: Pipeline): Pub {
    s.(observationKey := Some(""), reason := Some(Ci), pipeline := Some(p), ciCycles := s.ciCycles + 1, repairPending := true)
  }

  /** Deliver is selected and waits, with nothing retained. */
  predicate Ready(w: World, head: Sha, link: Link) {
    && w.at == F.AtDeliver && !w.executing && w.waiting && w.desk == Resting && w.s.pending.None? && !Finished(w.s)
    && w.s.head == Some(head) && w.s.pr == Some(link) && w.s.adjustment.None? && w.s.result.None? && w.s.notes == []
    && w.s.conflict.None? && w.s.lastConflict.None? && !w.s.repairPending && w.s.ciCycles < 3 && w.s.issueLinked
  }

  lemma FailureLook(st: Setting, w: World, head: Sha, link: Link, p: Pipeline)
    requires Ready(w, head, link) && p.status == Failed && w.s.pipeline.None?
    ensures var look := Look(Failing(head, link, p), None);
            && Enabled(st, w, look)
            && var t := Do(st, w, look);
            && t == w.(desk := t.desk) && Fires(t) && Counts(t) && t.desk.sight.pipeline == Some(p)
            && t.desk.decision == Decision.Decision(Counted(w.s, p), Some(ToCi))
  {
  }

  lemma ReadyConflictLook(st: Setting, w: World, head: Sha, link: Link, base: Sha)
    requires Ready(w, head, link)
    ensures var look := Look(Diverged(head, link, base), None);
            && Enabled(st, w, look)
            && var t := Do(st, w, look);
            && t == w.(desk := t.desk) && Fires(t)
            && t.desk.decision == Decision.Decision(Conflicted(w.s, head, link, base), Some(ToConflict))
  {
    ConflictLook(st, w, head, link, base);
    hide Do, Enabled, Fires;
  }

  /** The repair is given up and the operator resumes waiting. */
  lemma GivesBack(st: Setting, w: World, run: seq<Action>)
    requires Legal(st, w, run)
    requires var t := After(st, w, run);
             t.at in {F.AtFeedback, F.AtCi} && t.waiting && !t.executing && GateIsOpen(st, t)
    ensures var t, all := After(st, w, run), run + [Start] + [GaveUp] + [Resumed];
            && Legal(st, w, all)
            && After(st, w, all) == t.(s := t.s.(repairPending := false, notes := [], adjustment := None), at := F.AtDeliver)
  {
    var t := After(st, w, run);
    GivingUp(st, t.(executing := true, waiting := false));
    hide *;
    StartStep(st, t);
    Extend(st, w, run, Start);
    Extend(st, w, run + [Start], GaveUp);
    Extend(st, w, run + [Start] + [GaveUp], Resumed);
  }

  lemma GivingUp(st: Setting, w: World)
    requires w.executing && w.at in {F.AtFeedback, F.AtCi}
    ensures Enabled(st, w, GaveUp)
    ensures var t := Do(st, w, GaveUp);
            && Enabled(st, t, Resumed)
            && Do(st, t, Resumed) ==
                 w.(s := w.s.(repairPending := false, notes := [], adjustment := None), at := F.AtDeliver, executing := false, waiting := true)
  {
  }

  /** The prepared rebase is gone when Deliver wants to publish it. */
  function UnpreparedAnswers(head: Sha, link: Link): Answers {
    QuietAnswers(head, link).(prepared := false)
  }

  lemma UnpreparedDelivery(st: Setting, w: World, s: Pub, head: Sha, link: Link, base: Sha)
    requires !st.coordinated && w.at == F.AtFeedback && w.executing
    requires w.s == Conflicted(s, head, link, base) && s.pending.None? && !Finished(s) && s.head == Some(head) && s.pr == Some(link)
    requires s.issueLinked && !s.reconciliationRequired && s.cycles == 0 && s.result.None? && s.stage == Awaiting
    ensures Enabled(st, w, Repaired(true, ""))
    ensures var t := Do(st, w, Repaired(true, ""));
            && t.at == F.AtDeliver && t.waiting && !t.executing && GateIsOpen(st, t)
            && var u := t.(executing := true, waiting := false);
            && Enabled(st, u, Delivered(UnpreparedAnswers(head, link)))
            && Do(st, u, Delivered(UnpreparedAnswers(head, link))) ==
                 w.(s := Forgotten(w.s), at := F.AtFeedback, executing := false, waiting := true)
  {
  }

  /** The loop drops conflict and pipeline, and asks for a reconciliation. */
  function Forgotten(s: Pub): Pub {
    s.(reconciliationRequired := true, cycles := s.cycles + 1, repairPending := true, conflict := None, lastConflict := None,
    pipeline := None, adjustment := None, result := None)
  }

  lemma CountedIsOpen(st: Setting, w: World, s: Pub, p: Pipeline)
    requires w.s == Counted(s, p) && !Finished(s) && w.at == F.AtCi
    ensures GateIsOpen(st, w)
  {
  }

  lemma ForgottenIsOpen(st: Setting, w: World, s: Pub)
    requires w.s == Forgotten(s) && !Finished(s) && w.at == F.AtFeedback
    ensures GateIsOpen(st, w)
  {
  }

  lemma ConflictedIsOpen(st: Setting, w: World, s: Pub, head: Sha, link: Link, base: Sha)
    requires w.s == Conflicted(s, head, link, base) && !Finished(s) && w.at == F.AtFeedback
    ensures GateIsOpen(st, w)
  {
  }

  lemma FirstCount(st: Setting, w: World, head: Sha, link: Link, p: Pipeline) returns (first: seq<Action>, all: seq<Action>)
    requires Starts(w, head, link) && p.status == Failed
    ensures Legal(st, w, first) && Counts(After(st, w, first)) && After(st, w, first).desk.sight.pipeline == Some(p)
    ensures After(st, w, first).s.head == Some(head)
    ensures Legal(st, w, all) && first + [Fire] <= all
    ensures var t := After(st, w, all);
            && t == w.(s := Counted(Published(head, link), p).(repairPending := false))
            && Ready(t, head, link) && t.s.cycles == 0 && !t.s.reconciliationRequired && t.s.stage == Awaiting
  {
    var look := Look(Failing(head, link, p), None);
    StartIsReady(w, head, link);
    assert TurnOf(ToCi) == F.AtCi;
    hide *;
    StartsFacts(st, w, head, link);
    PublishedIsPlain(head, link);
    FailureLook(st, w, head, link, p);
    Extend(st, w, [], look);
    first := [] + [look];
    HandOver(st, w, [], look, Counted(w.s, p), ToCi);
    all := [] + [look] + [Fire] + [Drop];
    CountedIsOpen(st, After(st, w, all), w.s, p);
    GivesBack(st, w, all);
    all := all + [Start] + [GaveUp] + [Resumed];
    CountedIsReady(After(st, w, all), head, link, p);
  }

  lemma StartIsReady(w: World, head: Sha, link: Link)
    requires Starts(w, head, link)
    ensures Ready(w, head, link) && w.s.pipeline.None?
  {
  }

  lemma CountedIsReady(w: World, head: Sha, link: Link, p: Pipeline)
    requires w.s == Counted(Published(head, link), p).(repairPending := false, notes := [], adjustment := None)
    requires w.at == F.AtDeliver && w.waiting && !w.executing && w.desk == Resting
    ensures w.s == Counted(Published(head, link), p).(repairPending := false)
    ensures Ready(w, head, link) && w.s.cycles == 0 && !w.s.reconciliationRequired && w.s.stage == Awaiting
  {
  }

  lemma RecordIsDropped(st: Setting, w: World, run: seq<Action>, head: Sha, link: Link, base: Sha) returns (all: seq<Action>)
    requires !st.coordinated && Legal(st, w, run)
    requires var t := After(st, w, run);
             Ready(t, head, link) && t.s.cycles == 0 && !t.s.reconciliationRequired && t.s.stage == Awaiting
    ensures Legal(st, w, all) && run <= all
    ensures Ready(After(st, w, all), head, link) && After(st, w, all).s.pipeline.None?
  {
    var t, look, a := After(st, w, run), Look(Diverged(head, link, base), None), UnpreparedAnswers(head, link);
    assert TurnOf(ToConflict) == F.AtFeedback;
    ReadyFacts(t, head, link);
    ForgottenIsReady(t, head, link, base);
    hide *;
    ReadyConflictLook(st, t, head, link, base);
    var s := Conflicted(t.s, head, link, base);
    HandOver(st, w, run, look, s, ToConflict);
    all := run + [look] + [Fire] + [Drop];
    ConflictedIsOpen(st, After(st, w, all), t.s, head, link, base);
    StartStep(st, After(st, w, all));
    Extend(st, w, all, Start);
    all := all + [Start];
    UnpreparedDelivery(st, After(st, w, all), t.s, head, link, base);
    Extend(st, w, all, Repaired(true, ""));
    all := all + [Repaired(true, "")];
    StartStep(st, After(st, w, all));
    Extend(st, w, all, Start);
    all := all + [Start];
    Extend(st, w, all, Delivered(a));
    all := all + [Delivered(a)];
    ForgottenIsOpen(st, After(st, w, all), s);
    GivesBack(st, w, all);
    all := all + [Start] + [GaveUp] + [Resumed];
  }

  lemma ReadyFacts(w: World, head: Sha, link: Link)
    requires Ready(w, head, link)
    ensures w.at == F.AtDeliver && !w.executing && w.waiting && w.desk == Resting && w.s.pending.None? && !Finished(w.s)
    ensures w.s.head == Some(head) && w.s.pr == Some(link) && w.s.result.None? && w.s.issueLinked
    ensures forall base :: !Finished(Conflicted(w.s, head, link, base))
  {
  }

  lemma ForgottenIsReady(w: World, head: Sha, link: Link, base: Sha)
    requires Ready(w, head, link)
    ensures var s := Forgotten(Conflicted(w.s, head, link, base)).(repairPending := false, notes := [], adjustment := None);
            Ready(w.(s := s), head, link) && s.pipeline.None?
  {
  }

  /**
   From a published request: the same failed pipeline is counted twice at the same head. In
   between a target rebase was to be published that was no longer prepared, which drops the
   record without moving the branch.
   */
  lemma FailureIsCountedTwice(st: Setting, w: World, head: Sha, link: Link, base: Sha, p: Pipeline)
    returns (first: seq<Action>, second: seq<Action>)
    requires Starts(w, head, link) && p.status == Failed && !st.coordinated
    ensures Legal(st, w, first) && Legal(st, w, second) && first + [Fire] <= second
    ensures Counts(After(st, w, first)) && Counts(After(st, w, second))
    ensures After(st, w, first).desk.sight.pipeline == Some(p) && After(st, w, second).desk.sight.pipeline == Some(p)
    ensures After(st, w, first).s.head == Some(head) && After(st, w, second).s.head == Some(head)
  {
    hide *;
    var all;
    first, all := FirstCount(st, w, head, link, p);
    second := RecordIsDropped(st, w, all, head, link, base);
    var t := After(st, w, second);
    ReadyFacts(t, head, link);
    FailureLook(st, t, head, link, p);
    Extend(st, w, second, Look(Failing(head, link, p), None));
    second := second + [Look(Failing(head, link, p), None)];
  }
}
