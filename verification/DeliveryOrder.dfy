/** What every write to a publication state keeps, in every configuration. */
module DeliveryOrder {
  import opened Git
  import opened Delivery
  import opened DeliveryRuns
  import P = Policy

  predicate Ready(s: Pub) {
    s.head.Some? && s.pr.Some? && s.issueLinked
  }

  /**
   Waiting and results come after publication, a target rebase is about a published head,
   and at most three CI repairs were automatic.
   */
  predicate Orderly(s: Pub) {
    && s.ciCycles <= 3
    && (s.stage == Awaiting || s.result.Some? ==> Ready(s))
    && (s.reason == Some(Rebase) ==> s.head.Some?)
    && Sound(s)
  }

  /** Nothing was spent, stopped or found unchanged. */
  predicate Alike(s: Pub, t: Pub) {
    t.cycles == s.cycles && t.stopped == s.stopped && t.noChanges == s.noChanges
  }

  predicate Kept(st: Step<Progress>) {
    match st
    case More(p) => Orderly(p.s)
    case Stop(end) => Orderly(end.s)
  }

  lemma ApplyIsAlike(s: Pub, e: Evidence, count: bool)
    ensures Apply(s, e, count).Some? ==>
              var t := Apply(s, e, count).value; Alike(s, t) && (!e.fact.Terminal? ==> t.terminal == s.terminal)
  {
    hide AtHead, Relevant;
    AtHeadKeeps(s.(observationKey := Or(e.key, s.observationKey)), e.remoteHead);
    match e.fact
    case Batch(_, _) =>
    case Failure(_) =>
    case Conflicting(_) =>
    case _ =>
  }

  lemma SeenKeepsOrder(s: Pub, e: Evidence)
    requires Orderly(s)
    ensures var t := AtHead(s.(observationKey := Or(e.key, s.observationKey)), e.remoteHead);
            Orderly(t) && t.ciCycles == s.ciCycles
  {
  }

  lemma RepairEvidenceKeepsOrder(s: Pub, e: Evidence, count: bool)
    requires Orderly(s) && (e.fact.Failure? && count ==> s.ciCycles < 3) && (e.fact.Failure? || e.fact.Batch?)
    ensures Apply(s, e, count).Some? && Orderly(Apply(s, e, count).value)
  {
    SeenKeepsOrder(s, e);
    hide AtHead, Relevant;
  }

  lemma ConflictKeepsOrder(s: Pub, e: Evidence, count: bool)
    requires Orderly(s) && e.fact.Conflicting?
    ensures Apply(s, e, count).Some? ==> Orderly(Apply(s, e, count).value)
  {
    SeenKeepsOrder(s, e);
    hide AtHead;
  }

  lemma ApplyKeeps(s: Pub, e: Evidence, count: bool)
    requires Orderly(s) && (e.fact.Failure? && count ==> s.ciCycles < 3)
    ensures Apply(s, e, count).Some? ==> Orderly(Apply(s, e, count).value)
  {
    if e.fact.Batch? || e.fact.Failure? {
      RepairEvidenceKeepsOrder(s, e, count);
    } else if e.fact.Conflicting? {
      ConflictKeepsOrder(s, e, count);
    } else {
      OtherEvidenceKeepsOrder(s, e, count);
    }
    hide *;
  }

  lemma OtherEvidenceKeepsOrder(s: Pub, e: Evidence, count: bool)
    requires Orderly(s) && !e.fact.Batch? && !e.fact.Failure? && !e.fact.Conflicting?
    ensures Apply(s, e, count).Some? && Orderly(Apply(s, e, count).value)
  {
    SeenKeepsOrder(s, e);
    hide AtHead, Relevant;
  }

  lemma EvidenceKeepsOrder(start: Pub)
    requires Orderly(start)
    ensures match TakeEvidence(start)
            case More(s) => Orderly(s)
            case Stop(end) => Orderly(end.s)
  {
    hide Apply;
    if start.pending.Some? {
      var e := start.pending.value;
      ApplyKeeps(start, e, !(e.fact.Failure? && start.ciCycles >= 3));
    }
  }

  lemma SynchronizeKeepsOrder(a: Answers, start: Pub, p: Progress)
    requires Orderly(start) && Orderly(p.s)
    ensures Kept(Synchronize(a, start, p))
  {
  }

  lemma PreparedKeepsOrder(cfg: Config, a: Answers, start: Pub)
    requires Orderly(start)
    ensures Kept(Prepared(cfg, a, start))
  {
    EvidenceKeepsOrder(start);
    hide TakeEvidence, Synchronize;
    if TakeEvidence(start).More? {
      var p := Conclude(a, start, TakeEvidence(start).value);
      if p.More? {
        var q := SkipUnchanged(cfg, a, start, p.value);
        if q.More? {
          SynchronizeKeepsOrder(a, start, q.value);
        }
      }
    }
  }

  lemma OpenedKeepsOrder(cfg: Config, a: Answers, start: Pub, p: Progress)
    requires Orderly(start) && Orderly(p.s)
    ensures Kept(Opened(cfg, a, start, p))
    ensures Opened(cfg, a, start, p).More? ==> Ready(Opened(cfg, a, start, p).value.s)
  {
    BranchKeepsOrder(cfg, a, start, p);
    hide PublishBranch;
  }

  lemma BranchKeepsOrder(cfg: Config, a: Answers, start: Pub, p: Progress)
    requires Orderly(start) && Orderly(p.s)
    ensures Kept(PublishBranch(cfg, a, start, p))
    ensures PublishBranch(cfg, a, start, p).More? ==> PublishBranch(cfg, a, start, p).value.s.head.Some?
  {
  }

  lemma TargetRebaseKeepsOrder(a: Answers, start: Pub, p: Progress)
    requires Orderly(start) && Orderly(p.s) && Ready(p.s) && p.s.conflict.Some?
    ensures Kept(PublishTargetRebase(a, start, p))
    ensures PublishTargetRebase(a, start, p).More? ==> Ready(PublishTargetRebase(a, start, p).value.s)
  {
  }

  lemma RepairKeepsOrder(cfg: Config, a: Answers, start: Pub, p: Progress)
    requires Orderly(start) && Orderly(p.s) && Ready(p.s)
    ensures Kept(PublishAdjustment(cfg, a, start, p))
    ensures PublishAdjustment(cfg, a, start, p).More? ==> Ready(PublishAdjustment(cfg, a, start, p).value.s)
  {
  }

  lemma SendKeepsOrder(cfg: Config, a: Answers, start: Pub, p: Progress)
    requires Orderly(start) && Orderly(p.s) && Ready(p.s)
    requires p.s.adjustment.Some? && (p.s.adjustment.value.origin == Rebase ==> p.s.conflict.Some?)
    ensures Kept(SendAdjustment(cfg, a, start, p))
    ensures SendAdjustment(cfg, a, start, p).More? ==> Ready(SendAdjustment(cfg, a, start, p).value.s)
  {
    hide PublishTargetRebase, PublishAdjustment, Orderly, Ready;
    var g := Guarded(cfg, a, start, p);
    if g.More? {
      if p.s.adjustment.value.origin == Rebase {
        TargetRebaseKeepsOrder(a, start, g.value);
      } else {
        RepairKeepsOrder(cfg, a, start, g.value);
      }
    }
  }

  lemma FinishKeepsOrder(cfg: Config, a: Answers, start: Pub, p: Progress)
    requires Orderly(start) && Orderly(p.s) && Ready(p.s)
    ensures Kept(FinishAdjustment(cfg, a, start, p))
    ensures FinishAdjustment(cfg, a, start, p).More? ==> Ready(FinishAdjustment(cfg, a, start, p).value.s)
  {
  }

  lemma AgainKeepsOrder(p: Progress)
    requires Orderly(p.s)
    ensures Orderly(Again(p).s)
  {
  }

  lemma AdjustKeepsOrder(cfg: Config, a: Answers, start: Pub, p: Progress)
    requires Orderly(start) && Orderly(p.s) && Ready(p.s)
    ensures Kept(Adjust(cfg, a, start, p))
    ensures Adjust(cfg, a, start, p).More? ==> Ready(Adjust(cfg, a, start, p).value.s)
  {
    hide SendAdjustment, FinishAdjustment, Again, Orderly, Ready;
    AgainKeepsOrder(p);
    FinishKeepsOrder(cfg, a, start, p);
    if p.s.adjustment.Some? && (p.s.adjustment.value.origin == Rebase ==> p.s.conflict.Some?) {
      SendKeepsOrder(cfg, a, start, p);
      var g := SendAdjustment(cfg, a, start, p);
      if g.More? {
        FinishKeepsOrder(cfg, a, start, g.value);
      }
    }
  }

  lemma SettleKeepsOrder(cfg: Config, a: Answers, start: Pub, p: Progress)
    requires Orderly(start) && Orderly(p.s) && Ready(p.s)
    ensures Kept(Settle(cfg, a, start, p))
  {
  }

  /** Every execution keeps the order, in every configuration. */
  lemma RunKeepsOrder(cfg: Config, a: Answers, start: Pub)
    requires Orderly(start)
    ensures Orderly(Run(cfg, a, start).s)
  {
    hide Prepared, Opened, Adjust, Settle, Orderly, Ready;
    PreparedKeepsOrder(cfg, a, start);
    var p := Prepared(cfg, a, start);
    if p.More? {
      OpenedKeepsOrder(cfg, a, start, p.value);
      var q := Opened(cfg, a, start, p.value);
      if q.More? {
        AdjustKeepsOrder(cfg, a, start, q.value);
        var r := Adjust(cfg, a, start, q.value);
        if r.More? {
          SettleKeepsOrder(cfg, a, start, r.value);
        }
      }
    }
  }

  lemma DispatchKeepsOrder(s: Pub, e: Evidence, edge: P.Edge, operator: bool)
    requires Orderly(s) && (e.fact.Failure? && !operator ==> s.ciCycles < 3)
    ensures P.Dispatch(s, e, edge, operator).Some? ==>
              var t := P.Dispatch(s, e, edge, operator).value.s; Orderly(t) && Alike(s, t)
  {
    ApplyKeeps(s, e, !operator);
    ApplyIsAlike(s, e, !operator);
    hide Apply;
  }

  lemma NotedKeepsOrder(whole: Pub, s: Pub, o: P.Sight, request: Request)
    requires Orderly(whole) && Orderly(s)
    ensures Orderly(P.Noted(s, o)) && Alike(s, P.Noted(s, o))
    ensures Orderly(whole.(terminal := Some(request)))
  {
  }

  lemma OrderCounts(s: Pub)
    requires Orderly(s)
    ensures s.ciCycles <= 3
  {
  }

  lemma RouteKeepsOrder(whole: Pub, s: Pub, e: Evidence, project: nat, o: P.Sight)
    requires Orderly(whole) && Orderly(s) && Alike(whole, s)
    ensures P.Route(whole, s, e, project, o).Some? ==>
              var t := P.Route(whole, s, e, project, o).value.s; Orderly(t) && Alike(s, t)
  {
    OrderCounts(s);
    hide P.Dispatch, P.Known, P.Noted, Orderly;
    NotedKeepsOrder(whole, s, o, if e.fact.Terminal? then e.fact.request else Request(0, "", false));
    if !e.fact.Failure? {
      DispatchKeepsOrder(s, e, P.ToFeedback, false);
      DispatchKeepsOrder(s, e, P.ToConflict, false);
    } else {
      DispatchKeepsOrder(s, e, P.ToOperator, true);
      if s.ciCycles < 3 {
        DispatchKeepsOrder(s, e, P.ToCi, false);
      }
    }
  }

  lemma HeadMovedKeepsOrder(s: Pub, executing: bool, head: Sha)
    requires Orderly(s)
    ensures Orderly(P.HeadMoved(s, executing, head)) && Alike(s, P.HeadMoved(s, executing, head))
    ensures Orderly(s.(pending := None))
  {
  }

  /** No decision of the maintenance policy breaks the order or spends a cycle. */
  lemma DecideKeepsOrder(start: Pub, atDeliver: bool, executing: bool, project: nat, o: P.Sight)
    requires Orderly(start)
    ensures var d := P.Decide(start, atDeliver, executing, project, o);
            d.Some? ==> Orderly(d.value.s) && Alike(start, d.value.s)
  {
    HeadMovedKeepsOrder(start, executing, o.head);
    var s := P.HeadMoved(start, executing, o.head);
    HeadMovedKeepsOrder(s, executing, o.head);
    hide P.Route, P.EvidenceFor, P.Retained, P.HeadMoved, Orderly;
    if s.pending.Some? {
      RouteKeepsOrder(s, s.(pending := None), s.pending.value, project, o);
    }
    if P.EvidenceFor(s, o).Some? {
      RouteKeepsOrder(s, s, P.EvidenceFor(s, o).value, project, o);
    }
  }
}
