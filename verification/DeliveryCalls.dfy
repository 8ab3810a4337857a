/** The order of the outside calls of one execution. */
module DeliveryCalls {
  import opened Git
  import opened Delivery
  import opened DeliveryRuns

  predicate Writes(c: Call) {
    c.Publish? || c.PublishRebase?
  }

  /** Each write to the branch directly follows an ownership check. */
  predicate Owned(cfg: Config, calls: seq<Call>) {
    cfg.maintenance ==> forall i :: 0 <= i < |calls| && Writes(calls[i]) ==> i > 0 && calls[i - 1] == CheckOwnership
  }

  predicate JustChecked(cfg: Config, calls: seq<Call>) {
    cfg.maintenance ==> calls != [] && calls[|calls| - 1] == CheckOwnership
  }

  lemma AskOwned(cfg: Config, a: Answers, start: Pub, p: Progress, c: Call)
    requires Owned(cfg, p.calls) && (Writes(c) ==> JustChecked(cfg, p.calls))
    ensures Owned(cfg, p.calls + [c]) && CallsOf(Ask(a, start, p, c)) == p.calls + [c]
  {
  }

  lemma GuardOwned(cfg: Config, a: Answers, start: Pub, p: Progress)
    requires Owned(cfg, p.calls)
    ensures Owned(cfg, CallsOf(Guarded(cfg, a, start, p)))
    ensures Guarded(cfg, a, start, p).More? ==>
              var g := Guarded(cfg, a, start, p).value; JustChecked(cfg, g.calls) && g.s == p.s && g.lease == p.lease
  {
    AskOwned(cfg, a, start, p, CheckOwnership);
  }

  lemma PreparedOwned(cfg: Config, a: Answers, start: Pub)
    ensures Owned(cfg, CallsOf(Prepared(cfg, a, start)))
  {
    assert TakeEvidence(start).Stop? ==> TakeEvidence(start).end.calls == [] by {
      hide Apply;
    }
    hide TakeEvidence;
  }

  lemma OpenedOwned(cfg: Config, a: Answers, start: Pub, p: Progress)
    requires Owned(cfg, p.calls)
    ensures Owned(cfg, CallsOf(Opened(cfg, a, start, p)))
  {
    BranchOwned(cfg, a, start, p);
    hide PublishBranch, Owned;
    var b := PublishBranch(cfg, a, start, p);
    if b.More? {
      AskOwned(cfg, a, start, b.value, EnsureRequest);
      var r := OpenRequest(a, start, b.value);
      if r.More? {
        AskOwned(cfg, a, start, r.value, LinkIssue);
      }
    }
  }

  lemma BranchOwned(cfg: Config, a: Answers, start: Pub, p: Progress)
    requires Owned(cfg, p.calls)
    ensures Owned(cfg, CallsOf(PublishBranch(cfg, a, start, p)))
  {
    GuardOwned(cfg, a, start, p);
    hide Guarded, Owned, JustChecked;
    var g := Guarded(cfg, a, start, p);
    if g.More? {
      AskOwned(cfg, a, start, g.value, Publish(p.lease));
      var h := Ask(a, start, g.value, Publish(p.lease));
      if h.More? && a.first.Pushed? {
        AskOwned(cfg, a, start, h.value, Record(a.first.sha));
      }
    }
  }

  lemma TargetRebaseOwned(cfg: Config, a: Answers, start: Pub, p: Progress)
    requires Owned(cfg, p.calls) && JustChecked(cfg, p.calls) && p.s.conflict.Some?
    ensures Owned(cfg, CallsOf(PublishTargetRebase(a, start, p)))
  {
    hide Owned, JustChecked;
    AskOwned(cfg, a, start, p, PublishRebase(p.s.conflict.value));
    var g := Ask(a, start, p, PublishRebase(p.s.conflict.value));
    if g.More? {
      AskOwned(cfg, a, start, g.value, RetainRebase);
      AskOwned(cfg, a, start, g.value, ReadHead);
      var h := Ask(a, start, g.value, ReadHead);
      if h.More? && a.rebase.Rebased? {
        AskOwned(cfg, a, start, h.value, Record(a.rebase.sha));
      }
    }
  }

  lemma RepairOwned(cfg: Config, a: Answers, start: Pub, p: Progress)
    requires Owned(cfg, p.calls)
    ensures Owned(cfg, CallsOf(PublishAdjustment(cfg, a, start, p)))
  {
    GuardOwned(cfg, a, start, p);
    hide Guarded, Owned, JustChecked;
    var g := Guarded(cfg, a, start, p);
    if g.More? {
      AskOwned(cfg, a, start, g.value, Publish(g.value.s.head));
      var h := Ask(a, start, g.value, Publish(g.value.s.head));
      if h.More? && a.second.Pushed? {
        AskOwned(cfg, a, start, h.value, Record(a.second.sha));
      }
    }
  }

  lemma AdjustOwned(cfg: Config, a: Answers, start: Pub, p: Progress)
    requires Owned(cfg, p.calls)
    ensures Owned(cfg, CallsOf(Adjust(cfg, a, start, p)))
  {
    FinishOwned(cfg, a, start, p);
    hide Owned, SendAdjustment, FinishAdjustment;
    if p.s.adjustment.Some? && (p.s.adjustment.value.origin == Rebase ==> p.s.conflict.Some?) {
      SendOwned(cfg, a, start, p);
      var g := SendAdjustment(cfg, a, start, p);
      if g.More? {
        FinishOwned(cfg, a, start, g.value);
      }
    }
  }

  lemma SendOwned(cfg: Config, a: Answers, start: Pub, p: Progress)
    requires Owned(cfg, p.calls)
    requires p.s.adjustment.Some? && (p.s.adjustment.value.origin == Rebase ==> p.s.conflict.Some?)
    ensures Owned(cfg, CallsOf(SendAdjustment(cfg, a, start, p)))
  {
    GuardOwned(cfg, a, start, p);
    hide Guarded, Owned, JustChecked, PublishTargetRebase, PublishAdjustment;
    var g := Guarded(cfg, a, start, p);
    if g.More? {
      if p.s.adjustment.value.origin == Rebase {
        TargetRebaseOwned(cfg, a, start, g.value);
      } else {
        RepairOwned(cfg, a, start, g.value);
      }
    }
  }

  lemma FinishOwned(cfg: Config, a: Answers, start: Pub, p: Progress)
    requires Owned(cfg, p.calls)
    ensures Owned(cfg, CallsOf(FinishAdjustment(cfg, a, start, p)))
  {
    hide Owned;
    AskOwned(cfg, a, start, p, AfterRebase);
    AskOwned(cfg, a, start, p, Reply(p.s.notes));
  }

  /** Under maintenance, ownership is checked directly before every write to the branch. */
  lemma OwnershipPrecedesEveryPush(cfg: Config, a: Answers, start: Pub)
    ensures Owned(cfg, Run(cfg, a, start).calls)
  {
    hide Owned, Prepared, Opened, Adjust;
    PreparedOwned(cfg, a, start);
    var p := Prepared(cfg, a, start);
    if p.More? {
      OpenedOwned(cfg, a, start, p.value);
      var q := Opened(cfg, a, start, p.value);
      if q.More? {
        AdjustOwned(cfg, a, start, q.value);
        var r := Adjust(cfg, a, start, q.value);
        if r.More? {
          AskOwned(cfg, a, start, r.value, Acknowledge(r.value.s.notes));
        }
      }
    }
  }

  // ---------------------------------------------------------------- replies

  /** The batch is still held, or its reply was made by this execution. */
  predicate Replied(notes: seq<Note>, s: Pub, calls: seq<Call>) {
    s.notes == notes || (s.notes == [] && Delivery.Reply(notes) in calls)
  }

  predicate Careful(notes: seq<Note>, st: Step<Progress>) {
    match st
    case More(p) => Replied(notes, p.s, p.calls)
    case Stop(end) => Replied(notes, end.s, end.calls)
  }

  lemma AdjustHolds(cfg: Config, a: Answers, start: Pub, p: Progress)
    requires start.pending.None? && Same(start, p.s)
    ensures Careful(start.notes, Adjust(cfg, a, start, p))
  {
    EndIsHeld(start, Again(p));
    EndIsHeld(start, End(Threw, start, p.calls));
    EndIsHeld(start, End(Waiting, p.s, p.calls));
    hide SendAdjustment, FinishAdjustment, Replied, Again;
    FinishHolds(cfg, a, start, p);
    if p.s.adjustment.Some? && (p.s.adjustment.value.origin == Rebase ==> p.s.conflict.Some?) {
      SendLeaves(cfg, a, start, p);
      var g := SendAdjustment(cfg, a, start, p);
      if g.More? {
        FinishHolds(cfg, a, start, g.value);
      } else {
        EndIsHeld(start, g.end);
      }
    }
  }

  lemma EndIsHeld(start: Pub, end: End)
    requires end.s.notes == start.notes
    ensures Replied(start.notes, end.s, end.calls)
  {
  }

  lemma FinishHolds(cfg: Config, a: Answers, start: Pub, p: Progress)
    requires p.s.notes == start.notes
    ensures Careful(start.notes, FinishAdjustment(cfg, a, start, p))
  {
  }

  /** Without maintenance too, feedback is cleared only by an execution that replied to it. */
  lemma FeedbackIsClearedOnlyByReplies(cfg: Config, a: Answers, start: Pub)
    requires start.pending.None?
    ensures Replied(start.notes, Run(cfg, a, start).s, Run(cfg, a, start).calls)
  {
    hide Prepared, Opened, Adjust;
    PreparedLeaves(cfg, a, start);
    var p := Prepared(cfg, a, start);
    if p.More? {
      OpenedLeaves(cfg, a, start, p.value);
      var q := Opened(cfg, a, start, p.value);
      if q.More? {
        AdjustHolds(cfg, a, start, q.value);
      }
    }
  }

  // ---------------------------------------------------------------- what commenters are told

  /** A finished review adjustment. */
  predicate Reviewing(s: Pub) {
    s.adjustment.Some? && s.adjustment.value.origin == Feedback
  }

  lemma PreparedLease(cfg: Config, a: Answers, start: Pub)
    requires start.pending.None? && Reviewing(start) && Prepared(cfg, a, start).More?
    ensures var p := Prepared(cfg, a, start).value; p.lease == a.sync.remoteHead && p.s.adjustment == start.adjustment
  {
    assert TakeEvidence(start).More? ==> TakeEvidence(start).value == start;
    hide TakeEvidence;
  }

  lemma OpenedLease(cfg: Config, a: Answers, start: Pub, p: Progress)
    requires Opened(cfg, a, start, p).More?
    ensures var q := Opened(cfg, a, start, p).value; q.lease == p.lease && q.s.adjustment == p.s.adjustment
  {
  }

  lemma AdjustTells(cfg: Config, a: Answers, start: Pub, p: Progress)
    requires cfg.maintenance && Reviewing(p.s) && Adjust(cfg, a, start, p).More?
    ensures var q := Adjust(cfg, a, start, p).value; q.s.result.Some? && q.s.result.value.published == (q.s.head != p.lease)
  {
    SendLease(cfg, a, start, p);
    hide SendAdjustment;
  }

  lemma SendLease(cfg: Config, a: Answers, start: Pub, p: Progress)
    requires Reviewing(p.s)
    ensures SendAdjustment(cfg, a, start, p).More? ==>
              var q := SendAdjustment(cfg, a, start, p).value; q.lease == p.lease && q.s.adjustment == p.s.adjustment
  {
  }

  /**
   The result kept for the commenters says "published" exactly when the branch now has
   another head than the one this execution fetched.
   */
  lemma ResultTellsTheTruth(cfg: Config, a: Answers, start: Pub)
    requires cfg.maintenance && start.pending.None? && !Finished(start) && Reviewing(start)
    requires Run(cfg, a, start).outcome == Waiting
    ensures var s := Run(cfg, a, start).s;
            s.result.Some? && s.result.value.published == (s.head != a.sync.remoteHead)
  {
    NoStageWaits(cfg, a, start);
    var p := Prepared(cfg, a, start);
    PreparedLease(cfg, a, start);
    OpenedLease(cfg, a, start, p.value);
    AdjustTells(cfg, a, start, Opened(cfg, a, start, p.value).value);
    hide Prepared, Opened, Adjust;
  }

  /** Only the last stage ends in waiting. */
  lemma NoStageWaits(cfg: Config, a: Answers, start: Pub)
    requires Run(cfg, a, start).outcome == Waiting
    ensures var p := Prepared(cfg, a, start);
            p.More? && var q := Opened(cfg, a, start, p.value); q.More? && Adjust(cfg, a, start, q.value).More?
  {
    hide Prepared, Opened, Adjust;
    PreparedNeverWaits(cfg, a, start);
    var p := Prepared(cfg, a, start);
    if p.More? {
      OpenedNeverWaits(cfg, a, start, p.value);
      var q := Opened(cfg, a, start, p.value);
      if q.More? {
        AdjustNeverWaits(cfg, a, start, q.value);
      }
    }
  }

  predicate Waits(st: Step<Progress>) {
    st.Stop? && st.end.outcome == Waiting
  }

  lemma PreparedNeverWaits(cfg: Config, a: Answers, start: Pub)
    ensures !Waits(Prepared(cfg, a, start))
  {
    hide Apply;
  }

  lemma OpenedNeverWaits(cfg: Config, a: Answers, start: Pub, p: Progress)
    ensures !Waits(Opened(cfg, a, start, p))
  {
    hide Acknowledged;
  }

  lemma AdjustNeverWaits(cfg: Config, a: Answers, start: Pub, p: Progress)
    ensures !Waits(Adjust(cfg, a, start, p))
  {
    hide Acknowledged;
  }
}
