/** One execution of the Deliver turn as it runs: `current` is updated between outside calls. */
module Executions {
  import opened Git
  import opened Delivery
  import R = DeliveryRuns
  import C = DeliveryCalls
  import D = DeliveryResults

  class Execution {
    const cfg: Config
    const answers: Answers
    const start: Pub
    var current: Pub
    var calls: seq<Call>
    var lease: Option<Sha>
    /** Set once the execution has ended. */
    var ended: Option<Outcome>

    constructor (cfg: Config, answers: Answers, start: Pub)
      ensures this.cfg == cfg && this.answers == answers && this.start == start
      ensures current == start && calls == [] && ended.None?
    {
      this.cfg, this.answers, this.start := cfg, answers, start;
      current, calls, lease, ended := start, [], start.head, None;
    }

    /** The execution so far, in the terms of the specification. */
    function Now(): Step<Progress>
      reads this
    {
      if ended.Some? then Stop(End(ended.value, current, calls)) else More(Progress(current, calls, lease))
    }

    function Here(): Progress
      reads this
    {
      Progress(current, calls, lease)
    }

    /** An outside call; one that throws drops every update. */
    method Call(c: Call)
      requires ended.None?
      modifies `current, `calls, `ended
      ensures Now() == Ask(answers, start, old(Here()), c)
    {
      calls := calls + [c];
      if answers.fails(|calls| - 1) {
        current, ended := start, Some(Threw);
      }
    }

    method ReconcileAgain()
      requires ended.None?
      modifies `current, `ended
      ensures Now() == Stop(Again(old(Here())))
    {
      var cycles := current.cycles + 1;
      current := current.(
        reconciliationRequired := true, cycles := cycles, repairPending := true, conflict := None, lastConflict := None,
        pipeline := None, adjustment := None, result := None);
      ended := Some(if cycles > 3 then OperatorAction else ConflictReady);
    }

    method AcknowledgePublication(sha: Sha, changed: bool)
      requires ended.None?
      modifies `current, `calls
      ensures Now() == More(Acknowledged(old(Here()), sha, changed))
    {
      current := current.(head := Some(sha), workBaseline := Some(sha), reconciliationRequired := false, cycles := 0);
      if changed {
        current := current.(lastPublished := Some(sha), pipeline := None);
      }
      calls := calls + [Record(sha)];
    }

    method TakePendingEvidence()
      requires ended.None? && current == start && calls == []
      modifies `current, `ended
      ensures match TakeEvidence(start)
              case More(s) => ended.None? && current == s
              case Stop(end) => Now() == Stop(end)
    {
      hide Apply;
      if current.stopped {
        ended := Some(Aborted);
        return;
      }
      if current.pending.None? {
        return;
      }
      var evidence := current.pending.value;
      var needsOperator := evidence.fact.Failure? && current.ciCycles >= 3;
      var applied := Apply(current, evidence, !needsOperator);
      if applied.None? {
        ended := Some(Threw);
        return;
      }
      current := applied.value.(pending := None);
      match evidence.fact
      case Cancelled => ended := Some(Aborted);
      case Failure(_) => ended := Some(if needsOperator then OperatorAction else CiReady);
      case Conflicting(_) => ended := Some(ConflictReady);
      case _ =>
    }

    method ConcludeTerminal()
      requires ended.None? && calls == []
      modifies `current, `calls, `lease, `ended
      ensures Now() == Conclude(answers, start, old(current))
    {
      lease := current.head;
      if current.terminal.Some? {
        var request := current.terminal.value;
        Call(ReconcileTerminal(request));
        if ended.None? {
          ended := Some(if request.merged then Completed else Aborted);
        }
      }
    }

    method SkipWithoutChanges()
      requires ended.None?
      modifies `current, `calls, `ended
      ensures Now() == SkipUnchanged(cfg, answers, start, old(Here()))
    {
      if current.head.None? && (cfg.coordinated || cfg.skips) && !answers.changes {
        current := current.(noChanges := true);
        if cfg.skips {
          Call(Unchanged);
        }
        if ended.None? {
          ended := Some(Completed);
        }
      }
    }

    method SynchronizeSource()
      requires ended.None?
      modifies `current, `calls, `lease, `ended
      ensures Now() == Synchronize(answers, start, old(Here()))
    {
      if (current.head.None? || current.adjustment.Some?) && !(current.adjustment.Some? && current.adjustment.value.origin == Rebase) {
        Call(Reconcile(Or(current.workBaseline, current.head)));
        if ended.Some? {
          return;
        }
        var sync := answers.sync;
        if sync.changed || sync.conflicts {
          ReconcileAgain();
          return;
        }
        lease := sync.remoteHead;
        if current.head.Some? && sync.remoteHead.Some? && current.head != sync.remoteHead {
          current := current.(head := sync.remoteHead, workBaseline := sync.remoteHead);
        }
      }
    }

    method AssertOwnership()
      requires ended.None?
      modifies `current, `calls, `ended
      ensures Now() == Guarded(cfg, answers, start, old(Here()))
    {
      if cfg.maintenance {
        Call(CheckOwnership);
      }
    }

    method PublishFirst()
      requires ended.None?
      modifies `current, `calls, `ended
      ensures Now() == PublishBranch(cfg, answers, start, old(Here()))
    {
      hide Guarded, Acknowledged, Again;
      if current.head.Some? {
        return;
      }
      AssertOwnership();
      if ended.Some? {
        return;
      }
      Call(Publish(lease));
      if ended.Some? {
        return;
      }
      match answers.first
      case Moved => ReconcileAgain();
      case Pushed(sha) => AcknowledgePublication(sha, true);
    }

    method OpenAndLink()
      requires ended.None?
      modifies `current, `calls, `ended
      ensures Now() == match OpenRequest(answers, start, old(Here()))
                       case Stop(end) => Stop(end)
                       case More(p) => RelateIssue(answers, start, p)
    {
      if current.pr.None? {
        Call(EnsureRequest);
        if ended.Some? {
          return;
        }
        current := current.(pr := Some(answers.request));
      }
      if !current.issueLinked {
        Call(LinkIssue);
        if ended.None? {
          current := current.(issueLinked := true);
        }
      }
    }

    method PublishPreparedRebase()
      requires ended.None? && current.conflict.Some?
      modifies `current, `calls, `ended
      ensures Now() == PublishTargetRebase(answers, start, old(Here()))
    {
      hide Acknowledged, Again;
      Call(PublishRebase(current.conflict.value));
      if ended.Some? {
        return;
      }
      match answers.rebase
      case RemoteMoved => ReconcileAgain();
      case SourceMoved(published) =>
        if !published {
          Call(RetainRebase);
        }
        if ended.None? {
          ReconcileAgain();
        }
      case Rebased(sha) =>
        Call(ReadHead);
        if ended.Some? {
          return;
        }
        if answers.prHead != sha {
          current, ended := start, Some(Threw);
          return;
        }
        AcknowledgePublication(sha, Some(sha) != lease);
    }

    method PublishRepair()
      requires ended.None?
      modifies `current, `calls, `ended
      ensures Now() == PublishAdjustment(cfg, answers, start, old(Here()))
    {
      hide Guarded, Acknowledged, Again;
      AssertOwnership();
      if ended.Some? {
        return;
      }
      Call(Publish(current.head));
      if ended.Some? {
        return;
      }
      match answers.second
      case Moved => ReconcileAgain();
      case Pushed(sha) => AcknowledgePublication(sha, Some(sha) != lease);
    }

    method FinishRepair()
      requires ended.None? && current.adjustment.Some?
      modifies `current, `calls, `ended
      ensures Now() == FinishAdjustment(cfg, answers, start, old(Here()))
    {
      var adjustment := current.adjustment.value;
      var sent := (adjustment.publishRequired || adjustment.origin == Rebase || cfg.maintenance) && current.head != lease;
      match adjustment.origin
      case Rebase =>
        Call(AfterRebase);
        if ended.None? {
          current := current.(adjustment := None, conflict := None);
        }
      case Ci => current := current.(adjustment := None);
      case Feedback =>
        if cfg.maintenance {
          var summary := if sent then "Review adjustment published" else adjustment.summary;
          current := current.(adjustment := None, result := Some(FeedbackResult(sent, summary)));
        } else {
          Call(Reply(current.notes));
          if ended.None? {
            current := current.(adjustment := None, notes := []);
          }
        }
    }

    method DeliverRepair()
      requires ended.None?
      modifies `current, `calls, `ended
      ensures Now() == Adjust(cfg, answers, start, old(Here()))
    {
      hide Guarded, PublishTargetRebase, PublishAdjustment, FinishAdjustment, Again;
      if current.adjustment.None? {
        return;
      }
      var adjustment := current.adjustment.value;
      if adjustment.origin == Rebase {
        if current.conflict.None? {
          current, ended := start, Some(Threw);
          return;
        }
        if !answers.prepared {
          ReconcileAgain();
          return;
        }
      }
      if adjustment.publishRequired || adjustment.origin == Rebase || cfg.maintenance {
        ghost var p := Here();
        GuardedKeepsState(cfg, answers, start, p);
        AssertOwnership();
        if ended.Some? {
          return;
        }
        if adjustment.origin == Rebase {
          PublishPreparedRebase();
        } else {
          PublishRepair();
        }
        if ended.Some? {
          return;
        }
        PublishingKeepsAdjustment(cfg, answers, start, p);
      }
      FinishRepair();
    }

    method AwaitEvidence()
      requires ended.None?
      modifies `current, `calls, `ended
      ensures Now() == Settle(cfg, answers, start, old(Here()))
    {
      if current.notes != [] && !cfg.maintenance {
        Call(Acknowledge(current.notes));
        if ended.None? {
          ended := Some(FeedbackReady);
        }
        return;
      }
      current := current.(stage := Awaiting);
      ended := Some(Waiting);
    }
  }

  lemma GuardedKeepsState(cfg: Config, a: Answers, start: Pub, p: Progress)
    ensures Guarded(cfg, a, start, p).More? ==> Guarded(cfg, a, start, p).value.s == p.s
  {
  }

  lemma PublishingKeepsAdjustment(cfg: Config, a: Answers, start: Pub, p: Progress)
    requires p.s.adjustment.Some? && (p.s.adjustment.value.origin == Rebase ==> p.s.conflict.Some?)
    ensures SendAdjustment(cfg, a, start, p).More? ==> SendAdjustment(cfg, a, start, p).value.s.adjustment == p.s.adjustment
  {
  }

  /**
   `runRepository`. Every push is leased by a clean reconcile of this execution and, under
   maintenance, directly follows an ownership check; a loop costs one cycle and goes to a
   worker while fewer than three are spent; feedback is cleared only with a reply to it; an
   exception saves nothing.
   */
  method RunRepository(cfg: Config, answers: Answers, start: Pub) returns (end: End)
    ensures end == Run(cfg, answers, start)
    ensures R.Sound(start) && R.Answerable(answers, start) ==> R.AllLeased(answers, end.calls)
    ensures C.Owned(cfg, end.calls)
    ensures end.outcome == Threw ==> end.s == start
    ensures end.outcome != Threw ==> end.s.cycles == R.Spent(start, end.calls) + if R.Looped(start, end) then 1 else 0
    ensures R.Looped(start, end) ==> (end.outcome == ConflictReady <==> R.Spent(start, end.calls) < 3)
    ensures start.pending.None? ==> C.Replied(start.notes, end.s, end.calls)
    ensures D.Succeeds(end) ==> end.s.adjustment.None? && end.s.pr.Some? && end.s.issueLinked && end.s.head.Some?
    ensures D.Succeeds(end) && D.Due(cfg, start) ==>
              answers.second.Pushed? && end.s.head == Some(answers.second.sha) && D.PublishedBeforeReply(end.calls, answers.second.sha)
    ensures D.Calm(answers) && !D.EndsEarly(start) && start.pending.None? && start.terminal.Some? ==>
              end.outcome == if start.terminal.value.merged then Completed else Aborted
  {
    hide R.AllLeased, R.Looped, R.Spent, C.Owned, C.Replied, R.Sound, R.Answerable, D.PublishedBeforeReply, D.Calm;
    hide TakeEvidence, Conclude, SkipUnchanged, Synchronize, PublishBranch, OpenRequest, RelateIssue, Adjust, Settle;
    var x := new Execution(cfg, answers, start);
    x.TakePendingEvidence();
    if x.ended.None? {
      x.ConcludeTerminal();
    }
    if x.ended.None? {
      x.SkipWithoutChanges();
    }
    if x.ended.None? {
      x.SynchronizeSource();
    }
    if x.ended.None? {
      x.PublishFirst();
    }
    if x.ended.None? {
      x.OpenAndLink();
    }
    if x.ended.None? {
      x.DeliverRepair();
    }
    if x.ended.None? {
      x.AwaitEvidence();
    }
    end := End(if x.ended.Some? then x.ended.value else Waiting, x.current, x.calls);
    Promises(cfg, answers, start, end);
  }

  lemma Promises(cfg: Config, a: Answers, start: Pub, end: End)
    requires end == Run(cfg, a, start)
    ensures R.Sound(start) && R.Answerable(a, start) ==> R.AllLeased(a, end.calls)
    ensures C.Owned(cfg, end.calls)
    ensures end.outcome == Threw ==> end.s == start
    ensures end.outcome != Threw ==> end.s.cycles == R.Spent(start, end.calls) + if R.Looped(start, end) then 1 else 0
    ensures R.Looped(start, end) ==> (end.outcome == ConflictReady <==> R.Spent(start, end.calls) < 3)
    ensures start.pending.None? ==> C.Replied(start.notes, end.s, end.calls)
    ensures D.Succeeds(end) ==> end.s.adjustment.None? && end.s.pr.Some? && end.s.issueLinked && end.s.head.Some?
    ensures D.Succeeds(end) && D.Due(cfg, start) ==>
              a.second.Pushed? && end.s.head == Some(a.second.sha) && D.PublishedBeforeReply(end.calls, a.second.sha)
    ensures D.Calm(a) && !D.EndsEarly(start) && start.pending.None? && start.terminal.Some? ==>
              end.outcome == if start.terminal.value.merged then Completed else Aborted
  {
    hide Run, TakeEvidence;
    hide D.PublishedBeforeReply, D.Calm;
    C.OwnershipPrecedesEveryPush(cfg, a, start);
    R.BudgetIsKept(cfg, a, start);
    if D.Succeeds(end) {
      var _ := D.FirstDeliveryOpensTheRequest(cfg, a, start);
      D.SuccessLeavesNothing(cfg, a, start);
    }
    if D.Calm(a) && start.terminal.Some? && start.pending.None? && !start.stopped {
      D.EndedRequestConcludes(cfg, a, start);
    }
    if R.Sound(start) && R.Answerable(a, start) {
      R.EveryPushIsLeased(cfg, a, start);
    }
    if start.pending.None? {
      C.FeedbackIsClearedOnlyByReplies(cfg, a, start);
    }
  }
}
