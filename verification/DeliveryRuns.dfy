/** What every execution of the Deliver turn keeps, whatever the world answers. */
module DeliveryRuns {
  import opened Git
  import opened Delivery

  // ---------------------------------------------------------------- leases

  /** A push number `i` is conditional on what this very execution knows about the remote. */
  ghost predicate Leased(a: Answers, calls: seq<Call>, i: nat)
    requires i < |calls| && calls[i].Publish?
  {
    && Fetched(a, calls[..i])
    && (|| calls[i].lease == a.sync.remoteHead
        || exists k :: 0 <= k < i && calls[k].Record? && calls[i].lease == Some(calls[k].published))
  }

  /** The checkout was reconciled by these calls, and neither changed nor conflicted. */
  ghost predicate Fetched(a: Answers, calls: seq<Call>) {
    && !a.sync.changed && !a.sync.conflicts
    && exists j :: 0 <= j < |calls| && calls[j].Reconcile?
  }

  ghost predicate AllLeased(a: Answers, calls: seq<Call>) {
    forall i: nat :: i < |calls| && calls[i].Publish? ==> Leased(a, calls, i)
  }

  function CallsOf(st: Step<Progress>): seq<Call> {
    match st
    case Stop(end) => end.calls
    case More(p) => p.calls
  }

  /** A target rebase is about a published head. */
  predicate Sound(s: Pub) {
    s.adjustment.Some? && s.adjustment.value.origin == Rebase ==> s.head.Some?
  }

  /** `reconcilePublicationRepository` finds the branch absent only before a first publication; otherwise it throws. */
  predicate Answerable(a: Answers, start: Pub) {
    TakeEvidence(start).More? && a.sync.remoteHead.None? ==> TakeEvidence(start).value.head.None?
  }

  /** Work that will be pushed has been reconciled first, and HEAD's lease is known. */
  ghost predicate ReadyToPush(a: Answers, p: Progress) {
    && AllLeased(a, p.calls) && Sound(p.s)
    && (NeedsSync(p.s) ==>
          && Fetched(a, p.calls)
          && (p.s.head.None? ==> p.lease == a.sync.remoteHead)
          && (p.s.head.Some? ==>
                || p.s.head == a.sync.remoteHead
                || exists k :: 0 <= k < |p.calls| && p.calls[k].Record? && p.s.head == Some(p.calls[k].published)))
  }

  lemma Appending(a: Answers, calls: seq<Call>, c: Call)
    requires AllLeased(a, calls)
    requires c.Publish? ==> Leased(a, calls + [c], |calls|)
    ensures AllLeased(a, calls + [c])
    ensures Fetched(a, calls) ==> Fetched(a, calls + [c])
  {
    var more := calls + [c];
    forall i: nat | i < |more| && more[i].Publish?
      ensures Leased(a, more, i)
    {
      if i < |calls| {
        assert Leased(a, calls, i);
        assert more[..i] == calls[..i];
      }
    }
    if Fetched(a, calls) {
      var j :| 0 <= j < |calls| && calls[j].Reconcile?;
      assert more[j].Reconcile?;
    }
  }

  lemma AskKeeps(a: Answers, start: Pub, p: Progress, c: Call)
    requires ReadyToPush(a, p)
    requires c.Publish? ==> Leased(a, p.calls + [c], |p.calls|)
    ensures AllLeased(a, CallsOf(Ask(a, start, p, c)))
    ensures Ask(a, start, p, c).More? ==> ReadyToPush(a, Ask(a, start, p, c).value)
  {
    hide AllLeased, Leased, Fetched;
    Appending(a, p.calls, c);
    var more := p.calls + [c];
    assert forall k :: 0 <= k < |p.calls| ==> more[k] == p.calls[k];
  }

  lemma PushIsLeased(a: Answers, p: Progress, lease: Option<Sha>)
    requires ReadyToPush(a, p) && NeedsSync(p.s)
    requires lease == if p.s.head.Some? then p.s.head else p.lease
    ensures Leased(a, p.calls + [Publish(lease)], |p.calls|)
  {
    hide AllLeased, Fetched;
    var more := p.calls + [Publish(lease)];
    assert more[..|p.calls|] == p.calls;
    assert forall k :: 0 <= k < |p.calls| ==> more[k] == p.calls[k];
  }

  lemma RecordKeeps(a: Answers, p: Progress, sha: Sha, changed: bool)
    requires ReadyToPush(a, p) && NeedsSync(p.s)
    ensures ReadyToPush(a, Acknowledged(p, sha, changed))
  {
    hide AllLeased, Fetched;
    Appending(a, p.calls, Record(sha));
    var more := p.calls + [Record(sha)];
    assert more[|p.calls|] == Record(sha);
  }

  lemma EvidenceKeepsSound(start: Pub)
    requires Sound(start)
    ensures TakeEvidence(start).More? ==> Sound(TakeEvidence(start).value)
  {
    hide Relevant, AtHead;
    if start.pending.Some? {
      AtHeadKeeps(start.(observationKey := Or(start.pending.value.key, start.observationKey)), start.pending.value.remoteHead);
    }
  }

  lemma EvidenceKeepsCycles(start: Pub)
    ensures TakeEvidence(start).More? ==> TakeEvidence(start).value.cycles == start.cycles
  {
    hide Relevant, AtHead;
    if start.pending.Some? {
      AtHeadKeeps(start.(observationKey := Or(start.pending.value.key, start.observationKey)), start.pending.value.remoteHead);
    }
  }

  lemma AtHeadKeeps(s: Pub, remoteHead: Option<Sha>)
    ensures var t := AtHead(s, remoteHead);
            && t == s.(head := t.head, workBaseline := t.workBaseline, lastPublished := t.lastPublished, pipeline := t.pipeline)
            && (s.head.Some? ==> t.head.Some?)
  {
  }

  lemma PreparedKeeps(cfg: Config, a: Answers, start: Pub)
    requires Sound(start) && Answerable(a, start)
    ensures AllLeased(a, CallsOf(Prepared(cfg, a, start)))
    ensures Prepared(cfg, a, start).More? ==> ReadyToPush(a, Prepared(cfg, a, start).value)
  {
    EvidenceKeepsSound(start);
    hide TakeEvidence;
    if Prepared(cfg, a, start).More? {
      var p := Prepared(cfg, a, start).value;
      assert NeedsSync(p.s) ==> |p.calls| == 1 && p.calls[0].Reconcile?;
    }
  }

  lemma ReadyIsLeased(a: Answers, p: Progress)
    requires ReadyToPush(a, p)
    ensures AllLeased(a, p.calls) && Sound(p.s)
  {
  }

  lemma GuardKeeps(cfg: Config, a: Answers, start: Pub, p: Progress)
    requires ReadyToPush(a, p)
    ensures AllLeased(a, CallsOf(Guarded(cfg, a, start, p)))
    ensures Guarded(cfg, a, start, p).More? ==>
              var g := Guarded(cfg, a, start, p).value;
              ReadyToPush(a, g) && g.s == p.s && g.lease == p.lease
  {
    hide ReadyToPush, AllLeased;
    ReadyIsLeased(a, p);
    if cfg.maintenance {
      AskKeeps(a, start, p, CheckOwnership);
    }
  }

  /** A push under the lease of this execution, and its acknowledgement. */
  lemma PushKeeps(cfg: Config, a: Answers, start: Pub, p: Progress, lease: Option<Sha>)
    requires ReadyToPush(a, p) && NeedsSync(p.s)
    requires lease == if p.s.head.Some? then p.s.head else p.lease
    ensures var g := Ask(a, start, p, Publish(lease));
            && AllLeased(a, CallsOf(g))
            && (g.More? ==> forall sha, changed :: ReadyToPush(a, Acknowledged(g.value, sha, changed)))
  {
    hide ReadyToPush, AllLeased, Acknowledged;
    PushIsLeased(a, p, lease);
    AskKeeps(a, start, p, Publish(lease));
    var g := Ask(a, start, p, Publish(lease));
    if g.More? {
      forall sha, changed
        ensures ReadyToPush(a, Acknowledged(g.value, sha, changed))
      {
        RecordKeeps(a, g.value, sha, changed);
      }
    }
  }

  lemma AcknowledgedHead(p: Progress, sha: Sha, changed: bool)
    ensures Acknowledged(p, sha, changed).s.head == Some(sha)
  {
  }

  lemma BranchKeeps(cfg: Config, a: Answers, start: Pub, p: Progress)
    requires ReadyToPush(a, p)
    ensures AllLeased(a, CallsOf(PublishBranch(cfg, a, start, p)))
    ensures PublishBranch(cfg, a, start, p).More? ==>
              ReadyToPush(a, PublishBranch(cfg, a, start, p).value) && PublishBranch(cfg, a, start, p).value.s.head.Some?
  {
    hide ReadyToPush, AllLeased, Guarded, Acknowledged;
    ReadyIsLeased(a, p);
    if p.s.head.None? {
      GuardKeeps(cfg, a, start, p);
      var g := Guarded(cfg, a, start, p);
      if g.More? {
        PushKeeps(cfg, a, start, g.value, p.lease);
        var h := PublishBranch(cfg, a, start, p);
        if h.More? {
          AcknowledgedHead(g.value.(calls := g.value.calls + [Publish(p.lease)]), a.first.sha, true);
          ReadyIsLeased(a, h.value);
        }
      }
    }
  }

  lemma OpenedKeeps(cfg: Config, a: Answers, start: Pub, p: Progress)
    requires ReadyToPush(a, p)
    ensures AllLeased(a, CallsOf(Opened(cfg, a, start, p)))
    ensures Opened(cfg, a, start, p).More? ==>
              ReadyToPush(a, Opened(cfg, a, start, p).value) && Opened(cfg, a, start, p).value.s.head.Some?
  {
    BranchKeeps(cfg, a, start, p);
    var b := PublishBranch(cfg, a, start, p);
    hide PublishBranch, AllLeased, Fetched;
    if b.More? {
      AskKeeps(a, start, b.value, EnsureRequest);
      var r := OpenRequest(a, start, b.value);
      if r.More? {
        assert ReadyToPush(a, r.value);
        AskKeeps(a, start, r.value, LinkIssue);
      }
    }
  }

  lemma RebaseKeeps(a: Answers, start: Pub, p: Progress)
    requires ReadyToPush(a, p) && p.s.adjustment.Some? && p.s.adjustment.value.origin == Rebase && p.s.conflict.Some?
    ensures AllLeased(a, CallsOf(PublishTargetRebase(a, start, p)))
    ensures PublishTargetRebase(a, start, p).More? ==> ReadyToPush(a, PublishTargetRebase(a, start, p).value)
  {
    hide AllLeased, Fetched;
    AskKeeps(a, start, p, PublishRebase(p.s.conflict.value));
    var g := Ask(a, start, p, PublishRebase(p.s.conflict.value));
    if g.More? {
      AskKeeps(a, start, g.value, RetainRebase);
      AskKeeps(a, start, g.value, ReadHead);
      var h := Ask(a, start, g.value, ReadHead);
      if h.More? && a.rebase.Rebased? {
        Appending(a, h.value.calls, Record(a.rebase.sha));
      }
    }
  }

  lemma SendKeeps(cfg: Config, a: Answers, start: Pub, p: Progress)
    requires ReadyToPush(a, p) && p.s.head.Some?
    requires p.s.adjustment.Some? && (p.s.adjustment.value.origin == Rebase ==> p.s.conflict.Some?)
    ensures AllLeased(a, CallsOf(SendAdjustment(cfg, a, start, p)))
    ensures SendAdjustment(cfg, a, start, p).More? ==> ReadyToPush(a, SendAdjustment(cfg, a, start, p).value)
  {
    hide ReadyToPush, AllLeased, Guarded, Acknowledged;
    ReadyIsLeased(a, p);
    GuardKeeps(cfg, a, start, p);
    var g := Guarded(cfg, a, start, p);
    if g.More? {
      if p.s.adjustment.value.origin == Rebase {
        hide PublishTargetRebase;
        RebaseKeeps(a, start, g.value);
      } else {
        var q := g.value;
        GuardKeeps(cfg, a, start, q);
        var h := Guarded(cfg, a, start, q);
        if h.More? {
          PushKeeps(cfg, a, start, h.value, h.value.s.head);
          var sent := SendAdjustment(cfg, a, start, p);
          if sent.More? {
            ReadyIsLeased(a, sent.value);
          }
        }
      }
    }
  }

  lemma FinishKeeps(cfg: Config, a: Answers, start: Pub, p: Progress)
    requires ReadyToPush(a, p)
    ensures AllLeased(a, CallsOf(FinishAdjustment(cfg, a, start, p)))
    ensures FinishAdjustment(cfg, a, start, p).More? ==> ReadyToPush(a, FinishAdjustment(cfg, a, start, p).value)
  {
    hide AllLeased, Fetched;
    AskKeeps(a, start, p, AfterRebase);
    AskKeeps(a, start, p, Reply(p.s.notes));
  }

  lemma AdjustKeeps(cfg: Config, a: Answers, start: Pub, p: Progress)
    requires ReadyToPush(a, p) && p.s.head.Some?
    ensures AllLeased(a, CallsOf(Adjust(cfg, a, start, p)))
    ensures Adjust(cfg, a, start, p).More? ==> ReadyToPush(a, Adjust(cfg, a, start, p).value)
  {
    hide ReadyToPush, AllLeased, SendAdjustment, FinishAdjustment;
    ReadyIsLeased(a, p);
    FinishKeeps(cfg, a, start, p);
    if p.s.adjustment.Some? && (p.s.adjustment.value.origin == Rebase ==> p.s.conflict.Some?) {
      SendKeeps(cfg, a, start, p);
      var g := SendAdjustment(cfg, a, start, p);
      if g.More? {
        FinishKeeps(cfg, a, start, g.value);
      }
    }
  }

  /**
   Every push of an execution follows a reconcile of the same execution that left the
   checkout alone, and is conditional on the head that reconcile fetched or on what this
   execution itself published.
   */
  lemma EveryPushIsLeased(cfg: Config, a: Answers, start: Pub)
    requires Sound(start) && Answerable(a, start)
    ensures AllLeased(a, Run(cfg, a, start).calls)
  {
    hide ReadyToPush, AllLeased, Prepared, Opened, Adjust;
    PreparedKeeps(cfg, a, start);
    var p := Prepared(cfg, a, start);
    if p.More? {
      OpenedKeeps(cfg, a, start, p.value);
      var q := Opened(cfg, a, start, p.value);
      if q.More? {
        AdjustKeeps(cfg, a, start, q.value);
        var r := Adjust(cfg, a, start, q.value);
        if r.More? {
          ReadyIsLeased(a, r.value);
          AskKeeps(a, start, r.value, Acknowledge(r.value.s.notes));
        }
      }
    }
  }

  // ---------------------------------------------------------------- the reconciliation budget

  /** A publication was acknowledged in the durable journal. */
  predicate Records(calls: seq<Call>) {
    exists i :: 0 <= i < |calls| && calls[i].Record?
  }

  lemma RecordsAppend(calls: seq<Call>, c: Call)
    ensures Records(calls + [c]) <==> Records(calls) || c.Record?
  {
    var more := calls + [c];
    assert more[|calls|] == c;
    assert forall i :: 0 <= i < |calls| ==> more[i] == calls[i];
  }

  /** The loops spent when the next one starts. */
  function Spent(start: Pub, calls: seq<Call>): nat {
    if Records(calls) then 0 else start.cycles
  }

  predicate Accounted(start: Pub, end: End) {
    || end.outcome == Threw
    || end.s.cycles == Spent(start, end.calls) + if end.outcome in {ConflictReady, OperatorAction} then 1 else 0
  }

  predicate Bounded(start: Pub, end: End) {
    && (end.outcome == ConflictReady ==> Spent(start, end.calls) < 3)
    && (end.outcome == OperatorAction ==> Spent(start, end.calls) >= 3)
  }

  predicate Ledger(start: Pub, st: Step<Progress>) {
    match st
    case More(p) => p.s.cycles == Spent(start, p.calls)
    case Stop(end) => Accounted(start, end) && Bounded(start, end)
  }

  lemma AskLedger(a: Answers, start: Pub, p: Progress, c: Call)
    requires Ledger(start, More(p)) && !c.Record?
    ensures Ledger(start, Ask(a, start, p, c))
  {
    RecordsAppend(p.calls, c);
  }

  lemma AcknowledgedLedger(start: Pub, p: Progress, sha: Sha, changed: bool)
    ensures Ledger(start, More(Acknowledged(p, sha, changed)))
  {
    RecordsAppend(p.calls, Record(sha));
  }

  lemma PreparedLedger(cfg: Config, a: Answers, start: Pub)
    requires TakeEvidence(start).More?
    ensures Ledger(start, Prepared(cfg, a, start))
  {
    EvidenceKeepsCycles(start);
    hide TakeEvidence;
    hide Records;
    var p := Progress(TakeEvidence(start).value, [], TakeEvidence(start).value.head);
    assert !Records([]) by { NothingRecorded(); }
    if p.s.terminal.Some? {
      AskLedger(a, start, p, ReconcileTerminal(p.s.terminal.value));
    }
    var q := p.(s := p.s.(noChanges := true));
    AskLedger(a, start, q, Unchanged);
    AskLedger(a, start, p, Reconcile(Or(p.s.workBaseline, p.s.head)));
  }

  lemma NothingRecorded()
    ensures !Records([])
  {
  }

  lemma GuardLedger(cfg: Config, a: Answers, start: Pub, p: Progress)
    requires Ledger(start, More(p))
    ensures Ledger(start, Guarded(cfg, a, start, p))
    ensures Guarded(cfg, a, start, p).More? ==>
              Guarded(cfg, a, start, p).value.s == p.s && Guarded(cfg, a, start, p).value.lease == p.lease
  {
    hide Records;
    AskLedger(a, start, p, CheckOwnership);
  }

  lemma BranchLedger(cfg: Config, a: Answers, start: Pub, p: Progress)
    requires Ledger(start, More(p))
    ensures Ledger(start, PublishBranch(cfg, a, start, p))
  {
    hide Records, Guarded, Acknowledged;
    GuardLedger(cfg, a, start, p);
    var g := Guarded(cfg, a, start, p);
    if g.More? {
      AskLedger(a, start, g.value, Publish(p.lease));
      var h := Ask(a, start, g.value, Publish(p.lease));
      if h.More? && a.first.Pushed? {
        AcknowledgedLedger(start, h.value, a.first.sha, true);
      }
    }
  }

  lemma OpenedLedger(cfg: Config, a: Answers, start: Pub, p: Progress)
    requires Ledger(start, More(p))
    ensures Ledger(start, Opened(cfg, a, start, p))
  {
    hide Records;
    BranchLedger(cfg, a, start, p);
    var b := PublishBranch(cfg, a, start, p);
    hide PublishBranch;
    if b.More? {
      AskLedger(a, start, b.value, EnsureRequest);
      var r := OpenRequest(a, start, b.value);
      if r.More? {
        AskLedger(a, start, r.value, LinkIssue);
      }
    }
  }

  lemma RebaseLedger(a: Answers, start: Pub, p: Progress)
    requires Ledger(start, More(p)) && p.s.conflict.Some?
    ensures Ledger(start, PublishTargetRebase(a, start, p))
  {
    hide Records, Acknowledged;
    AskLedger(a, start, p, PublishRebase(p.s.conflict.value));
    var g := Ask(a, start, p, PublishRebase(p.s.conflict.value));
    if g.More? {
      AskLedger(a, start, g.value, RetainRebase);
      AskLedger(a, start, g.value, ReadHead);
      var h := Ask(a, start, g.value, ReadHead);
      if h.More? && a.rebase.Rebased? {
        AcknowledgedLedger(start, h.value, a.rebase.sha, Some(a.rebase.sha) != h.value.lease);
      }
    }
  }

  lemma SendLedger(cfg: Config, a: Answers, start: Pub, p: Progress)
    requires Ledger(start, More(p))
    requires p.s.adjustment.Some? && (p.s.adjustment.value.origin == Rebase ==> p.s.conflict.Some?)
    ensures Ledger(start, SendAdjustment(cfg, a, start, p))
  {
    hide Records, Guarded, Acknowledged;
    GuardLedger(cfg, a, start, p);
    var g := Guarded(cfg, a, start, p);
    if g.More? {
      if p.s.adjustment.value.origin == Rebase {
        hide PublishTargetRebase;
        RebaseLedger(a, start, g.value);
      } else {
        GuardLedger(cfg, a, start, g.value);
        var h := Guarded(cfg, a, start, g.value);
        if h.More? {
          AskLedger(a, start, h.value, Publish(h.value.s.head));
          var k := Ask(a, start, h.value, Publish(h.value.s.head));
          if k.More? && a.second.Pushed? {
            AcknowledgedLedger(start, k.value, a.second.sha, Some(a.second.sha) != k.value.lease);
          }
        }
      }
    }
  }

  lemma FinishLedger(cfg: Config, a: Answers, start: Pub, p: Progress)
    requires Ledger(start, More(p))
    ensures Ledger(start, FinishAdjustment(cfg, a, start, p))
  {
    hide Records;
    AskLedger(a, start, p, AfterRebase);
    AskLedger(a, start, p, Reply(p.s.notes));
  }

  lemma AdjustLedger(cfg: Config, a: Answers, start: Pub, p: Progress)
    requires Ledger(start, More(p))
    ensures Ledger(start, Adjust(cfg, a, start, p))
  {
    hide Records, SendAdjustment, FinishAdjustment;
    FinishLedger(cfg, a, start, p);
    if p.s.adjustment.Some? && (p.s.adjustment.value.origin == Rebase ==> p.s.conflict.Some?) {
      SendLedger(cfg, a, start, p);
      var g := SendAdjustment(cfg, a, start, p);
      if g.More? {
        FinishLedger(cfg, a, start, g.value);
      }
    }
  }

  /** The execution stopped because the remote moved, not because of recorded evidence. */
  predicate Looped(start: Pub, end: End) {
    end.outcome in {ConflictReady, OperatorAction} && TakeEvidence(start).More?
  }

  /**
   The budget: a loop costs one cycle, an acknowledged publication restores all three, and
   a loop goes to a worker exactly while fewer than three were spent.
   */
  lemma BudgetIsKept(cfg: Config, a: Answers, start: Pub)
    ensures var end := Run(cfg, a, start);
            && (end.outcome == Threw ==> end.s == start)
            && (end.outcome != Threw ==> end.s.cycles == Spent(start, end.calls) + if Looped(start, end) then 1 else 0)
            && (Looped(start, end) ==> (end.outcome == ConflictReady <==> Spent(start, end.calls) < 3))
  {
    hide Records;
    ThrowingDiscards(cfg, a, start);
    if TakeEvidence(start).More? {
      hide Prepared, Opened, Adjust, TakeEvidence;
      PreparedLedger(cfg, a, start);
      var p := Prepared(cfg, a, start);
      if p.More? {
        OpenedLedger(cfg, a, start, p.value);
        var q := Opened(cfg, a, start, p.value);
        if q.More? {
          AdjustLedger(cfg, a, start, q.value);
          var r := Adjust(cfg, a, start, q.value);
          if r.More? {
            AskLedger(a, start, r.value, Acknowledge(r.value.s.notes));
          }
        }
      }
    } else {
      EvidenceSpendsNothing(cfg, a, start);
      NothingRecorded();
    }
  }

  lemma EvidenceSpendsNothing(cfg: Config, a: Answers, start: Pub)
    requires TakeEvidence(start).Stop?
    ensures Run(cfg, a, start) == TakeEvidence(start).end
    ensures TakeEvidence(start).end.calls == [] && TakeEvidence(start).end.s.cycles == start.cycles
  {
    hide Relevant, AtHead;
    if start.pending.Some? {
      AtHeadKeeps(start.(observationKey := Or(start.pending.value.key, start.observationKey)), start.pending.value.remoteHead);
    }
  }

  predicate Discards(start: Pub, st: Step<Progress>) {
    st.Stop? && st.end.outcome == Threw ==> st.end.s == start
  }

  /** An execution that throws saves nothing. */
  lemma ThrowingDiscards(cfg: Config, a: Answers, start: Pub)
    ensures Run(cfg, a, start).outcome == Threw ==> Run(cfg, a, start).s == start
  {
    hide Apply, Acknowledged;
    var p := Prepared(cfg, a, start);
    assert Discards(start, p);
    if p.More? {
      hide Prepared;
      var q := Opened(cfg, a, start, p.value);
      assert Discards(start, q);
      if q.More? {
        hide Opened;
        AdjustDiscards(cfg, a, start, q.value);
        hide Adjust;
      }
    }
  }

  lemma AdjustDiscards(cfg: Config, a: Answers, start: Pub, p: Progress)
    ensures Discards(start, Adjust(cfg, a, start, p))
  {
    hide Acknowledged;
  }

  // ---------------------------------------------------------------- gates

  predicate Opens(end: End) {
    && (end.outcome in {FeedbackReady, ConflictReady} ==> FeedbackGate(end.s))
    && (end.outcome == CiReady ==> CiGate(end.s))
  }

  /** A repository without changes has no request. */
  predicate Exclusive(s: Pub) {
    !(s.noChanges && s.terminal.Some?)
  }

  predicate Alive(start: Pub, st: Step<Progress>) {
    match st
    case More(p) => !p.s.stopped && p.s.terminal.None? && (!start.noChanges ==> !p.s.noChanges)
    case Stop(end) => Opens(end) && (!start.noChanges ==> Exclusive(end.s))
  }

  lemma EvidenceOpens(start: Pub)
    requires start.terminal.None?
    ensures match TakeEvidence(start)
            case More(s) => !s.stopped && s.noChanges == start.noChanges
            case Stop(end) => Opens(end) && (!start.noChanges ==> Exclusive(end.s))
  {
    hide Relevant, AtHead;
    if start.pending.Some? {
      AtHeadKeeps(start.(observationKey := Or(start.pending.value.key, start.observationKey)), start.pending.value.remoteHead);
    }
  }

  lemma TargetRebaseOpens(a: Answers, start: Pub, p: Progress)
    requires Alive(start, More(p)) && start.terminal.None? && p.s.conflict.Some?
    ensures Alive(start, PublishTargetRebase(a, start, p))
  {
  }

  lemma RepairOpens(cfg: Config, a: Answers, start: Pub, p: Progress)
    requires Alive(start, More(p)) && start.terminal.None?
    ensures Alive(start, PublishAdjustment(cfg, a, start, p))
  {
  }

  lemma SendOpens(cfg: Config, a: Answers, start: Pub, p: Progress)
    requires Alive(start, More(p)) && start.terminal.None?
    requires p.s.adjustment.Some? && (p.s.adjustment.value.origin == Rebase ==> p.s.conflict.Some?)
    ensures Alive(start, SendAdjustment(cfg, a, start, p))
  {
    hide PublishTargetRebase, PublishAdjustment;
    var g := Guarded(cfg, a, start, p);
    if g.More? {
      if p.s.adjustment.value.origin == Rebase {
        TargetRebaseOpens(a, start, g.value);
      } else {
        RepairOpens(cfg, a, start, g.value);
      }
    }
  }

  lemma FinishOpens(cfg: Config, a: Answers, start: Pub, p: Progress)
    requires Alive(start, More(p)) && start.terminal.None?
    ensures Alive(start, FinishAdjustment(cfg, a, start, p))
  {
  }

  lemma AdjustOpens(cfg: Config, a: Answers, start: Pub, p: Progress)
    requires Alive(start, More(p)) && start.terminal.None?
    ensures Alive(start, Adjust(cfg, a, start, p))
  {
    hide SendAdjustment, FinishAdjustment;
    FinishOpens(cfg, a, start, p);
    if p.s.adjustment.Some? && (p.s.adjustment.value.origin == Rebase ==> p.s.conflict.Some?) {
      SendOpens(cfg, a, start, p);
      var g := SendAdjustment(cfg, a, start, p);
      if g.More? {
        FinishOpens(cfg, a, start, g.value);
      }
    }
  }

  lemma PreparedOpens(cfg: Config, a: Answers, start: Pub)
    requires start.terminal.None?
    ensures Alive(start, Prepared(cfg, a, start))
  {
    EvidenceOpens(start);
    hide TakeEvidence;
  }

  lemma OpenedOpens(cfg: Config, a: Answers, start: Pub, p: Progress)
    requires Alive(start, More(p)) && start.terminal.None?
    ensures Alive(start, Opened(cfg, a, start, p))
  {
  }

  /** Whatever the state and the answers, an automatic outcome selects a turn whose gate is open. */
  lemma OutcomesOpenTheirGates(cfg: Config, a: Answers, start: Pub)
    requires start.terminal.None?
    ensures Opens(Run(cfg, a, start))
    ensures !start.noChanges ==> Exclusive(Run(cfg, a, start).s)
  {
    hide Prepared, Opened, Adjust;
    PreparedOpens(cfg, a, start);
    var p := Prepared(cfg, a, start);
    if p.More? {
      OpenedOpens(cfg, a, start, p.value);
      var q := Opened(cfg, a, start, p.value);
      if q.More? {
        AdjustOpens(cfg, a, start, q.value);
      }
    }
  }

  /** A finished repair opens Deliver's gate, except for a maintained repository that had no change. */
  lemma RepairsOpenDelivery(cfg: Config, s: Pub, adjustment: Adjustment)
    requires !s.stopped && s.terminal.None?
    ensures DeliverGate(cfg, s.(repairPending := false, adjustment := Some(adjustment))) <==> !(cfg.maintenance && s.noChanges)
  {
  }

  // ---------------------------------------------------------------- progress

  /** No outside call fails, and the request shows a published rebase. */
  ghost predicate Cooperative(a: Answers) {
    (forall i :: !a.fails(i)) && (a.rebase.Rebased? ==> a.prHead == a.rebase.sha)
  }

  /** The stored conflict is not about this request and head, or is the one handled last. */
  predicate Wedged(s: Pub) {
    && s.pending.Some? && s.pending.value.fact.Conflicting?
    && !Relevant(
         AtHead(s.(observationKey := Or(s.pending.value.key, s.observationKey)), s.pending.value.remoteHead),
         s.pending.value.fact.conflict)
  }

  /** A target rebase is about a conflict. */
  predicate Repairs(s: Pub) {
    s.adjustment.Some? && s.adjustment.value.origin == Rebase ==> s.conflict.Some?
  }

  predicate Proceeds(st: Step<Progress>) {
    match st
    case More(p) => Repairs(p.s)
    case Stop(end) => end.outcome != Threw
  }

  lemma EvidenceProceeds(start: Pub)
    requires Repairs(start) && !start.stopped
    ensures Wedged(start) ==> TakeEvidence(start) == Stop(End(Threw, start, []))
    ensures !Wedged(start) ==> match TakeEvidence(start)
                               case More(s) => Repairs(s)
                               case Stop(end) => end.outcome != Threw
  {
    hide Relevant, AtHead;
    if start.pending.Some? {
      AtHeadKeeps(start.(observationKey := Or(start.pending.value.key, start.observationKey)), start.pending.value.remoteHead);
    }
  }

  lemma PreparedProceeds(cfg: Config, a: Answers, start: Pub)
    requires Cooperative(a) && Repairs(start) && !start.stopped && !Wedged(start)
    ensures Proceeds(Prepared(cfg, a, start))
  {
    EvidenceProceeds(start);
    hide TakeEvidence, Wedged;
  }

  lemma OpenedProceeds(cfg: Config, a: Answers, start: Pub, p: Progress)
    requires Cooperative(a) && Repairs(p.s)
    ensures Proceeds(Opened(cfg, a, start, p))
  {
  }

  lemma AdjustProceeds(cfg: Config, a: Answers, start: Pub, p: Progress)
    requires Cooperative(a) && Repairs(p.s)
    ensures Proceeds(Adjust(cfg, a, start, p))
  {
    hide SendAdjustment, FinishAdjustment, Acknowledged;
    FinishProceeds(cfg, a, start, p);
    if p.s.adjustment.Some? {
      SendProceeds(cfg, a, start, p);
      var g := SendAdjustment(cfg, a, start, p);
      if g.More? {
        FinishProceeds(cfg, a, start, g.value);
      }
    }
  }

  lemma FinishProceeds(cfg: Config, a: Answers, start: Pub, p: Progress)
    requires Cooperative(a) && Repairs(p.s)
    ensures Proceeds(FinishAdjustment(cfg, a, start, p))
  {
  }

  lemma SendProceeds(cfg: Config, a: Answers, start: Pub, p: Progress)
    requires Cooperative(a) && Repairs(p.s) && p.s.adjustment.Some?
    ensures Proceeds(SendAdjustment(cfg, a, start, p))
  {
  }

  /** An execution whose outside calls succeed throws exactly on an irrelevant stored conflict. */
  lemma CooperativeRunsEnd(cfg: Config, a: Answers, start: Pub)
    requires Cooperative(a) && Repairs(start) && !start.stopped
    ensures Run(cfg, a, start).outcome == Threw <==> Wedged(start)
  {
    EvidenceProceeds(start);
    if !Wedged(start) {
      hide Prepared, Opened, Adjust, TakeEvidence, Wedged;
      PreparedProceeds(cfg, a, start);
      var p := Prepared(cfg, a, start);
      if p.More? {
        OpenedProceeds(cfg, a, start, p.value);
        var q := Opened(cfg, a, start, p.value);
        if q.More? {
          AdjustProceeds(cfg, a, start, q.value);
        }
      }
    } else {
      hide TakeEvidence, Wedged;
    }
  }

  // ---------------------------------------------------------------- executions leave the batch alone

  predicate Same(start: Pub, s: Pub) {
    s.cursor == start.cursor && s.notes == start.notes && s.pending.None? && s.ciCycles == start.ciCycles
  }

  predicate Untouched(start: Pub, st: Step<Progress>) {
    match st
    case More(p) => Same(start, p.s)
    case Stop(end) => Same(start, end.s)
  }

  lemma PreparedLeaves(cfg: Config, a: Answers, start: Pub)
    requires start.pending.None?
    ensures Untouched(start, Prepared(cfg, a, start))
  {
    assert TakeEvidence(start).More? ==> TakeEvidence(start).value == start;
    assert TakeEvidence(start).Stop? ==> TakeEvidence(start).end.s == start;
    hide TakeEvidence;
  }

  lemma OpenedLeaves(cfg: Config, a: Answers, start: Pub, p: Progress)
    requires Same(start, p.s) && start.pending.None?
    ensures Untouched(start, Opened(cfg, a, start, p))
  {
    assert Untouched(start, PublishBranch(cfg, a, start, p));
    hide PublishBranch;
  }

  lemma SendLeaves(cfg: Config, a: Answers, start: Pub, p: Progress)
    requires Same(start, p.s) && start.pending.None?
    requires p.s.adjustment.Some? && (p.s.adjustment.value.origin == Rebase ==> p.s.conflict.Some?)
    ensures Untouched(start, SendAdjustment(cfg, a, start, p))
  {
    var g := Guarded(cfg, a, start, p);
    assert Untouched(start, g);
    if g.More? {
      assert g.value.s == p.s;
      hide Guarded;
      if p.s.adjustment.value.origin == Rebase {
        assert Untouched(start, PublishTargetRebase(a, start, g.value));
      } else {
        RepairLeaves(cfg, a, start, g.value);
      }
      hide PublishTargetRebase, PublishAdjustment;
    }
  }

  lemma RepairLeaves(cfg: Config, a: Answers, start: Pub, p: Progress)
    requires Same(start, p.s) && start.pending.None?
    ensures Untouched(start, PublishAdjustment(cfg, a, start, p))
  {
  }

  lemma AdjustLeaves(cfg: Config, a: Answers, start: Pub, p: Progress)
    requires Same(start, p.s) && start.pending.None? && cfg.maintenance
    ensures Untouched(start, Adjust(cfg, a, start, p))
  {
    FinishLeaves(cfg, a, start, p);
    hide SendAdjustment, FinishAdjustment;
    if p.s.adjustment.Some? && (p.s.adjustment.value.origin == Rebase ==> p.s.conflict.Some?) {
      SendLeaves(cfg, a, start, p);
      var g := SendAdjustment(cfg, a, start, p);
      if g.More? {
        FinishLeaves(cfg, a, start, g.value);
      }
    }
  }

  lemma FinishLeaves(cfg: Config, a: Answers, start: Pub, p: Progress)
    requires Same(start, p.s) && start.pending.None? && cfg.maintenance
    ensures Untouched(start, FinishAdjustment(cfg, a, start, p))
  {
  }

  /** Under maintenance, an execution of Deliver neither consumes feedback nor counts failures. */
  lemma ExecutionsKeepFeedback(cfg: Config, a: Answers, start: Pub)
    requires start.pending.None? && cfg.maintenance
    ensures Same(start, Run(cfg, a, start).s)
  {
    hide Prepared, Opened, Adjust;
    PreparedLeaves(cfg, a, start);
    var p := Prepared(cfg, a, start);
    if p.More? {
      OpenedLeaves(cfg, a, start, p.value);
      var q := Opened(cfg, a, start, p.value);
      if q.More? {
        AdjustLeaves(cfg, a, start, q.value);
      }
    }
  }

  // ---------------------------------------------------------------- turn selection under maintenance

  /** Conflicts and pipelines are those of a published request. */
  predicate Held(s: Pub) {
    s.conflict.Some? || s.pipeline.Some? ==> s.head.Some? && s.pr.Some?
  }

  /** What an execution without stored evidence does to turn selection. */
  predicate Selects(start: Pub, st: Step<Progress>) {
    match st
    case More(p) => p.s.reason == start.reason && Held(p.s)
    case Stop(end) =>
      && end.s.reason == start.reason && Held(end.s) && end.outcome !in {FeedbackReady, CiReady}
      && (end.outcome == Waiting ==> end.s.adjustment.None?)
      && (end.outcome in {ConflictReady, OperatorAction} ==>
            end.s.reconciliationRequired && end.s.adjustment.None? && end.s.result.None?)
  }

  lemma PreparedSelects(cfg: Config, a: Answers, start: Pub)
    requires start.pending.None? && Held(start)
    ensures Selects(start, Prepared(cfg, a, start))
  {
    assert TakeEvidence(start).More? ==> TakeEvidence(start).value == start;
    assert TakeEvidence(start).Stop? ==> TakeEvidence(start).end == End(Aborted, start, []);
    hide TakeEvidence;
  }

  lemma OpenedSelects(cfg: Config, a: Answers, start: Pub, p: Progress)
    requires p.s.reason == start.reason && Held(p.s) && Held(start)
    ensures Selects(start, Opened(cfg, a, start, p))
  {
    BranchSelects(cfg, a, start, p);
    hide PublishBranch;
  }

  lemma BranchSelects(cfg: Config, a: Answers, start: Pub, p: Progress)
    requires p.s.reason == start.reason && Held(p.s) && Held(start)
    ensures Selects(start, PublishBranch(cfg, a, start, p))
  {
  }

  lemma SendSelects(cfg: Config, a: Answers, start: Pub, p: Progress)
    requires p.s.reason == start.reason && Held(p.s) && Held(start)
    requires p.s.adjustment.Some? && (p.s.adjustment.value.origin == Rebase ==> p.s.conflict.Some?)
    ensures Selects(start, SendAdjustment(cfg, a, start, p))
  {
    hide PublishTargetRebase, PublishAdjustment;
    var g := Guarded(cfg, a, start, p);
    if g.More? {
      if p.s.adjustment.value.origin == Rebase {
        TargetRebaseSelects(a, start, g.value);
      } else {
        RepairSelects(cfg, a, start, g.value);
      }
    }
  }

  lemma TargetRebaseSelects(a: Answers, start: Pub, p: Progress)
    requires p.s.reason == start.reason && Held(p.s) && Held(start) && p.s.conflict.Some?
    ensures Selects(start, PublishTargetRebase(a, start, p))
  {
    AgainSelects(p);
    hide Again;
    match a.rebase
    case Rebased(_) =>
    case SourceMoved(_) =>
    case RemoteMoved =>
  }

  lemma AgainSelects(p: Progress)
    ensures forall start: Pub :: p.s.reason == start.reason ==> Selects(start, Stop(Again(p)))
    ensures forall calls :: Again(p.(calls := calls)).s == Again(p).s && Again(p.(calls := calls)).outcome == Again(p).outcome
  {
  }

  lemma RepairSelects(cfg: Config, a: Answers, start: Pub, p: Progress)
    requires p.s.reason == start.reason && Held(p.s) && Held(start)
    ensures Selects(start, PublishAdjustment(cfg, a, start, p))
  {
  }

  lemma AdjustSelects(cfg: Config, a: Answers, start: Pub, p: Progress)
    requires p.s.reason == start.reason && Held(p.s) && Held(start)
    ensures Selects(start, Adjust(cfg, a, start, p))
    ensures Adjust(cfg, a, start, p).More? ==> Adjust(cfg, a, start, p).value.s.adjustment.None?
  {
    FinishSelects(cfg, a, start, p);
    hide SendAdjustment, FinishAdjustment;
    if p.s.adjustment.Some? && (p.s.adjustment.value.origin == Rebase ==> p.s.conflict.Some?) {
      SendSelects(cfg, a, start, p);
      var g := SendAdjustment(cfg, a, start, p);
      if g.More? {
        FinishSelects(cfg, a, start, g.value);
      }
    }
  }

  lemma FinishSelects(cfg: Config, a: Answers, start: Pub, p: Progress)
    requires p.s.reason == start.reason && Held(p.s) && Held(start)
    ensures Selects(start, FinishAdjustment(cfg, a, start, p))
    ensures FinishAdjustment(cfg, a, start, p).More? ==> FinishAdjustment(cfg, a, start, p).value.s.adjustment.None?
  {
    hide Held;
    HeldIsKept(p.s);
    if p.s.adjustment.Some? {
      match p.s.adjustment.value.origin
      case Rebase =>
      case Ci =>
      case Feedback =>
    }
  }

  lemma HeldIsKept(s: Pub)
    requires Held(s)
    ensures Held(s.(adjustment := None, conflict := None)) && Held(s.(adjustment := None)) && Held(s.(adjustment := None, notes := []))
    ensures forall r :: Held(s.(adjustment := None, result := r))
  {
  }

  /** Under maintenance an execution keeps the repair reason, and every loop selects the feedback turn with work to do. */
  lemma ExecutionSelects(cfg: Config, a: Answers, start: Pub)
    requires start.pending.None? && cfg.maintenance && Held(start)
    ensures Selects(start, Stop(Run(cfg, a, start)))
  {
    hide Prepared, Opened, Adjust;
    PreparedSelects(cfg, a, start);
    var p := Prepared(cfg, a, start);
    if p.More? {
      OpenedSelects(cfg, a, start, p.value);
      var q := Opened(cfg, a, start, p.value);
      if q.More? {
        AdjustSelects(cfg, a, start, q.value);
      }
    }
  }
}
