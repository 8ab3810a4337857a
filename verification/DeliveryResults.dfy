/**
 What an execution of the Deliver turn achieves: its outcome for every state and every
 answer, and, when it succeeds, everything it has published, opened and answered.
 */
module DeliveryResults {
  import opened Git
  import opened Delivery
  import R = DeliveryRuns

  // ---------------------------------------------------------------- executions without exceptions

  ghost predicate Calm(a: Answers) {
    forall i :: !a.fails(i)
  }

  function Calmed(a: Answers): Answers {
    a.(fails := i => false)
  }

  ghost predicate Agrees<T>(st: Step<T>, calm: Step<T>) {
    st == calm || (st.Stop? && st.end.outcome == Threw)
  }

  lemma PreparedAgrees(cfg: Config, a: Answers, start: Pub)
    ensures Agrees(Prepared(cfg, a, start), Prepared(cfg, Calmed(a), start))
  {
    hide TakeEvidence, Again;
  }

  lemma OpenedAgrees(cfg: Config, a: Answers, start: Pub, p: Progress)
    ensures Agrees(Opened(cfg, a, start, p), Opened(cfg, Calmed(a), start, p))
  {
    hide Again, Acknowledged;
  }

  lemma SendAgrees(cfg: Config, a: Answers, start: Pub, p: Progress)
    requires p.s.adjustment.Some? && (p.s.adjustment.value.origin == Rebase ==> p.s.conflict.Some?)
    ensures Agrees(SendAdjustment(cfg, a, start, p), SendAdjustment(cfg, Calmed(a), start, p))
  {
    hide Again, Acknowledged;
  }

  lemma AdjustAgrees(cfg: Config, a: Answers, start: Pub, p: Progress)
    ensures Agrees(Adjust(cfg, a, start, p), Adjust(cfg, Calmed(a), start, p))
  {
    hide Again, SendAdjustment;
    if p.s.adjustment.Some? && (p.s.adjustment.value.origin == Rebase ==> p.s.conflict.Some?) {
      SendAgrees(cfg, a, start, p);
    }
  }

  /** An exception can end an execution, but not change what it does otherwise. */
  lemma FailuresOnlyThrow(cfg: Config, a: Answers, start: Pub)
    ensures Run(cfg, a, start).outcome != Threw ==> Run(cfg, a, start) == Run(cfg, Calmed(a), start)
  {
    hide Prepared, Opened, Adjust;
    PreparedAgrees(cfg, a, start);
    var p := Prepared(cfg, a, start);
    if p.More? {
      OpenedAgrees(cfg, a, start, p.value);
      var q := Opened(cfg, a, start, p.value);
      if q.More? {
        AdjustAgrees(cfg, a, start, q.value);
      }
    }
  }

  // ---------------------------------------------------------------- what is to be done

  /** The state once stored evidence that ends nothing by itself has been taken up. */
  predicate TakenUp(start: Pub, s: Pub) {
    && s.pending.None?
    && s.adjustment == start.adjustment && s.conflict == start.conflict && s.pr == start.pr && s.issueLinked == start.issueLinked
    && s.cycles == start.cycles && s.result == start.result
    && match start.pending
       case None => s == start
       case Some(e) =>
         && s.head == (if e.remoteHead.Some? then e.remoteHead else start.head)
         && s.pipeline == (if s.head == start.head then start.pipeline else None)
         && s.workBaseline == (if s.head == start.head || start.workBaseline.Some? then start.workBaseline else start.head)
         && s.notes == (if e.fact.Batch? then e.fact.notes else start.notes)
         && s.terminal == (if e.fact.Terminal? then Some(e.fact.request) else start.terminal)
  }

  predicate Ends(e: Evidence) {
    e.fact.Cancelled? || e.fact.Failure? || e.fact.Conflicting?
  }

  lemma AtHeadIs(s: Pub, remoteHead: Option<Sha>)
    ensures var t := AtHead(s, remoteHead);
            && t == s.(head := t.head, pipeline := t.pipeline, workBaseline := t.workBaseline, lastPublished := t.lastPublished)
            && t.head == (if remoteHead.Some? then remoteHead else s.head)
            && t.pipeline == (if t.head == s.head then s.pipeline else None)
            && t.workBaseline == (if t.head == s.head || s.workBaseline.Some? then s.workBaseline else s.head)
  {
  }

  lemma AppliesQuietly(start: Pub, e: Evidence)
    requires !Ends(e)
    ensures var r := Apply(start, e, true);
            && r.Some? && r.value.adjustment == start.adjustment && r.value.conflict == start.conflict
            && r.value.pr == start.pr && r.value.issueLinked == start.issueLinked
            && r.value.cycles == start.cycles && r.value.result == start.result
            && r.value.head == (if e.remoteHead.Some? then e.remoteHead else start.head)
            && r.value.pipeline == (if r.value.head == start.head then start.pipeline else None)
            && r.value.workBaseline == (if r.value.head == start.head || start.workBaseline.Some? then start.workBaseline else start.head)
            && r.value.notes == (if e.fact.Batch? then e.fact.notes else start.notes)
            && r.value.terminal == (if e.fact.Terminal? then Some(e.fact.request) else start.terminal)
  {
    hide Relevant, AtHead;
    AtHeadIs(start.(observationKey := Or(e.key, start.observationKey)), e.remoteHead);
    match e.fact
    case Batch(_, _) =>
    case Terminal(_) =>
    case Observed =>
  }

  lemma EvidenceIsTakenUp(start: Pub) returns (s: Pub)
    requires !start.stopped && (start.pending.Some? ==> !Ends(start.pending.value))
    ensures TakenUp(start, s) && TakeEvidence(start) == More(s)
  {
    s := TakeEvidence(start).value;
    if start.pending.Some? {
      AppliesQuietly(start, start.pending.value);
      hide Apply;
    }
  }

  /** A finished repair of this kind waits for Deliver. */
  predicate Repaired(s: Pub, origin: Reason) {
    s.adjustment.Some? && s.adjustment.value.origin == origin
  }

  /** The repair changed the checkout, so it has to reach the branch; under maintenance every repair is sent. */
  predicate Owed(cfg: Config, s: Pub) {
    (Repaired(s, Feedback) || Repaired(s, Ci)) && (cfg.maintenance || s.adjustment.value.publishRequired)
  }

  /** The source is fetched before a first publication and before a repair that is not a rebase. */
  predicate Fetches(s: Pub) {
    Repaired(s, Feedback) || Repaired(s, Ci) || (s.adjustment.None? && s.head.None?)
  }

  predicate Skips(cfg: Config, a: Answers, s: Pub) {
    s.head.None? && !a.changes && (cfg.coordinated || cfg.skips)
  }

  /** Something moved under the execution, so it goes round again. */
  predicate Loops(cfg: Config, a: Answers, s: Pub) {
    || (Fetches(s) && (a.sync.changed || a.sync.conflicts))
    || (s.head.None? && a.first.Moved?)
    || (Repaired(s, Rebase) && (!a.prepared || !a.rebase.Rebased?))
    || (Owed(cfg, s) && a.second.Moved?)
  }

  /** Feedback that this execution does not answer by itself. */
  predicate Unanswered(cfg: Config, s: Pub) {
    s.notes != [] && !cfg.maintenance && !Repaired(s, Feedback)
  }

  function KnownHead(a: Answers, s: Pub): Option<Sha> {
    if Fetches(s) && s.head.Some? && a.sync.remoteHead.Some? then a.sync.remoteHead else s.head
  }

  function Lease(a: Answers, s: Pub): Option<Sha> {
    if Fetches(s) then a.sync.remoteHead else s.head
  }

  function Guards(cfg: Config): seq<Call> {
    if cfg.maintenance then [CheckOwnership] else []
  }

  function FetchCalls(s: Pub): seq<Call> {
    if Fetches(s) then [Reconcile(if s.workBaseline.Some? then s.workBaseline else s.head)] else []
  }

  function FirstCalls(cfg: Config, a: Answers, s: Pub): seq<Call>
    requires s.head.None? ==> a.first.Pushed?
  {
    if s.head.None? then Guards(cfg) + [Publish(Lease(a, s)), Record(a.first.sha)] else []
  }

  function RequestCalls(s: Pub): seq<Call> {
    (if s.pr.None? then [EnsureRequest] else []) + (if s.issueLinked then [] else [LinkIssue])
  }

  function RepairCalls(cfg: Config, a: Answers, s: Pub): seq<Call>
    requires !Loops(cfg, a, s)
  {
    if Owed(cfg, s) then
      Guards(cfg) + Guards(cfg) + [Publish(if s.head.None? then Some(a.first.sha) else KnownHead(a, s)), Record(a.second.sha)]
    else if Repaired(s, Rebase) && s.conflict.Some? then
      Guards(cfg) + [PublishRebase(s.conflict.value), ReadHead, Record(a.rebase.sha), AfterRebase]
    else []
  }

  function ReplyCalls(cfg: Config, s: Pub): seq<Call> {
    if Repaired(s, Feedback) && !cfg.maintenance then [Reply(s.notes)]
    else if Unanswered(cfg, s) then [Acknowledge(s.notes)]
    else []
  }

  /** What the branch holds when the execution is over. */
  function FinalHead(cfg: Config, a: Answers, s: Pub): Option<Sha>
    requires !Loops(cfg, a, s)
  {
    if Owed(cfg, s) then Some(a.second.sha)
    else if Repaired(s, Rebase) then Some(a.rebase.sha)
    else if s.head.None? then Some(a.first.sha)
    else KnownHead(a, s)
  }

  // ---------------------------------------------------------------- the stages

  predicate Fetched(a: Answers, s: Pub, p: Progress) {
    && p.calls == FetchCalls(s) && p.lease == Lease(a, s)
    && p.s == s.(head := KnownHead(a, s), workBaseline := p.s.workBaseline)
  }

  lemma PreparedIs(cfg: Config, a: Answers, start: Pub, s: Pub)
    requires Calm(a) && TakeEvidence(start) == More(s)
    ensures var st := Prepared(cfg, a, start);
            if s.terminal.Some? then
              st == Stop(End(if s.terminal.value.merged then Completed else Aborted, s, [ReconcileTerminal(s.terminal.value)]))
            else if Skips(cfg, a, s) then st.Stop? && st.end.outcome == Completed && st.end.s == s.(noChanges := true)
            else if Fetches(s) && (a.sync.changed || a.sync.conflicts) then
              st.Stop? && st.end == Again(Progress(s, FetchCalls(s), s.head))
            else st.More? && Fetched(a, s, st.value)
  {
    hide TakeEvidence, Again;
    assert [] + [Reconcile(Or(s.workBaseline, s.head))] == [Reconcile(Or(s.workBaseline, s.head))];
  }

  /** What publishing and opening a request do not touch. */
  predicate Steady(s: Pub, t: Pub) {
    && t.notes == s.notes && t.adjustment == s.adjustment && t.conflict == s.conflict && t.result == s.result
    && t.pending == s.pending && t.terminal == s.terminal && t.noChanges == s.noChanges && t.cursor == s.cursor
    && t.ciCycles == s.ciCycles && t.stopped == s.stopped && t.reason == s.reason
  }

  predicate Requested(a: Answers, s: Pub, p: Progress) {
    && p.s.issueLinked && p.s.pr == Some(if s.pr.Some? then s.pr.value else a.request)
    && Steady(s, p.s)
  }

  lemma GuardIs(cfg: Config, a: Answers, start: Pub, p: Progress)
    requires Calm(a)
    ensures Guarded(cfg, a, start, p) == More(p.(calls := p.calls + Guards(cfg)))
  {
    assert p.calls + [] == p.calls;
  }

  lemma AskIs(a: Answers, start: Pub, p: Progress, c: Call)
    requires Calm(a)
    ensures Ask(a, start, p, c) == More(p.(calls := p.calls + [c]))
  {
  }

  lemma BranchIs(cfg: Config, a: Answers, start: Pub, s: Pub, p: Progress)
    requires Calm(a) && Fetched(a, s, p)
    ensures var st := PublishBranch(cfg, a, start, p);
            if s.head.None? && a.first.Moved? then st.Stop? && st.end.outcome in {ConflictReady, OperatorAction}
            else
              && st.More? && st.value.lease == p.lease && st.value.calls == p.calls + FirstCalls(cfg, a, s)
              && st.value.s.head == (if s.head.None? then Some(a.first.sha) else p.s.head)
              && st.value.s.issueLinked == s.issueLinked && st.value.s.pr == s.pr
              && Steady(s, st.value.s)
  {
    hide Guarded, Guards, Ask;
    if s.head.None? {
      GuardIs(cfg, a, start, p);
      var g := p.(calls := p.calls + Guards(cfg));
      AskIs(a, start, g, Publish(p.lease));
      if a.first.Pushed? {
        assert p.calls + Guards(cfg) + [Publish(p.lease)] + [Record(a.first.sha)]
            == p.calls + (Guards(cfg) + [Publish(p.lease), Record(a.first.sha)]);
      }
    } else {
      assert p.calls + [] == p.calls;
    }
  }

  lemma RequestIs(a: Answers, start: Pub, s: Pub, b: Progress)
    requires Calm(a) && Steady(s, b.s) && b.s.issueLinked == s.issueLinked && b.s.pr == s.pr
    ensures var st := OpenRequest(a, start, b);
            && st.More? && RelateIssue(a, start, st.value).More?
            && var p := RelateIssue(a, start, st.value).value;
            && Requested(a, s, p) && p.lease == b.lease && p.s.head == b.s.head && p.calls == b.calls + RequestCalls(s)
  {
    hide Ask;
    AskIs(a, start, b, EnsureRequest);
    AskIs(a, start, OpenRequest(a, start, b).value, LinkIssue);
    assert b.calls + [EnsureRequest] + [LinkIssue] == b.calls + ([EnsureRequest] + [LinkIssue]);
    assert b.calls + [] == b.calls;
  }

  lemma OpenedIs(cfg: Config, a: Answers, start: Pub, s: Pub, p: Progress)
    requires Calm(a) && Fetched(a, s, p)
    ensures var st := Opened(cfg, a, start, p);
            if s.head.None? && a.first.Moved? then GoesRound(st)
            else
              && st.More? && Requested(a, s, st.value) && st.value.lease == p.lease
              && st.value.calls == p.calls + FirstCalls(cfg, a, s) + RequestCalls(s)
              && st.value.s.head == if s.head.None? then Some(a.first.sha) else p.s.head
  {
    hide PublishBranch, OpenRequest, RelateIssue, FirstCalls, RequestCalls, Fetched, Requested;
    BranchIs(cfg, a, start, s, p);
    var st := PublishBranch(cfg, a, start, p);
    if st.More? {
      RequestIs(a, start, s, st.value);
    }
  }

  /** The state when a repair is delivered: fetched, published once and opened. */
  predicate Ready(a: Answers, s: Pub, p: Progress) {
    && Requested(a, s, p) && p.lease == Lease(a, s)
    && p.s.head == if s.head.None? then (if a.first.Pushed? then Some(a.first.sha) else None) else KnownHead(a, s)
  }

  predicate GoesRound<T(!new)>(st: Step<T>) {
    st.Stop? && st.end.outcome in {ConflictReady, OperatorAction}
  }

  /** A repair that was sent, acknowledged at its new head. */
  predicate Sent(s: Pub, p: Progress, q: Progress, calls: seq<Call>, sha: Sha) {
    && q.calls == p.calls + calls + [Record(sha)] && q.lease == p.lease && q.s.head == Some(sha)
    && Steady(s, q.s) && q.s.issueLinked == p.s.issueLinked && q.s.pr == p.s.pr
  }

  lemma RepairSendIs(cfg: Config, a: Answers, start: Pub, s: Pub, p: Progress)
    requires Calm(a) && Steady(s, p.s) && Owed(cfg, s)
    ensures var st := SendAdjustment(cfg, a, start, p);
            if a.second.Moved? then GoesRound(st)
            else st.More? && Sent(s, p, st.value, Guards(cfg) + Guards(cfg) + [Publish(p.s.head)], a.second.sha)
  {
    hide Guarded, Guards, Ask;
    GuardIs(cfg, a, start, p);
    var g := p.(calls := p.calls + Guards(cfg));
    GuardIs(cfg, a, start, g);
    var h := g.(calls := g.calls + Guards(cfg));
    AskIs(a, start, h, Publish(p.s.head));
    assert p.calls + Guards(cfg) + Guards(cfg) + [Publish(p.s.head)] == p.calls + (Guards(cfg) + Guards(cfg) + [Publish(p.s.head)]);
  }

  lemma RebaseSendIs(cfg: Config, a: Answers, start: Pub, s: Pub, p: Progress)
    requires Calm(a) && Steady(s, p.s) && Repaired(s, Rebase) && s.conflict.Some?
    ensures var st := SendAdjustment(cfg, a, start, p);
            if !a.rebase.Rebased? then GoesRound(st)
            else if a.prHead != a.rebase.sha then st.Stop? && st.end.outcome == Threw
            else st.More? && Sent(s, p, st.value, Guards(cfg) + [PublishRebase(s.conflict.value), ReadHead], a.rebase.sha)
  {
    hide Guarded, Guards, Ask;
    GuardIs(cfg, a, start, p);
    var g := p.(calls := p.calls + Guards(cfg));
    AskIs(a, start, g, PublishRebase(s.conflict.value));
    var h := g.(calls := g.calls + [PublishRebase(s.conflict.value)]);
    AskIs(a, start, h, RetainRebase);
    AskIs(a, start, h, ReadHead);
    assert p.calls + Guards(cfg) + [PublishRebase(s.conflict.value)] + [ReadHead]
        == p.calls + (Guards(cfg) + [PublishRebase(s.conflict.value), ReadHead]);
  }

  /** What a delivered repair leaves, besides the head. */
  predicate Mended(cfg: Config, a: Answers, s: Pub, q: Pub, head: Option<Sha>) {
    && q.adjustment.None? && q.head == head && q.issueLinked && q.pr == Some(if s.pr.Some? then s.pr.value else a.request)
    && q.notes == (if Repaired(s, Feedback) && !cfg.maintenance then [] else s.notes)
    && q.conflict == (if Repaired(s, Rebase) then None else s.conflict)
    && q.result == (if Repaired(s, Feedback) && cfg.maintenance then
                      Some(FeedbackResult(head != Lease(a, s),
                        if head != Lease(a, s) then "Review adjustment published" else s.adjustment.value.summary))
                    else s.result)
    && q.pending == s.pending && q.terminal == s.terminal && q.noChanges == s.noChanges && q.cursor == s.cursor && q.ciCycles == s.ciCycles
  }

  function Answering(cfg: Config, s: Pub): seq<Call> {
    if Repaired(s, Feedback) && !cfg.maintenance then [Reply(s.notes)] else []
  }

  lemma FinishIs(cfg: Config, a: Answers, start: Pub, s: Pub, p: Progress)
    requires Calm(a) && Steady(s, p.s) && s.adjustment.Some? && p.lease == Lease(a, s)
    requires p.s.issueLinked && p.s.pr == Some(if s.pr.Some? then s.pr.value else a.request)
    requires !Owed(cfg, s) && !Repaired(s, Rebase) ==> !(cfg.maintenance && Repaired(s, Feedback))
    ensures var st := FinishAdjustment(cfg, a, start, p);
            && st.More? && Mended(cfg, a, s, st.value.s, p.s.head)
            && st.value.calls == p.calls + (if Repaired(s, Rebase) then [AfterRebase] else []) + Answering(cfg, s)
  {
    hide Ask;
    AskIs(a, start, p, AfterRebase);
    AskIs(a, start, p, Reply(p.s.notes));
    assert p.calls + [] == p.calls && p.calls + [AfterRebase] + [] == p.calls + [AfterRebase];
  }

  /** What the stage of the repair does, for every state of the pending adjustment. */
  ghost predicate Adjusted(cfg: Config, a: Answers, s: Pub, p: Progress, st: Step<Progress>) {
    if Repaired(s, Rebase) && s.conflict.None? then st.Stop? && st.end.outcome == Threw
    else if Loops(cfg, a, s) then GoesRound(st)
    else if Repaired(s, Rebase) && a.prHead != a.rebase.sha then st.Stop? && st.end.outcome == Threw
    else
      && st.More? && Mended(cfg, a, s, st.value.s, FinalHead(cfg, a, s))
      && st.value.calls == p.calls + RepairCalls(cfg, a, s) + Answering(cfg, s)
  }

  predicate Synced(a: Answers, s: Pub) {
    !(s.head.None? && a.first.Moved?) && !(Fetches(s) && (a.sync.changed || a.sync.conflicts))
  }

  lemma OwedIs(cfg: Config, a: Answers, start: Pub, s: Pub, p: Progress)
    requires Calm(a) && Ready(a, s, p) && Synced(a, s) && Owed(cfg, s)
    ensures Adjusted(cfg, a, s, p, Adjust(cfg, a, start, p))
  {
    RepairSendIs(cfg, a, start, s, p);
    hide SendAdjustment, FinishAdjustment, RepairCalls, Mended, Answering, Guards, KnownHead;
    var st := SendAdjustment(cfg, a, start, p);
    if st.More? {
      FinishIs(cfg, a, start, s, st.value);
      RepairCallsAre(cfg, a, s, p);
    }
  }

  lemma RebaseIs(cfg: Config, a: Answers, start: Pub, s: Pub, p: Progress)
    requires Calm(a) && Ready(a, s, p) && Synced(a, s) && Repaired(s, Rebase)
    ensures Adjusted(cfg, a, s, p, Adjust(cfg, a, start, p))
  {
    hide SendAdjustment, FinishAdjustment, RepairCalls, Mended, Answering, Guards, KnownHead;
    if s.conflict.Some? && a.prepared {
      RebaseSendIs(cfg, a, start, s, p);
      var st := SendAdjustment(cfg, a, start, p);
      if st.More? {
        FinishIs(cfg, a, start, s, st.value);
        RepairCallsAre(cfg, a, s, p);
      }
    }
  }

  lemma UnsentIs(cfg: Config, a: Answers, start: Pub, s: Pub, p: Progress)
    requires Calm(a) && Ready(a, s, p) && Synced(a, s) && !Owed(cfg, s) && !Repaired(s, Rebase)
    ensures Adjusted(cfg, a, s, p, Adjust(cfg, a, start, p))
  {
    assert p.calls + [] == p.calls;
    if s.adjustment.Some? {
      hide FinishAdjustment, SendAdjustment, Mended, Answering, Guards;
      FinishIs(cfg, a, start, s, p);
    }
  }

  lemma AdjustIs(cfg: Config, a: Answers, start: Pub, s: Pub, p: Progress)
    requires Calm(a) && Ready(a, s, p) && Synced(a, s)
    ensures Adjusted(cfg, a, s, p, Adjust(cfg, a, start, p))
  {
    hide Adjust, Adjusted, Ready, Synced;
    if Owed(cfg, s) {
      OwedIs(cfg, a, start, s, p);
    } else if Repaired(s, Rebase) {
      RebaseIs(cfg, a, start, s, p);
    } else {
      UnsentIs(cfg, a, start, s, p);
    }
  }

  lemma RepairCallsAre(cfg: Config, a: Answers, s: Pub, p: Progress)
    requires Ready(a, s, p) && !Loops(cfg, a, s)
    ensures Owed(cfg, s) ==>
              RepairCalls(cfg, a, s) == Guards(cfg) + Guards(cfg) + [Publish(p.s.head)] + [Record(a.second.sha)] + []
    ensures Repaired(s, Rebase) && s.conflict.Some? ==>
              RepairCalls(cfg, a, s) == Guards(cfg) + [PublishRebase(s.conflict.value), ReadHead] + [Record(a.rebase.sha)] + [AfterRebase]
  {
  }

  // ---------------------------------------------------------------- main results

  /** Every outside call of a successful execution, in order. */
  function Calls(cfg: Config, a: Answers, s: Pub): seq<Call>
    requires !Loops(cfg, a, s)
  {
    FetchCalls(s) + FirstCalls(cfg, a, s) + RequestCalls(s) + RepairCalls(cfg, a, s) + ReplyCalls(cfg, s)
  }

  /** The execution has done all there was to do. */
  predicate Delivered(cfg: Config, a: Answers, s: Pub, end: End)
    requires !Loops(cfg, a, s)
  {
    && end.outcome == (if Unanswered(cfg, s) then FeedbackReady else Waiting)
    && end.calls == Calls(cfg, a, s)
    && Mended(cfg, a, s, end.s, FinalHead(cfg, a, s))
    && (end.outcome == Waiting ==> end.s.stage == Awaiting)
  }

  /** What ends an execution before it delivers anything. */
  predicate EndsEarly(start: Pub) {
    start.stopped || (start.pending.Some? && Ends(start.pending.value))
  }

  lemma SettleIs(cfg: Config, a: Answers, start: Pub, s: Pub, p: Progress)
    requires Calm(a) && Mended(cfg, a, s, p.s, p.s.head)
    ensures var st := Settle(cfg, a, start, p);
            && st.Stop? && st.end.outcome == (if Unanswered(cfg, s) then FeedbackReady else Waiting)
            && st.end.calls == p.calls + (if Unanswered(cfg, s) then [Acknowledge(s.notes)] else [])
            && Mended(cfg, a, s, st.end.s, p.s.head)
            && (st.end.outcome == Waiting ==> st.end.s.stage == Awaiting)
  {
    assert p.calls + [] == p.calls;
  }

  lemma CalmRunIs(cfg: Config, a: Answers, start: Pub, s: Pub)
    requires Calm(a) && TakeEvidence(start) == More(s)
    ensures var end := Run(cfg, a, start);
            if s.terminal.Some? then
              end == End(if s.terminal.value.merged then Completed else Aborted, s, [ReconcileTerminal(s.terminal.value)])
            else if Skips(cfg, a, s) then end.outcome == Completed && end.s == s.(noChanges := true)
            else if Repaired(s, Rebase) && s.conflict.None? && s.head.Some? then end.outcome == Threw
            else if Loops(cfg, a, s) then end.outcome in {ConflictReady, OperatorAction, Threw} && (R.Repairs(s) ==> end.outcome != Threw)
            else if Repaired(s, Rebase) && (a.prHead != a.rebase.sha || s.conflict.None?) then end.outcome == Threw
            else Delivered(cfg, a, s, end)
  {
    hide TakeEvidence, Prepared, Opened, Adjust, Settle;
    hide FetchCalls, FirstCalls, RequestCalls, RepairCalls, Mended;
    PreparedIs(cfg, a, start, s);
    var st := Prepared(cfg, a, start);
    if st.More? {
      OpenedIs(cfg, a, start, s, st.value);
      var o := Opened(cfg, a, start, st.value);
      if o.More? {
        AdjustIs(cfg, a, start, s, o.value);
        var f := Adjust(cfg, a, start, o.value);
        if f.More? {
          assert f.value.s.head == FinalHead(cfg, a, s) by { MendedHead(cfg, a, s, f.value.s, FinalHead(cfg, a, s)); }
          SettleIs(cfg, a, start, s, f.value);
          if !Unanswered(cfg, s) {
            assert Answering(cfg, s) + [] == Answering(cfg, s);
          }
        }
      }
    }
  }

  lemma MendedHead(cfg: Config, a: Answers, s: Pub, q: Pub, head: Option<Sha>)
    requires Mended(cfg, a, s, q, head)
    ensures q.head == head
  {
  }

  /**
   The outcome of every execution whose outside calls do not throw. A stopped process and
   cancelled work abort; a stored failure goes to CI repair while fewer than three were
   counted; a relevant conflict goes to conflict repair. A merged request completes and a
   closed one aborts, after one reconciliation of the end. A first change that turns out to
   be empty completes where the configuration allows it. Whatever moved under the execution
   sends it round again, to a worker while fewer than three loops are spent. Otherwise
   everything is delivered.
   */
  lemma OutcomeIs(cfg: Config, a: Answers, start: Pub) returns (s: Pub)
    requires Calm(a) && R.Repairs(start)
    ensures start.stopped ==> Run(cfg, a, start).outcome == Aborted
    ensures !start.stopped && EndsEarly(start) ==>
              Run(cfg, a, start).calls == [] &&
              Run(cfg, a, start).outcome == match start.pending.value.fact
                                            case Failure(_) => if start.ciCycles < 3 then CiReady else OperatorAction
                                            case Conflicting(_) => if R.Wedged(start) then Threw else ConflictReady
                                            case _ => Aborted
    ensures !EndsEarly(start) ==>
              && TakenUp(start, s)
              && var end := Run(cfg, a, start);
              if s.terminal.Some? then
                && end.outcome == (if s.terminal.value.merged then Completed else Aborted)
                && end.calls == [ReconcileTerminal(s.terminal.value)] && end.s == s
              else if Skips(cfg, a, s) then end.outcome == Completed && end.s == s.(noChanges := true)
              else if Loops(cfg, a, s) then end.outcome == if R.Spent(start, end.calls) < 3 then ConflictReady else OperatorAction
              else if Repaired(s, Rebase) && a.prHead != a.rebase.sha then end.outcome == Threw
              else Delivered(cfg, a, s, end)
  {
    s := start;
    if EndsEarly(start) {
      EarlyEndIs(cfg, a, start);
    } else {
      s := EvidenceIsTakenUp(start);
      CalmRunIs(cfg, a, start, s);
      R.BudgetIsKept(cfg, a, start);
      hide Run, Delivered;
    }
  }

  lemma EarlyEndIs(cfg: Config, a: Answers, start: Pub)
    requires EndsEarly(start)
    ensures Run(cfg, a, start).calls == []
    ensures Run(cfg, a, start).outcome ==
              if start.stopped then Aborted
              else match start.pending.value.fact
                   case Failure(_) => if start.ciCycles < 3 then CiReady else OperatorAction
                   case Conflicting(_) => if R.Wedged(start) then Threw else ConflictReady
                   case _ => Aborted
  {
    hide Relevant, AtHead, Conclude, SkipUnchanged, Synchronize, Opened, Adjust, Settle;
  }

  /**
   An execution that succeeds, whatever could have failed, made exactly these calls in this
   order and left exactly these results: nothing that was to be done is missing, and nothing
   else was done.
   */
  lemma SuccessIsDelivery(cfg: Config, a: Answers, start: Pub) returns (s: Pub)
    requires Run(cfg, a, start).outcome in {Waiting, FeedbackReady}
    ensures TakenUp(start, s) && !Loops(cfg, a, s) && !Skips(cfg, a, s) && s.terminal.None?
    ensures Delivered(cfg, a, s, Run(cfg, a, start))
  {
    FailuresOnlyThrow(cfg, a, start);
    if EndsEarly(start) {
      EarlyEndIs(cfg, a, start);
      assert false;
    } else {
      s := EvidenceIsTakenUp(start);
      CalmRunIs(cfg, Calmed(a), start, s);
      SameAnswers(cfg, a, s);
      hide Run, Delivered, Loops;
    }
  }

  lemma SameAnswers(cfg: Config, a: Answers, s: Pub)
    ensures Loops(cfg, Calmed(a), s) == Loops(cfg, a, s) && Skips(cfg, Calmed(a), s) == Skips(cfg, a, s)
    ensures !Loops(cfg, a, s) ==> forall end :: Delivered(cfg, Calmed(a), s, end) ==> Delivered(cfg, a, s, end)
  {
  }

  predicate Silent(calls: seq<Call>) {
    forall j :: 0 <= j < |calls| ==> !calls[j].Reply? && !calls[j].Acknowledge?
  }

  lemma PartsAreSilent(cfg: Config, a: Answers, s: Pub)
    ensures Silent(FetchCalls(s)) && Silent(RequestCalls(s)) && Silent(Guards(cfg))
    ensures !Loops(cfg, a, s) ==> Silent(FirstCalls(cfg, a, s)) && Silent(RepairCalls(cfg, a, s))
  {
  }

  lemma SilentJoin(x: seq<Call>, y: seq<Call>)
    requires Silent(x) && Silent(y)
    ensures Silent(x + y)
  {
  }

  lemma PairIsSilent(c: Call, d: Call)
    requires !c.Reply? && !c.Acknowledge? && !d.Reply? && !d.Acknowledge?
    ensures Silent([c, d])
  {
  }

  /** Everything before the repair. */
  function Earlier(cfg: Config, a: Answers, s: Pub): seq<Call>
    requires !Loops(cfg, a, s)
  {
    FetchCalls(s) + FirstCalls(cfg, a, s) + RequestCalls(s)
  }

  lemma EarlierIsSilent(cfg: Config, a: Answers, s: Pub)
    requires !Loops(cfg, a, s)
    ensures Silent(Earlier(cfg, a, s))
  {
    PartsAreSilent(cfg, a, s);
    hide Silent, FetchCalls, FirstCalls, RequestCalls;
    SilentJoin(FetchCalls(s), FirstCalls(cfg, a, s));
    SilentJoin(FetchCalls(s) + FirstCalls(cfg, a, s), RequestCalls(s));
  }

  lemma DeliveredFacts(cfg: Config, a: Answers, s: Pub, end: End)
    requires !Loops(cfg, a, s) && Delivered(cfg, a, s, end)
    ensures end.calls == Earlier(cfg, a, s) + RepairCalls(cfg, a, s) + ReplyCalls(cfg, s)
    ensures end.s.adjustment.None? && end.s.head == FinalHead(cfg, a, s) && end.s.issueLinked
    ensures end.s.pr == Some(if s.pr.Some? then s.pr.value else a.request)
    ensures end.s.conflict == (if Repaired(s, Rebase) then None else s.conflict)
    ensures end.s.notes == (if Repaired(s, Feedback) && !cfg.maintenance then [] else s.notes)
    ensures end.outcome == if Unanswered(cfg, s) then FeedbackReady else Waiting
  {
  }

  /** The middle part of a list of calls stands where the first part ends. */
  lemma Placed(before: seq<Call>, mid: seq<Call>, after: seq<Call>)
    ensures forall k {:trigger mid[k]} :: 0 <= k < |mid| ==> (before + mid + after)[|before| + k] == mid[k]
    ensures Silent(before) && Silent(mid) ==>
              forall j :: 0 <= j < |before| + |mid| ==>
                !(before + mid + after)[j].Reply? && !(before + mid + after)[j].Acknowledge?
  {
  }

  /** Calls `i` and `i + 1` are a push and the acknowledgement of what it published. */
  predicate PublishedAt(calls: seq<Call>, i: nat, sha: Sha) {
    i + 1 < |calls| && (calls[i].Publish? || (i > 0 && calls[i].ReadHead? && calls[i - 1].PublishRebase?)) && calls[i + 1] == Record(sha)
  }

  /**
   A repair of feedback or CI that changed the checkout is pushed and acknowledged, before
   anybody is answered, by every execution that succeeds, and the request is at its head
   afterwards; the repair is no longer pending. Under maintenance so is every repair.
   */
  lemma RequiredRepairIsPublished(cfg: Config, a: Answers, start: Pub) returns (i: nat)
    requires start.adjustment.Some? && start.adjustment.value.origin in {Feedback, Ci}
    requires start.adjustment.value.publishRequired || cfg.maintenance
    requires Run(cfg, a, start).outcome in {Waiting, FeedbackReady}
    ensures var end := Run(cfg, a, start);
            && a.second.Pushed? && end.s.head == Some(a.second.sha) && end.s.adjustment.None?
            && PublishedAt(end.calls, i, a.second.sha) && end.calls[i].Publish?
            && (forall j :: 0 <= j < |end.calls| && (end.calls[j].Reply? || end.calls[j].Acknowledge?) ==> j > i + 1)
  {
    hide Run, Delivered, Silent, Earlier, Guards, ReplyCalls, FetchCalls, FirstCalls, RequestCalls;
    var s := SuccessIsDelivery(cfg, a, start);
    var end := Run(cfg, a, start);
    DeliveredFacts(cfg, a, s, end);
    EarlierIsSilent(cfg, a, s);
    PartsAreSilent(cfg, a, s);
    SilentJoin(Earlier(cfg, a, s), Guards(cfg));
    SilentJoin(Earlier(cfg, a, s) + Guards(cfg), Guards(cfg));
    var before := Earlier(cfg, a, s) + Guards(cfg) + Guards(cfg);
    var mid := [Publish(if s.head.None? then Some(a.first.sha) else KnownHead(a, s)), Record(a.second.sha)];
    PairIsSilent(mid[0], mid[1]);
    i := |before|;
    assert end.calls == before + mid + ReplyCalls(cfg, s);
    Placed(before, mid, ReplyCalls(cfg, s));
    assert mid[0].Publish? && mid[1] == Record(a.second.sha);
  }

  /** A target rebase that succeeds is published, read back at the request, acknowledged and no longer pending. */
  lemma TargetRebaseIsPublished(cfg: Config, a: Answers, start: Pub) returns (i: nat)
    requires start.adjustment.Some? && start.adjustment.value.origin == Rebase
    requires Run(cfg, a, start).outcome in {Waiting, FeedbackReady}
    ensures var end := Run(cfg, a, start);
            && a.rebase.Rebased? && end.s.head == Some(a.rebase.sha) && end.s.adjustment.None? && end.s.conflict.None?
            && start.conflict.Some? && PublishedAt(end.calls, i, a.rebase.sha)
            && i > 0 && end.calls[i - 1] == PublishRebase(start.conflict.value)
            && i + 2 < |end.calls| && end.calls[i + 2] == AfterRebase
  {
    hide Run, Delivered;
    var s := SuccessIsDelivery(cfg, a, start);
    RebaseHasConflict(cfg, a, start, s);
    DeliveredFacts(cfg, a, s, Run(cfg, a, start));
    i := RebaseIsPlaced(cfg, a, s, Run(cfg, a, start));
  }

  lemma RebaseIsPlaced(cfg: Config, a: Answers, s: Pub, end: End) returns (i: nat)
    requires !Loops(cfg, a, s) && Delivered(cfg, a, s, end) && Repaired(s, Rebase) && s.conflict.Some?
    ensures PublishedAt(end.calls, i, a.rebase.sha)
    ensures i > 0 && end.calls[i - 1] == PublishRebase(s.conflict.value) && i + 2 < |end.calls| && end.calls[i + 2] == AfterRebase
  {
    hide Delivered, Earlier, Guards, ReplyCalls, RepairCalls, FinalHead, KnownHead, Silent;
    DeliveredFacts(cfg, a, s, end);
    RebasePart(cfg, a, s);
    var before, after := Earlier(cfg, a, s) + Guards(cfg), ReplyCalls(cfg, s);
    i := |before| + 1;
    var mid := [PublishRebase(s.conflict.value), ReadHead, Record(a.rebase.sha), AfterRebase];
    assert end.calls == before + mid + after;
    FourPlaced(before, mid[0], mid[1], mid[2], mid[3], after);
  }

  lemma RebasePart(cfg: Config, a: Answers, s: Pub)
    requires !Loops(cfg, a, s) && Repaired(s, Rebase) && s.conflict.Some?
    ensures RepairCalls(cfg, a, s) == Guards(cfg) + [PublishRebase(s.conflict.value), ReadHead, Record(a.rebase.sha), AfterRebase]
  {
  }

  lemma FourPlaced(before: seq<Call>, c: Call, d: Call, e: Call, f: Call, after: seq<Call>)
    ensures var all, n := before + [c, d, e, f] + after, |before|;
            |all| >= n + 4 && all[n] == c && all[n + 1] == d && all[n + 2] == e && all[n + 3] == f
  {
  }

  lemma RebaseHasConflict(cfg: Config, a: Answers, start: Pub, s: Pub)
    requires TakenUp(start, s) && Repaired(s, Rebase) && Run(cfg, a, start).outcome in {Waiting, FeedbackReady}
    ensures s.conflict.Some?
  {
    FailuresOnlyThrow(cfg, a, start);
    if EndsEarly(start) {
      EarlyEndIs(cfg, a, start);
    } else {
      var t := EvidenceIsTakenUp(start);
      CalmRunIs(cfg, Calmed(a), start, t);
      hide Run, Delivered, Loops;
    }
  }

  /**
   A first delivery that succeeds has pushed the branch on top of what it fetched, opened the
   request and linked the issue, and every successful execution answers exactly the feedback
   that its repair was about, or hands over what is left.
   */
  lemma FirstDeliveryOpensTheRequest(cfg: Config, a: Answers, start: Pub) returns (i: nat)
    requires Run(cfg, a, start).outcome in {Waiting, FeedbackReady}
    ensures var end := Run(cfg, a, start);
            && end.s.pr.Some? && (start.pr.Some? ==> end.s.pr == start.pr) && (start.pr.None? ==> EnsureRequest in end.calls)
            && end.s.issueLinked && (!start.issueLinked ==> LinkIssue in end.calls)
            && end.s.head.Some?
            && (start.head.None? && start.pending.None? && start.adjustment.None? ==>
                  && a.first.Pushed? && end.s.head == Some(a.first.sha)
                  && PublishedAt(end.calls, i, a.first.sha) && end.calls[i] == Publish(a.sync.remoteHead)
                  && (forall j :: 0 <= j < |end.calls| && end.calls[j].EnsureRequest? ==> j > i + 1))
  {
    hide Run, Delivered, Guards, ReplyCalls, RequestCalls, RepairCalls, Earlier;
    var s := SuccessIsDelivery(cfg, a, start);
    var end := Run(cfg, a, start);
    DeliveredFacts(cfg, a, s, end);
    RequestIsOpened(cfg, a, s, end);
    i := 0;
    if start.head.None? && start.pending.None? && start.adjustment.None? {
      i := FirstPushIsPlaced(cfg, a, s, end);
    }
  }

  lemma FirstPushIsPlaced(cfg: Config, a: Answers, s: Pub, end: End) returns (i: nat)
    requires !Loops(cfg, a, s) && Delivered(cfg, a, s, end) && s.head.None? && s.adjustment.None?
    ensures PublishedAt(end.calls, i, a.first.sha) && end.calls[i] == Publish(a.sync.remoteHead)
    ensures forall j :: 0 <= j < |end.calls| && end.calls[j].EnsureRequest? ==> j > i + 1
  {
    hide Silent, RequestCalls, RepairCalls, ReplyCalls;
    DeliveredFacts(cfg, a, s, end);
    hide Delivered;
    var before := FetchCalls(s) + Guards(cfg);
    var mid := [Publish(a.sync.remoteHead), Record(a.first.sha)];
    var after := RequestCalls(s) + RepairCalls(cfg, a, s) + ReplyCalls(cfg, s);
    i := |before|;
    assert FirstCalls(cfg, a, s) == Guards(cfg) + mid;
    NoRequestYet(cfg, s, mid[0], mid[1], after);
    hide FirstCalls, FetchCalls, Guards;
    Regroup(FetchCalls(s), Guards(cfg), mid, RequestCalls(s), RepairCalls(cfg, a, s), ReplyCalls(cfg, s));
    Placed(before, mid, after);
    assert mid[0] == Publish(a.sync.remoteHead) && mid[1] == Record(a.first.sha);
  }

  lemma Regroup(f: seq<Call>, g: seq<Call>, m: seq<Call>, r: seq<Call>, p: seq<Call>, y: seq<Call>)
    ensures f + (g + m) + r + p + y == f + g + m + (r + p + y)
  {
  }

  lemma NoRequestYet(cfg: Config, s: Pub, c: Call, d: Call, after: seq<Call>)
    requires !c.EnsureRequest? && !d.EnsureRequest?
    ensures var before := FetchCalls(s) + Guards(cfg);
            forall j :: 0 <= j < |before| + 2 ==> !(before + [c, d] + after)[j].EnsureRequest?
  {
  }

  lemma RequestIsOpened(cfg: Config, a: Answers, s: Pub, end: End)
    requires !Loops(cfg, a, s) && Delivered(cfg, a, s, end)
    ensures s.pr.None? ==> EnsureRequest in end.calls
    ensures !s.issueLinked ==> LinkIssue in end.calls
  {
    hide FetchCalls, FirstCalls, RepairCalls, ReplyCalls;
    assert s.pr.None? ==> EnsureRequest in RequestCalls(s);
    assert !s.issueLinked ==> LinkIssue in RequestCalls(s);
  }

  /** Feedback is answered exactly once: by the repair that addressed it, or by handing it to a repair turn. */
  lemma FeedbackIsAnsweredOnce(cfg: Config, a: Answers, start: Pub) returns (s: Pub)
    requires Run(cfg, a, start).outcome in {Waiting, FeedbackReady} && !cfg.maintenance
    ensures TakenUp(start, s)
    ensures var end := Run(cfg, a, start);
            if Repaired(s, Feedback) then
              && end.outcome == Waiting && end.s.notes == []
              && end.calls != [] && end.calls[|end.calls| - 1] == Reply(s.notes)
              && (forall j :: 0 <= j < |end.calls| - 1 ==> !end.calls[j].Reply? && !end.calls[j].Acknowledge?)
            else
              && end.s.notes == s.notes && (end.outcome == FeedbackReady <==> s.notes != [])
              && (forall j :: 0 <= j < |end.calls| ==> !end.calls[j].Reply?)
              && (s.notes != [] ==> end.calls != [] && end.calls[|end.calls| - 1] == Acknowledge(s.notes))
  {
    hide Run, Delivered, Silent, Earlier, RepairCalls;
    s := SuccessIsDelivery(cfg, a, start);
    var end := Run(cfg, a, start);
    DeliveredFacts(cfg, a, s, end);
    EarlierIsSilent(cfg, a, s);
    PartsAreSilent(cfg, a, s);
    Placed(Earlier(cfg, a, s), RepairCalls(cfg, a, s), ReplyCalls(cfg, s));
  }

  /** Nothing else is pushed: without a change to publish a successful execution leaves the branch alone. */
  lemma NothingElseIsPublished(cfg: Config, a: Answers, start: Pub)
    requires start.head.Some? && !cfg.maintenance
    requires start.adjustment.Some? ==> start.adjustment.value.origin != Rebase && !start.adjustment.value.publishRequired
    requires Run(cfg, a, start).outcome in {Waiting, FeedbackReady}
    ensures var calls := Run(cfg, a, start).calls;
            forall j :: 0 <= j < |calls| ==> !calls[j].Publish? && !calls[j].PublishRebase? && !calls[j].Record?
  {
    hide Run, Delivered, FetchCalls, RequestCalls, ReplyCalls;
    var s := SuccessIsDelivery(cfg, a, start);
    DeliveredFacts(cfg, a, s, Run(cfg, a, start));
    assert FirstCalls(cfg, a, s) == [] && RepairCalls(cfg, a, s) == [];
    assert Run(cfg, a, start).calls == FetchCalls(s) + RequestCalls(s) + ReplyCalls(cfg, s);
    PartsDoNotPush(cfg, s);
  }

  lemma PartsDoNotPush(cfg: Config, s: Pub)
    ensures var calls := FetchCalls(s) + RequestCalls(s) + ReplyCalls(cfg, s);
            forall j :: 0 <= j < |calls| ==> !calls[j].Publish? && !calls[j].PublishRebase? && !calls[j].Record?
  {
  }

  /** Every acknowledged push so far is the head, the baseline of the local work and the end of all loops. */
  predicate Acked(p: Progress) {
    (exists i :: 0 <= i < |p.calls| && p.calls[i].Record?) ==>
      && p.s.head.Some? && p.s.workBaseline == p.s.head && !p.s.reconciliationRequired && p.s.cycles == 0
  }

  /** A successful execution that acknowledged a push ends with that head as the baseline of later work. */
  lemma PublishedHeadIsTheBaseline(cfg: Config, a: Answers, start: Pub)
    requires Run(cfg, a, start).outcome in {Waiting, FeedbackReady}
    ensures var end := Run(cfg, a, start);
            Acked(Progress(end.s, end.calls, None))
  {
    hide Prepared, Opened, Adjust, Acked;
    var p := Prepared(cfg, a, start);
    PreparedAcks(cfg, a, start);
    if p.More? {
      OpenedAcks(cfg, a, start, p.value);
      var q := Opened(cfg, a, start, p.value);
      if q.More? {
        AdjustAcks(cfg, a, start, q.value);
        var r := Adjust(cfg, a, start, q.value);
        if r.More? {
          SettleAcks(cfg, a, start, r.value);
        }
      }
    }
  }

  lemma PreparedAcks(cfg: Config, a: Answers, start: Pub)
    ensures var p := Prepared(cfg, a, start);
            if p.More? then Acked(p.value) else p.end.outcome !in {Waiting, FeedbackReady}
  {
    hide TakeEvidence;
    EvidenceEnds(start);
  }

  lemma EvidenceEnds(start: Pub)
    ensures TakeEvidence(start).Stop? ==> TakeEvidence(start).end.outcome !in {Waiting, FeedbackReady}
  {
    hide Apply;
  }

  lemma OpenedAcks(cfg: Config, a: Answers, start: Pub, p: Progress)
    requires Acked(p)
    ensures var q := Opened(cfg, a, start, p);
            if q.More? then Acked(q.value) else q.end.outcome !in {Waiting, FeedbackReady}
  {
  }

  lemma AdjustAcks(cfg: Config, a: Answers, start: Pub, p: Progress)
    requires Acked(p)
    ensures var q := Adjust(cfg, a, start, p);
            if q.More? then Acked(q.value) else q.end.outcome !in {Waiting, FeedbackReady}
  {
    hide SendAdjustment, FinishAdjustment;
    if p.s.adjustment.Some? && (p.s.adjustment.value.origin == Rebase ==> p.s.conflict.Some?) {
      SendAcks(cfg, a, start, p);
      FinishAcks(cfg, a, start, p);
      var q := SendAdjustment(cfg, a, start, p);
      if q.More? {
        FinishAcks(cfg, a, start, q.value);
      }
    }
  }

  lemma SendAcks(cfg: Config, a: Answers, start: Pub, p: Progress)
    requires Acked(p) && p.s.adjustment.Some? && (p.s.adjustment.value.origin == Rebase ==> p.s.conflict.Some?)
    ensures var q := SendAdjustment(cfg, a, start, p);
            if q.More? then Acked(q.value) else q.end.outcome !in {Waiting, FeedbackReady}
  {
  }

  lemma FinishAcks(cfg: Config, a: Answers, start: Pub, p: Progress)
    requires Acked(p)
    ensures var q := FinishAdjustment(cfg, a, start, p);
            if q.More? then Acked(q.value) else q.end.outcome !in {Waiting, FeedbackReady}
  {
  }

  lemma SettleAcks(cfg: Config, a: Answers, start: Pub, p: Progress)
    requires Acked(p)
    ensures var q := Settle(cfg, a, start, p);
            q.Stop? && (q.end.outcome != Threw ==> Acked(Progress(q.end.s, q.end.calls, None)))
  {
  }

  // ---------------------------------------------------------------- the same, of any end

  predicate Succeeds(end: End) {
    end.outcome in {Waiting, FeedbackReady}
  }

  /** A repair that has to reach the branch waits for Deliver. */
  predicate Due(cfg: Config, start: Pub) {
    && start.adjustment.Some? && start.adjustment.value.origin in {Feedback, Ci}
    && (start.adjustment.value.publishRequired || cfg.maintenance)
  }

  /** The push at `i` of the branch, recorded as `sha`, comes before every answer to a commenter. */
  predicate PushedFirst(calls: seq<Call>, i: nat, sha: Sha) {
    && PublishedAt(calls, i, sha) && calls[i].Publish?
    && forall j: nat :: j < |calls| && (calls[j].Reply? || calls[j].Acknowledge?) ==> j > i + 1
  }

  ghost predicate PublishedBeforeReply(calls: seq<Call>, sha: Sha) {
    exists i: nat :: PushedFirst(calls, i, sha)
  }

  lemma SuccessLeavesNothing(cfg: Config, a: Answers, start: Pub)
    requires Succeeds(Run(cfg, a, start))
    ensures Run(cfg, a, start).s.adjustment.None?
    ensures var end := Run(cfg, a, start);
            Due(cfg, start) ==>
              a.second.Pushed? && end.s.head == Some(a.second.sha) && PublishedBeforeReply(end.calls, a.second.sha)
  {
    hide Run, Delivered;
    var s := SuccessIsDelivery(cfg, a, start);
    DeliveredFacts(cfg, a, s, Run(cfg, a, start));
    if Due(cfg, start) {
      var i := RequiredRepairIsPublished(cfg, a, start);
      assert PushedFirst(Run(cfg, a, start).calls, i, a.second.sha);
    }
  }

  /** A merged request completes, and a closed one aborts, with one reconciliation and without another call. */
  lemma EndedRequestConcludes(cfg: Config, a: Answers, start: Pub)
    requires Calm(a) && !start.stopped && start.pending.None? && start.terminal.Some?
    ensures Run(cfg, a, start) == End(
              if start.terminal.value.merged then Completed else Aborted, start, [ReconcileTerminal(start.terminal.value)])
  {
    CalmRunIs(cfg, a, start, start);
    hide Run;
  }
}
