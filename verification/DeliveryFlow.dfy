/**
 The turns of a single-repository delivery without server maintenance: Deliver, Address
 Feedback, Fix CI and the operator. Statements about every legal sequence of events cover
 every order of evidence, executions, failures and operator decisions.
 */
module DeliveryFlow {
  import opened Git
  import opened Delivery
  import opened DeliveryRuns
  import O = DeliveryOrder

  datatype Position = AtDeliver | AtFeedback | AtCi | AtOperator | Over

  datatype Flow = Flow(s: Pub, at: Position)

  datatype Event =
    | Delivered(a: Answers)
    | Reported(evidence: Evidence)
    | Noted(evidence: Evidence)
    | Adjusted(changes: bool, summary: string)
    | GaveUp
    | Retried
    | Resumed
    | Abandoned

  function Single(skips: bool): Config {
    Config(false, false, skips)
  }

  /** External evidence is accepted once there is a request to observe. */
  predicate Armed(s: Pub) {
    s.noChanges || s.terminal.Some? || (s.head.Some? && s.pr.Some?)
  }

  predicate Open(f: Flow) {
    match f.at
    case AtDeliver => DeliverGate(Single(true), f.s)
    case AtFeedback => FeedbackGate(f.s)
    case AtCi => CiGate(f.s)
    case AtOperator => true
    case Over => false
  }

  predicate Enabled(f: Flow, e: Event) {
    match e
    case Delivered(_) => f.at == AtDeliver && Open(f)
    case Reported(ev) =>
      f.at == AtDeliver && Armed(f.s) && !ev.fact.Observed? && Apply(f.s, ev, f.s.ciCycles < 3).Some?
    case Noted(_) => f.at == AtDeliver && Armed(f.s)
    case Adjusted(_, _) => f.at in {AtFeedback, AtCi} && Open(f)
    case GaveUp => f.at in {AtFeedback, AtCi} && Open(f)
    case Retried => f.at == AtOperator
    case Resumed => f.at == AtOperator
    case Abandoned => f.at == AtOperator
  }

  function Target(at: Position, o: Outcome): Position {
    match o
    case Waiting => AtDeliver
    case FeedbackReady => AtFeedback
    case ConflictReady => AtFeedback
    case CiReady => AtCi
    case OperatorAction => AtOperator
    case Completed => Over
    case Aborted => Over
    case Threw => at
  }

  function RepairReason(s: Pub, at: Position): Reason {
    if at == AtCi then Ci else if s.reason == Some(Rebase) then Rebase else Feedback
  }

  /** `retry_repair` */
  function Choice(s: Pub): Position {
    if s.reason in {Some(Rebase), Some(Feedback)} || s.reconciliationRequired then AtFeedback else AtCi
  }

  function Happen(skips: bool, f: Flow, e: Event): Flow
    requires Enabled(f, e)
  {
    match e
    case Delivered(a) =>
      var end := Run(Single(skips), a, f.s);
      Flow(end.s, Target(f.at, end.outcome))
    case Reported(ev) =>
      Flow(
        Apply(f.s, ev, f.s.ciCycles < 3).value,
        match ev.fact
        case Conflicting(_) => AtFeedback
        case Failure(_) => if f.s.ciCycles >= 3 then AtOperator else AtCi
        case Cancelled => Over
        case _ => AtDeliver)
    case Noted(ev) => Flow(f.s.(pending := Some(ev)), AtDeliver)
    case Adjusted(changes, summary) =>
      var origin := if f.s.reconciliationRequired then Feedback else RepairReason(f.s, f.at);
      var adjustment := Adjustment(origin, changes || f.s.reconciliationRequired, summary);
      Flow(f.s.(repairPending := false, adjustment := Some(adjustment)), AtDeliver)
    case GaveUp => Flow(f.s, AtOperator)
    case Retried => Flow(f.s, Choice(f.s))
    case Resumed => Flow(f.s.(repairPending := false, notes := [], adjustment := None), AtDeliver)
    case Abandoned => Flow(f.s, Over)
  }

  predicate Legal(skips: bool, es: seq<Event>)
    decreases |es|, 0
  {
    es == [] || (Legal(skips, es[..|es| - 1]) && Enabled(After(skips, es[..|es| - 1]), es[|es| - 1]))
  }

  function After(skips: bool, es: seq<Event>): Flow
    requires Legal(skips, es)
    decreases |es|, 1
  {
    if es == [] then Flow(Initial, AtDeliver)
    else Happen(skips, After(skips, es[..|es| - 1]), es[|es| - 1])
  }

  // ---------------------------------------------------------------- what every state keeps

  predicate Base(s: Pub) {
    && !s.stopped && !s.noChanges && s.ciCycles <= 3
    && (s.stage == Awaiting ==> s.head.Some? && s.pr.Some? && s.issueLinked)
    && (s.notes != [] ==> s.reason == Some(Feedback))
    && (s.adjustment.Some? && s.adjustment.value.origin == Rebase ==> s.conflict.Some?)
    && (s.conflict.Some? ==> s.head.Some?)
  }

  predicate Idle(s: Pub) {
    s.adjustment.None? && s.pending.None? && s.terminal.None?
  }

  predicate Repairable(s: Pub) {
    s.reconciliationRequired || (s.reason == Some(Feedback) && s.notes != [])
    || (s.reason == Some(Rebase) && s.conflict.Some?)
  }

  predicate CiRepairable(s: Pub) {
    s.reason == Some(Ci) && s.pipeline.Some?
  }

  predicate Inv(f: Flow) {
    f.at != Over ==>
      && Base(f.s)
      && match f.at
         case AtDeliver =>
           && (f.s.adjustment.Some? ==> f.s.pending.None? && f.s.terminal.None?)
           && (f.s.pending.Some? ==> f.s.terminal.None? && f.s.notes == [] && f.s.stage == Awaiting)
         case AtFeedback => Idle(f.s) && Repairable(f.s)
         case AtCi => Idle(f.s) && CiRepairable(f.s)
         case AtOperator => Idle(f.s) && (Repairable(f.s) || CiRepairable(f.s))
         case Over => true
  }

  /** Between the stages of an execution. */
  predicate Mid(p: Progress) {
    Base(p.s) && p.s.pending.None? && p.s.terminal.None?
  }

  predicate Routed(start: Pub, end: End) {
    if end.outcome == Threw then end.s == start else Inv(Flow(end.s, Target(AtDeliver, end.outcome)))
  }

  predicate Kept(start: Pub, st: Step<Progress>) {
    match st
    case More(p) => Mid(p)
    case Stop(end) => Routed(start, end)
  }

  lemma EvidenceRoutes(skips: bool, a: Answers, start: Pub)
    requires Inv(Flow(start, AtDeliver))
    ensures match TakeEvidence(start)
            case More(s) => Base(s) && s.pending.None? && (s.terminal.Some? ==> s.adjustment.None?)
            case Stop(end) => Routed(start, end)
  {
    hide Relevant, AtHead;
    AtHeadKeeps(start.(observationKey := if start.pending.Some? then Or(start.pending.value.key, start.observationKey) else None),
                if start.pending.Some? then start.pending.value.remoteHead else None);
  }

  lemma PreparedRoutes(skips: bool, a: Answers, start: Pub)
    requires Inv(Flow(start, AtDeliver))
    ensures Kept(start, Prepared(Single(skips), a, start))
  {
    EvidenceRoutes(skips, a, start);
    hide TakeEvidence;
  }

  lemma OpenedRoutes(skips: bool, a: Answers, start: Pub, p: Progress)
    requires Mid(p)
    ensures Kept(start, Opened(Single(skips), a, start, p))
    ensures Opened(Single(skips), a, start, p).More? ==>
              var q := Opened(Single(skips), a, start, p).value;
              q.s.head.Some? && q.s.pr.Some? && q.s.issueLinked
  {
    BranchRoutes(skips, a, start, p);
    hide PublishBranch;
  }

  lemma BranchRoutes(skips: bool, a: Answers, start: Pub, p: Progress)
    requires Mid(p)
    ensures Kept(start, PublishBranch(Single(skips), a, start, p))
    ensures PublishBranch(Single(skips), a, start, p).More? ==> PublishBranch(Single(skips), a, start, p).value.s.head.Some?
  {
  }

  lemma SendRoutes(skips: bool, a: Answers, start: Pub, p: Progress)
    requires Mid(p) && p.s.head.Some? && p.s.pr.Some? && p.s.issueLinked
    requires p.s.adjustment.Some?
    ensures Kept(start, SendAdjustment(Single(skips), a, start, p))
    ensures SendAdjustment(Single(skips), a, start, p).More? ==>
              var q := SendAdjustment(Single(skips), a, start, p).value;
              q.s.head.Some? && q.s.pr.Some? && q.s.issueLinked
  {
  }

  lemma FinishRoutes(skips: bool, a: Answers, start: Pub, p: Progress)
    requires Mid(p) && p.s.head.Some? && p.s.pr.Some? && p.s.issueLinked
    ensures Kept(start, FinishAdjustment(Single(skips), a, start, p))
    ensures FinishAdjustment(Single(skips), a, start, p).More? ==>
              var q := FinishAdjustment(Single(skips), a, start, p).value;
              q.s.head.Some? && q.s.pr.Some? && q.s.issueLinked && q.s.adjustment.None?
  {
  }

  lemma AdjustRoutes(skips: bool, a: Answers, start: Pub, p: Progress)
    requires Mid(p) && p.s.head.Some? && p.s.pr.Some? && p.s.issueLinked
    ensures Kept(start, Adjust(Single(skips), a, start, p))
    ensures Adjust(Single(skips), a, start, p).More? ==>
              var q := Adjust(Single(skips), a, start, p).value;
              q.s.head.Some? && q.s.pr.Some? && q.s.issueLinked && q.s.adjustment.None?
  {
    FinishRoutes(skips, a, start, p);
    if p.s.adjustment.Some? {
      SendRoutes(skips, a, start, p);
      var g := SendAdjustment(Single(skips), a, start, p);
      if g.More? {
        FinishRoutes(skips, a, start, g.value);
      }
    }
    hide SendAdjustment, FinishAdjustment;
  }

  /** Each outcome of Deliver leads to a turn that its state lets run. */
  lemma DeliverRoutes(skips: bool, a: Answers, start: Pub)
    requires Inv(Flow(start, AtDeliver))
    ensures Routed(start, Run(Single(skips), a, start))
  {
    hide Prepared, Opened, Adjust;
    PreparedRoutes(skips, a, start);
    var p := Prepared(Single(skips), a, start);
    if p.More? {
      OpenedRoutes(skips, a, start, p.value);
      var q := Opened(Single(skips), a, start, p.value);
      if q.More? {
        AdjustRoutes(skips, a, start, q.value);
      }
    }
  }

  /** Evidence that arrives while Deliver has something to do. */
  predicate Early(f: Flow, e: Event) {
    (e.Reported? || e.Noted?) && Open(f)
  }

  lemma ReportKeeps(f: Flow, e: Event, skips: bool)
    requires Inv(f) && e.Reported? && Enabled(f, e) && !Early(f, e)
    ensures Inv(Happen(skips, f, e))
  {
    hide Relevant, AtHead;
    AtHeadKeeps(f.s.(observationKey := Or(e.evidence.key, f.s.observationKey)), e.evidence.remoteHead);
  }

  lemma EventKeepsInv(skips: bool, f: Flow, e: Event)
    requires Inv(f) && Enabled(f, e) && !Early(f, e)
    ensures Inv(Happen(skips, f, e))
  {
    hide Run, Apply;
    match e
    case Delivered(a) => DeliverRoutes(skips, a, f.s);
    case Reported(_) => ReportKeeps(f, e, skips);
    case _ =>
  }

  /** Evidence only arrives while Deliver has nothing to do. */
  predicate Prompt(skips: bool, es: seq<Event>)
    requires Legal(skips, es)
  {
    es == [] || (Prompt(skips, es[..|es| - 1]) && !Early(After(skips, es[..|es| - 1]), es[|es| - 1]))
  }

  lemma {:induction false} InvHolds(skips: bool, es: seq<Event>)
    requires Legal(skips, es) && Prompt(skips, es)
    ensures Inv(After(skips, es))
  {
    hide Inv, Enabled, Happen;
    if es == [] {
      InitialInv();
    } else {
      InvHolds(skips, es[..|es| - 1]);
      EventKeepsInv(skips, After(skips, es[..|es| - 1]), es[|es| - 1]);
    }
  }

  lemma InitialInv()
    ensures Inv(Flow(Initial, AtDeliver))
  {
  }

  // ---------------------------------------------------------------- main results

  /**
   No deadlock, over every run whose evidence arrives while Deliver has nothing to do: the
   selected turn can run, or it is Deliver and takes evidence. Deliver then gets past every
   execution whose outside calls succeed, unless a stored conflict is irrelevant. A retry
   always selects a turn that can run, and automatic CI repairs never exceed three.
   */
  lemma NeverStuck(skips: bool, es: seq<Event>, a: Answers)
    requires Legal(skips, es) && Prompt(skips, es) && After(skips, es).at != Over && Cooperative(a)
    ensures var f := After(skips, es);
            && (Open(f) || (f.at == AtDeliver && Armed(f.s)))
            && (f.at == AtDeliver ==> (Run(Single(skips), a, f.s).outcome == Threw <==> Wedged(f.s)))
            && (f.at == AtOperator ==> Open(Happen(skips, f, Retried)))
            && f.s.ciCycles <= 3
  {
    hide Run, Apply, Wedged;
    InvHolds(skips, es);
    if After(skips, es).at == AtDeliver {
      CooperativeRunsEnd(Single(skips), a, After(skips, es).s);
    }
  }

  // ---------------------------------------------------------------- early evidence

  /** A repair turn is selected whose gate is closed. */
  predicate Blocked(f: Flow) {
    f.at in {AtFeedback, AtCi} && !Open(f)
  }

  /** The turn that a retry selects has nothing to work on. */
  predicate RetriesNothing(s: Pub) {
    if Choice(s) == AtFeedback then s.notes == [] && s.conflict.None? && !s.reconciliationRequired
    else !(s.reason == Some(Ci) && s.pipeline.Some?)
  }

  /** The evidence asks for a repair. */
  predicate AsksForRepair(s: Pub, fact: Fact) {
    (fact.Failure? && s.ciCycles < 3) || fact.Conflicting?
  }

  /**
   The steps that select a closed turn: a retry with nothing to repair, or a repair for a
   request that has already ended.
   */
  predicate Closes(f: Flow, e: Event) {
    var ended := f.s.stopped || f.s.terminal.Some?;
    match e
    case Retried => ended || RetriesNothing(f.s)
    case Reported(ev) => ended && AsksForRepair(f.s, ev.fact)
    case Delivered(_) =>
      && !f.s.stopped && f.s.terminal.Some? && f.s.pending.Some? && AsksForRepair(f.s, f.s.pending.value.fact)
      && !Wedged(f.s)
    case _ => false
  }

  lemma DeliveredBlocks(skips: bool, f: Flow, a: Answers)
    requires Enabled(f, Delivered(a))
    ensures Blocked(Happen(skips, f, Delivered(a))) <==> Closes(f, Delivered(a))
  {
    if f.s.terminal.None? {
      OutcomesOpenTheirGates(Single(skips), a, f.s);
    } else {
      EndedRequestRuns(skips, a, f.s);
    }
    hide Run, Wedged;
  }

  /** What stored evidence makes of an execution on its own. */
  lemma StoredEvidenceStops(s: Pub)
    requires s.terminal.Some?
    ensures match TakeEvidence(s)
            case More(t) => t.terminal.Some?
            case Stop(end) => end.outcome in {FeedbackReady, ConflictReady, CiReady} ==> end.s.terminal.Some?
    ensures (TakeEvidence(s).Stop? && TakeEvidence(s).end.outcome in {FeedbackReady, ConflictReady, CiReady}) <==>
              !s.stopped && s.pending.Some? && AsksForRepair(s, s.pending.value.fact) && !Wedged(s)
  {
    hide Relevant, AtHead;
    if s.pending.Some? {
      EndsStay(s.(observationKey := Or(s.pending.value.key, s.observationKey)), s.pending.value.remoteHead);
    }
  }

  lemma EndsStay(s: Pub, head: Option<Sha>)
    ensures AtHead(s, head).terminal == s.terminal && AtHead(s, head).ciCycles == s.ciCycles
  {
  }

  /** An execution on an ended request asks for a repair exactly when stored evidence does. */
  lemma EndedRequestRuns(skips: bool, a: Answers, s: Pub)
    requires s.terminal.Some?
    ensures var end := Run(Single(skips), a, s);
            && (end.outcome in {FeedbackReady, ConflictReady, CiReady} <==>
                  !s.stopped && s.pending.Some? && AsksForRepair(s, s.pending.value.fact) && !Wedged(s))
            && (end.outcome in {FeedbackReady, ConflictReady, CiReady} ==> end.s.terminal.Some?)
  {
    StoredEvidenceStops(s);
    if TakeEvidence(s).Stop? {
      EvidenceSpendsNothing(Single(skips), a, s);
    }
    hide TakeEvidence, Wedged;
  }

  lemma ReportedBlocksIff(skips: bool, f: Flow, ev: Evidence)
    requires Enabled(f, Reported(ev))
    ensures Blocked(Happen(skips, f, Reported(ev))) <==> Closes(f, Reported(ev))
  {
    hide Relevant, AtHead;
    AtHeadKeeps(f.s.(observationKey := Or(ev.key, f.s.observationKey)), ev.remoteHead);
  }

  /** For every event in every state: it selects a closed repair turn exactly under these guards. */
  lemma BlocksIff(skips: bool, f: Flow, e: Event)
    requires Enabled(f, e)
    ensures Blocked(Happen(skips, f, e)) <==> Closes(f, e)
  {
    match e
    case Delivered(a) => DeliveredBlocks(skips, f, a);
    case Reported(ev) => ReportedBlocksIff(skips, f, ev);
    case _ => hide Run, Apply, Wedged;
  }

  lemma {:induction false} OrderHolds(skips: bool, es: seq<Event>)
    requires Legal(skips, es)
    ensures O.Orderly(After(skips, es).s)
  {
    if es != [] {
      var f, e := After(skips, es[..|es| - 1]), es[|es| - 1];
      OrderHolds(skips, es[..|es| - 1]);
      hide Run, Apply;
      match e
      case Delivered(a) => O.RunKeepsOrder(Single(skips), a, f.s);
      case Reported(ev) => O.ApplyKeeps(f.s, ev, f.s.ciCycles < 3);
      case _ =>
    }
  }

  /**
   Over every run, evidence arriving at any time: a process that is not over can run its
   turn, or is at Deliver and takes evidence, unless its last event was one that closes a
   repair turn. Then no event is possible any more.
   */
  lemma StuckIff(skips: bool, es: seq<Event>)
    requires Legal(skips, es)
    ensures var f := After(skips, es);
            && f.s.ciCycles <= 3
            && (Blocked(f) <==> es != [] && Closes(After(skips, es[..|es| - 1]), es[|es| - 1]))
            && (f.at == Over || Open(f) || (f.at == AtDeliver && Armed(f.s)) || Blocked(f))
            && (Blocked(f) ==> forall e :: !Enabled(f, e))
  {
    OrderHolds(skips, es);
    if es != [] {
      BlocksIff(skips, After(skips, es[..|es| - 1]), es[|es| - 1]);
    }
    hide Run, Apply, Closes, Happen;
  }

  // ---------------------------------------------------------------- irrelevant stored conflicts

  lemma WedgedThrows(cfg: Config, a: Answers, s: Pub)
    requires !s.stopped && Wedged(s)
    ensures Run(cfg, a, s) == End(Threw, s, [])
  {
    hide Relevant, AtHead;
  }

  lemma WedgedStep(skips: bool, f: Flow, e: Event)
    requires !f.s.stopped && f.at == AtDeliver && Wedged(f.s) && Enabled(f, e) && !e.Reported? && !e.Noted?
    ensures e.Delivered? && Happen(skips, f, e) == f
  {
    hide Run, Relevant, AtHead, Apply;
    if e.Delivered? {
      WedgedThrows(Single(skips), e.a, f.s);
    }
  }

  /**
   An observation is stored without being validated. Once the stored conflict is not about
   the current request and head, or was the last one handled, every continuation without
   further evidence consists of executions of Deliver that throw, and nothing changes.
   */
  lemma {:induction false} IrrelevantConflictBlocksDelivery(skips: bool, es: seq<Event>, more: seq<Event>)
    requires Legal(skips, es) && Legal(skips, es + more)
    requires After(skips, es).at == AtDeliver && Wedged(After(skips, es).s) && !After(skips, es).s.stopped
    requires forall i :: 0 <= i < |more| ==> !more[i].Reported? && !more[i].Noted?
    ensures After(skips, es + more) == After(skips, es)
    ensures forall i :: 0 <= i < |more| ==> more[i].Delivered?
    decreases |more|
  {
    hide Enabled, Happen, Wedged;
    if more == [] {
      assert es + more == es;
    } else {
      var front, e := more[..|more| - 1], more[|more| - 1];
      assert (es + more)[..|es + more| - 1] == es + front;
      IrrelevantConflictBlocksDelivery(skips, es, front);
      WedgedStep(skips, After(skips, es + front), e);
    }
  }

  /** A first publication at `sha`. */
  function FirstAnswers(sha: Sha, link: Link): Answers {
    Answers(true, Sync(false, false, None), Pushed(sha), link, false, Pushed(sha), Rebased(sha), sha, _ => false)
  }

  /** A published request that waits at `sha`, with nothing wrong. */
  predicate Live(s: Pub, sha: Sha) {
    && s.head == Some(sha) && s.pr.Some? && s.issueLinked && s.stage == Awaiting && s.ciCycles < 3
    && s.pending.None? && s.terminal.None? && !s.stopped && !s.noChanges && !s.reconciliationRequired
  }

  lemma FirstDelivery(skips: bool, sha: Sha, link: Link)
    ensures var f, e := Flow(Initial, AtDeliver), Delivered(FirstAnswers(sha, link));
            && Enabled(f, e)
            && var t := Happen(skips, f, e);
            && t.at == AtDeliver && Live(t.s, sha) && t.s.adjustment.None? && t.s.notes == [] && !Open(t)
  {
  }

  /** Such a state is reached from the start, by an observation about another head. */
  lemma IrrelevantConflictIsStored(skips: bool, sha: Sha, link: Link, c: Conflict) returns (es: seq<Event>)
    requires c.head != sha
    ensures Legal(skips, es) && Prompt(skips, es)
    ensures After(skips, es).at == AtDeliver && Wedged(After(skips, es).s) && !After(skips, es).s.stopped
  {
    es := [Delivered(FirstAnswers(sha, link))];
    FirstDelivery(skips, sha, link);
    StartIsPrompt(skips);
    assert [] + es == es;
    hide *;
    Extend(skips, [], Delivered(FirstAnswers(sha, link)));
    NotReportedIsPrompt(Flow(Initial, AtDeliver), Delivered(FirstAnswers(sha, link)));
    var observed := Noted(Evidence(Conflicting(c), None, None));
    NotingBlocks(skips, After(skips, es), sha, c);
    Extend(skips, es, observed);
    es := es + [observed];
  }

  lemma StartIsPrompt(skips: bool)
    ensures Legal(skips, []) && Prompt(skips, []) && After(skips, []) == Flow(Initial, AtDeliver)
  {
  }

  lemma NotReportedIsPrompt(f: Flow, e: Event)
    requires !e.Reported? && !e.Noted?
    ensures !Early(f, e)
  {
  }

  lemma NotingBlocks(skips: bool, f: Flow, sha: Sha, c: Conflict)
    requires f.at == AtDeliver && Live(f.s, sha) && c.head != sha && !Open(f)
    ensures var e := Noted(Evidence(Conflicting(c), None, None));
            && Enabled(f, e) && !Early(f, e)
            && var t := Happen(skips, f, e); t.at == AtDeliver && Wedged(t.s) && !t.s.stopped
  {
  }

  lemma Extend(skips: bool, es: seq<Event>, e: Event)
    requires Legal(skips, es) && Enabled(After(skips, es), e)
    ensures Legal(skips, es + [e]) && After(skips, es + [e]) == Happen(skips, After(skips, es), e)
    ensures Prompt(skips, es) && !Early(After(skips, es), e) ==> Prompt(skips, es + [e])
  {
    hide Enabled, Happen, Early;
    assert (es + [e])[..|es|] == es;
  }

  // ---------------------------------------------------------------- early evidence can close the retry

  /** A note is reported and acknowledged, and the feedback turn has finished. */
  lemma NoteIsRepaired(skips: bool, f: Flow, sha: Sha, link: Link, n: Note)
    requires f.at == AtDeliver && Live(f.s, sha) && f.s.adjustment.None? && f.s.notes == []
    ensures var report := Reported(Evidence(Batch([n], n.id), None, None));
            && Enabled(f, report)
            && var g := Happen(skips, f, report);
            && Enabled(g, Delivered(FirstAnswers(sha, link)))
            && var h := Happen(skips, g, Delivered(FirstAnswers(sha, link)));
            && Enabled(h, Adjusted(true, ""))
            && var t := Happen(skips, h, Adjusted(true, ""));
            && t.at == AtDeliver && Live(t.s, sha) && t.s.notes == [n] && t.s.adjustment.Some?
  {
  }

  /** A failed pipeline is reported before Deliver has run, and repaired. */
  lemma FailureOvertakes(skips: bool, f: Flow, sha: Sha, p: Pipeline)
    requires f.at == AtDeliver && Live(f.s, sha) && f.s.adjustment.Some?
    ensures var report := Reported(Evidence(Failure(p), None, None));
            && Enabled(f, report) && Early(f, report)
            && var g := Happen(skips, f, report);
            && Enabled(g, Adjusted(true, ""))
            && Happen(skips, g, Adjusted(true, "")) ==
                 Flow(f.s.(reason := Some(Ci), pipeline := Some(p), ciCycles := f.s.ciCycles + 1, repairPending := false,
                      adjustment := Some(Adjustment(Ci, true, ""))), AtDeliver)
  {
  }

  /** The repair moves the branch to `other`. */
  function MovingAnswers(sha: Sha, other: Sha, link: Link): Answers {
    Answers(true, Sync(false, false, Some(sha)), Pushed(other), link, false, Pushed(other), Rebased(other), other, _ => false)
  }

  lemma RepairIsPublished(skips: bool, s: Pub, sha: Sha, other: Sha, link: Link)
    requires s.head == Some(sha) && s.pr.Some? && s.issueLinked && s.pending.None? && s.terminal.None? && !s.stopped
    requires s.adjustment == Some(Adjustment(Ci, true, "")) && s.notes != [] && other != sha
    ensures var end := Run(Single(skips), MovingAnswers(sha, other, link), s);
            && end.outcome == FeedbackReady && end.s.reason == s.reason && end.s.pipeline.None? && end.s.notes == s.notes
            && !end.s.reconciliationRequired && end.s.terminal.None? && !end.s.stopped
  {
  }

  lemma GivingUpClosesTheRetry(skips: bool, s: Pub, sha: Sha, other: Sha, link: Link)
    requires s.head == Some(sha) && s.pr.Some? && s.issueLinked && s.pending.None? && s.terminal.None? && !s.stopped
    requires s.adjustment == Some(Adjustment(Ci, true, "")) && s.notes != [] && other != sha && s.reason == Some(Ci)
    ensures var f, e := Flow(s, AtDeliver), Delivered(MovingAnswers(sha, other, link));
            && Enabled(f, e)
            && var g := Happen(skips, f, e);
            && Enabled(g, GaveUp) && Enabled(Happen(skips, g, GaveUp), Retried)
            && var t := Happen(skips, Happen(skips, g, GaveUp), Retried);
            Blocked(t) && t.s.terminal.None? && !t.s.stopped
  {
    RepairIsPublished(skips, s, sha, other, link);
    hide Run;
  }

  /**
   From the start, with an open request throughout: a failed pipeline that is reported
   between a finished feedback repair and Deliver leaves a retry without anything to repair.
   */
  lemma EarlyEvidenceBlocksTheRetry(skips: bool, sha: Sha, other: Sha, link: Link, n: Note, p: Pipeline) returns (es: seq<Event>)
    requires other != sha
    ensures Legal(skips, es) && Blocked(After(skips, es))
    ensures After(skips, es).s.terminal.None? && !After(skips, es).s.stopped
  {
    var first := Delivered(FirstAnswers(sha, link));
    StartIsPrompt(skips);
    FirstDelivery(skips, sha, link);
    assert forall f: Flow :: Live(f.s, sha) ==>
        f.s.head == Some(sha) && f.s.pr.Some? && f.s.issueLinked && f.s.pending.None? && f.s.terminal.None? && !f.s.stopped;
    hide *;
    Extend(skips, [], first);
    es := [] + [first];
    var noted, failed := Reported(Evidence(Batch([n], n.id), None, None)), Reported(Evidence(Failure(p), None, None));
    var repaired, moved := Adjusted(true, ""), Delivered(MovingAnswers(sha, other, link));
    NoteIsRepaired(skips, After(skips, es), sha, link, n);
    ExtendBy(skips, es, noted, first, repaired);
    es := es + [noted] + [first] + [repaired];
    FailureOvertakes(skips, After(skips, es), sha, p);
    Extend(skips, es, failed);
    Extend(skips, es + [failed], repaired);
    es := es + [failed] + [repaired];
    GivingUpClosesTheRetry(skips, After(skips, es).s, sha, other, link);
    ExtendBy(skips, es, moved, GaveUp, Retried);
    es := es + [moved] + [GaveUp] + [Retried];
  }

  lemma ExtendBy(skips: bool, es: seq<Event>, a: Event, b: Event, c: Event)
    requires Legal(skips, es) && Enabled(After(skips, es), a)
    requires var f := Happen(skips, After(skips, es), a);
             Enabled(f, b) && Enabled(Happen(skips, f, b), c)
    ensures Legal(skips, es + [a] + [b] + [c])
    ensures After(skips, es + [a] + [b] + [c]) == Happen(skips, Happen(skips, Happen(skips, After(skips, es), a), b), c)
  {
    hide *;
    Extend(skips, es, a);
    Extend(skips, es + [a], b);
    Extend(skips, es + [a] + [b], c);
  }
}
