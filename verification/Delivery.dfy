/**
 Delivery of one repository: the publication state, the evidence that changes it, and one
 execution of the Deliver turn as a function of what the outside world answers.
 */
module Delivery {
  import opened Git

  type Sha = string

  // ---------------------------------------------------------------- publication state

  datatype Reason = Feedback | Ci | Rebase

  datatype Note = Note(id: nat, discussion: string)

  datatype PipelineStatus = Failed | Success | OtherStatus

  /** `project` is absent for a pipeline of the bound project itself. */
  datatype Pipeline = Pipeline(number: nat, project: Option<nat>, status: PipelineStatus)

  datatype Conflict = Conflict(pr: nat, head: Sha, base: Sha)

  datatype Request = Request(number: nat, url: string, merged: bool)

  datatype Link = Link(number: nat, url: string)

  datatype Adjustment = Adjustment(origin: Reason, publishRequired: bool, summary: string)

  datatype FeedbackResult = FeedbackResult(published: bool, summary: string)

  datatype Stage = NotStarted | BranchPublished | PullRequestReady | Awaiting

  datatype Fact =
    | Batch(notes: seq<Note>, cursor: nat)
    | Failure(pipeline: Pipeline)
    | Conflicting(conflict: Conflict)
    | Terminal(request: Request)
    | Cancelled
    | Observed

  datatype Evidence = Evidence(fact: Fact, key: Option<string>, remoteHead: Option<Sha>)

  datatype Pub = Pub(
    stopped: bool, noChanges: bool,
    lastConflict: Option<Conflict>, conflict: Option<Conflict>, reason: Option<Reason>, repairPending: bool,
    head: Option<Sha>, workBaseline: Option<Sha>, lastPublished: Option<Sha>,
    reconciliationRequired: bool, cycles: nat,
    pr: Option<Link>, cursor: nat, notes: seq<Note>, pipeline: Option<Pipeline>, ciCycles: nat,
    observationKey: Option<string>, pending: Option<Evidence>,
    stage: Stage, issueLinked: bool, adjustment: Option<Adjustment>, terminal: Option<Request>,
    result: Option<FeedbackResult>)

  const Initial := Pub(
    false, false, None, None, None, false, None, None, None, false, 0, None, 0, [], None, 0, None, None,
    NotStarted, false, None, None, None)

  predicate Finished(s: Pub) {
    s.stopped || s.noChanges || s.terminal.Some?
  }

  function Or<T>(a: Option<T>, b: Option<T>): Option<T> {
    if a.Some? then a else b
  }

  // ---------------------------------------------------------------- evidence

  /** A newly seen source head keeps the old one as baseline of the unpublished work. */
  function AtHead(s: Pub, remoteHead: Option<Sha>): Pub {
    if remoteHead.Some? && remoteHead != s.head then
      s.(workBaseline := Or(s.workBaseline, s.head), lastPublished := Or(s.lastPublished, s.head),
      head := remoteHead, pipeline := None)
    else s
  }

  /** `validateConflict`: about this request at this head, and not the conflict handled last. */
  predicate Relevant(s: Pub, c: Conflict) {
    s.head == Some(c.head) && s.pr.Some? && s.pr.value.number == c.pr && s.lastConflict != Some(c)
  }

  /** `applyPublicationEvidence`: None where it throws. */
  function Apply(s: Pub, e: Evidence, countFailure: bool): Option<Pub> {
    var s := AtHead(s.(observationKey := Or(e.key, s.observationKey)), e.remoteHead);
    match e.fact
    case Batch(notes, cursor) => Some(s.(notes := notes, cursor := cursor, reason := Some(Feedback)))
    case Failure(pipeline) =>
      Some(s.(reason := Some(Ci), pipeline := Some(pipeline), ciCycles := s.ciCycles + if countFailure then 1 else 0))
    case Conflicting(c) =>
      if Relevant(s, c) then Some(s.(conflict := Some(c), lastConflict := Some(c), reason := Some(Rebase))) else None
    case Terminal(request) => Some(s.(terminal := Some(request)))
    case Cancelled => Some(s)
    case Observed => Some(s)
  }

  // ---------------------------------------------------------------- one execution

  /** `skips`: the adapter reconciles an outcome without changes. */
  datatype Config = Config(maintenance: bool, coordinated: bool, skips: bool)

  /** Everything the turn does outside its own state. */
  datatype Call =
    | ReconcileTerminal(request: Request)
    | Unchanged
    | Reconcile(baseline: Option<Sha>)
    | CheckOwnership
    | Publish(lease: Option<Sha>)
    | Record(published: Sha)
    | EnsureRequest
    | LinkIssue
    | PublishRebase(conflict: Conflict)
    | RetainRebase
    | ReadHead
    | AfterRebase
    | Reply(notes: seq<Note>)
    | Acknowledge(notes: seq<Note>)

  datatype Sync = Sync(changed: bool, conflicts: bool, remoteHead: Option<Sha>)

  /** `Moved`: the remote branch is not what the lease says. */
  datatype Push = Pushed(sha: Sha) | Moved

  datatype RebasePush = Rebased(sha: Sha) | SourceMoved(published: bool) | RemoteMoved

  /** What the world answers; `fails(i)` makes call number `i` throw. */
  datatype Answers = Answers(
    changes: bool, sync: Sync, first: Push, request: Link, prepared: bool, second: Push, rebase: RebasePush,
    prHead: Sha, fails: nat -> bool)

  datatype Outcome =
    | Waiting | FeedbackReady | Completed | Aborted | CiReady | ConflictReady | OperatorAction
    | Threw

  datatype End = End(outcome: Outcome, s: Pub, calls: seq<Call>)

  datatype Step<T> = More(value: T) | Stop(end: End) {
    predicate IsFailure() {
      Stop?
    }

    function PropagateFailure<U>(): Step<U>
      requires Stop?
    {
      Stop(end)
    }

    function Extract(): T
      requires More?
    {
      value
    }
  }

  /** `lease` is the remote head the next push is conditional on. */
  datatype Progress = Progress(s: Pub, calls: seq<Call>, lease: Option<Sha>)

  /** An exception discards the state of the whole execution. */
  function Ask(a: Answers, start: Pub, p: Progress, c: Call): Step<Progress> {
    var p := p.(calls := p.calls + [c]);
    if a.fails(|p.calls| - 1) then Stop(End(Threw, start, p.calls)) else More(p)
  }

  function Again(p: Progress): End {
    var cycles := p.s.cycles + 1;
    var s := p.s.(
      reconciliationRequired := true, cycles := cycles, repairPending := true, conflict := None, lastConflict := None,
      pipeline := None, adjustment := None, result := None);
    End(if cycles > 3 then OperatorAction else ConflictReady, s, p.calls)
  }

  /** `acknowledgePublication` */
  function Acknowledged(p: Progress, sha: Sha, changed: bool): Progress {
    p.(s := p.s.(
      head := Some(sha), workBaseline := Some(sha), lastPublished := if changed then Some(sha) else p.s.lastPublished,
      reconciliationRequired := false, cycles := 0, pipeline := if changed then None else p.s.pipeline),
    calls := p.calls + [Record(sha)])
  }

  function TakeEvidence(start: Pub): Step<Pub> {
    if start.stopped then Stop(End(Aborted, start, []))
    else if start.pending.None? then More(start)
    else
      var e := start.pending.value;
      var needsOperator := e.fact.Failure? && start.ciCycles >= 3;
      match Apply(start, e, !needsOperator)
      case None => Stop(End(Threw, start, []))
      case Some(applied) =>
        var s := applied.(pending := None);
        match e.fact
        case Cancelled => Stop(End(Aborted, s, []))
        case Failure(_) => Stop(End(if needsOperator then OperatorAction else CiReady, s, []))
        case Conflicting(_) => Stop(End(ConflictReady, s, []))
        case _ => More(s)
  }

  function Conclude(a: Answers, start: Pub, s: Pub): Step<Progress> {
    var p := Progress(s, [], s.head);
    if s.terminal.None? then More(p)
    else
      var p :- Ask(a, start, p, ReconcileTerminal(s.terminal.value));
      Stop(End(if s.terminal.value.merged then Completed else Aborted, p.s, p.calls))
  }

  function SkipUnchanged(cfg: Config, a: Answers, start: Pub, p: Progress): Step<Progress> {
    if p.s.head.Some? || !(cfg.coordinated || cfg.skips) || a.changes then More(p)
    else
      var p := p.(s := p.s.(noChanges := true));
      if !cfg.skips then Stop(End(Completed, p.s, p.calls))
      else
        var p :- Ask(a, start, p, Unchanged);
        Stop(End(Completed, p.s, p.calls))
  }

  predicate NeedsSync(s: Pub) {
    (s.head.None? || s.adjustment.Some?) && !(s.adjustment.Some? && s.adjustment.value.origin == Rebase)
  }

  /** The fetched head is the lease of every push that follows. */
  function Synchronize(a: Answers, start: Pub, p: Progress): Step<Progress> {
    if !NeedsSync(p.s) then More(p)
    else
      var p :- Ask(a, start, p, Reconcile(Or(p.s.workBaseline, p.s.head)));
      if a.sync.changed || a.sync.conflicts then Stop(Again(p))
      else
        var head := a.sync.remoteHead;
        var s := if p.s.head.Some? && head.Some? && head != p.s.head then p.s.(head := head, workBaseline := head) else p.s;
        More(p.(s := s, lease := head))
  }

  function Guarded(cfg: Config, a: Answers, start: Pub, p: Progress): Step<Progress> {
    if cfg.maintenance then Ask(a, start, p, CheckOwnership) else More(p)
  }

  function PublishBranch(cfg: Config, a: Answers, start: Pub, p: Progress): Step<Progress> {
    if p.s.head.Some? then More(p)
    else
      var p :- Guarded(cfg, a, start, p);
      var p :- Ask(a, start, p, Publish(p.lease));
      match a.first
      case Moved => Stop(Again(p))
      case Pushed(sha) => More(Acknowledged(p, sha, true))
  }

  function OpenRequest(a: Answers, start: Pub, p: Progress): Step<Progress> {
    if p.s.pr.Some? then More(p)
    else
      var p :- Ask(a, start, p, EnsureRequest);
      More(p.(s := p.s.(pr := Some(a.request))))
  }

  function RelateIssue(a: Answers, start: Pub, p: Progress): Step<Progress> {
    if p.s.issueLinked then More(p)
    else
      var p :- Ask(a, start, p, LinkIssue);
      More(p.(s := p.s.(issueLinked := true)))
  }

  /** A prepared target rebase is published under its own lease. */
  function PublishTargetRebase(a: Answers, start: Pub, p: Progress): Step<Progress>
    requires p.s.conflict.Some?
  {
    var p :- Ask(a, start, p, PublishRebase(p.s.conflict.value));
    match a.rebase
    case RemoteMoved => Stop(Again(p))
    case SourceMoved(true) => Stop(Again(p))
    case SourceMoved(false) =>
      var p :- Ask(a, start, p, RetainRebase);
      Stop(Again(p))
    case Rebased(sha) =>
      var p :- Ask(a, start, p, ReadHead);
      if a.prHead != sha then Stop(End(Threw, start, p.calls))
      else More(Acknowledged(p, sha, Some(sha) != p.lease))
  }

  function PublishAdjustment(cfg: Config, a: Answers, start: Pub, p: Progress): Step<Progress> {
    var p :- Guarded(cfg, a, start, p);
    var p :- Ask(a, start, p, Publish(p.s.head));
    match a.second
    case Moved => Stop(Again(p))
    case Pushed(sha) => More(Acknowledged(p, sha, Some(sha) != p.lease))
  }

  function Adjust(cfg: Config, a: Answers, start: Pub, p: Progress): Step<Progress> {
    if p.s.adjustment.None? then More(p)
    else
      var adj := p.s.adjustment.value;
      if adj.origin == Rebase && p.s.conflict.None? then Stop(End(Threw, start, p.calls))
      else if adj.origin == Rebase && !a.prepared then Stop(Again(p))
      else
        var p :- if adj.publishRequired || adj.origin == Rebase || cfg.maintenance then SendAdjustment(cfg, a, start, p) else More(p);
        FinishAdjustment(cfg, a, start, p)
  }

  function SendAdjustment(cfg: Config, a: Answers, start: Pub, p: Progress): Step<Progress>
    requires p.s.adjustment.Some? && (p.s.adjustment.value.origin == Rebase ==> p.s.conflict.Some?)
  {
    var p :- Guarded(cfg, a, start, p);
    if p.s.adjustment.value.origin == Rebase then PublishTargetRebase(a, start, p)
    else PublishAdjustment(cfg, a, start, p)
  }

  /** `sent` is whether the adjustment moved the branch. */
  function FinishAdjustment(cfg: Config, a: Answers, start: Pub, p: Progress): Step<Progress> {
    if p.s.adjustment.None? then More(p)
    else
      var adj := p.s.adjustment.value;
      var sent := (adj.publishRequired || adj.origin == Rebase || cfg.maintenance) && p.s.head != p.lease;
      match adj.origin
      case Rebase =>
        var p :- Ask(a, start, p, AfterRebase);
        More(p.(s := p.s.(adjustment := None, conflict := None)))
      case Ci => More(p.(s := p.s.(adjustment := None)))
      case Feedback =>
        if cfg.maintenance then
          var summary := if sent then "Review adjustment published" else adj.summary;
          More(p.(s := p.s.(adjustment := None, result := Some(FeedbackResult(sent, summary)))))
        else
          var p :- Ask(a, start, p, Reply(p.s.notes));
          More(p.(s := p.s.(adjustment := None, notes := [])))
  }

  function Settle(cfg: Config, a: Answers, start: Pub, p: Progress): Step<Progress> {
    if p.s.notes != [] && !cfg.maintenance then
      var p :- Ask(a, start, p, Acknowledge(p.s.notes));
      Stop(End(FeedbackReady, p.s, p.calls))
    else Stop(End(Waiting, p.s.(stage := Awaiting), p.calls))
  }

  function Prepared(cfg: Config, a: Answers, start: Pub): Step<Progress> {
    var s :- TakeEvidence(start);
    var p :- Conclude(a, start, s);
    var p :- SkipUnchanged(cfg, a, start, p);
    Synchronize(a, start, p)
  }

  function Opened(cfg: Config, a: Answers, start: Pub, p: Progress): Step<Progress> {
    var p :- PublishBranch(cfg, a, start, p);
    var p :- OpenRequest(a, start, p);
    RelateIssue(a, start, p)
  }

  function Deliver(cfg: Config, a: Answers, start: Pub): Step<Progress> {
    var p :- Prepared(cfg, a, start);
    var p :- Opened(cfg, a, start, p);
    var p :- Adjust(cfg, a, start, p);
    Settle(cfg, a, start, p)
  }

  /** `runRepository` */
  function Run(cfg: Config, a: Answers, start: Pub): End {
    match Deliver(cfg, a, start)
    case Stop(end) => end
    case More(p) => End(Waiting, p.s, p.calls)
  }

  // ---------------------------------------------------------------- gates

  predicate DeliverGate(cfg: Config, s: Pub) {
    if cfg.maintenance then
      !s.stopped && !s.noChanges && s.terminal.None? && (s.stage != Awaiting || s.adjustment.Some?)
    else
      s.stage != Awaiting || s.pending.Some? || s.adjustment.Some? || s.notes != [] || s.terminal.Some?
  }

  predicate FeedbackGate(s: Pub) {
    !s.stopped && s.terminal.None? && (s.notes != [] || s.conflict.Some? || s.reconciliationRequired)
  }

  predicate CiGate(s: Pub) {
    !s.stopped && s.terminal.None? && s.reason == Some(Ci) && s.pipeline.Some?
  }
}
