/**
 The publication policy of server maintenance: what a poll decides from the publication
 state and one look at the merge request.
 */
module Policy {
  import opened Git
  import opened Delivery

  datatype RequestState = Opened | RequestMerged | RequestClosed

  /**
   One look at the merge request. `diverged` is the target head when the request conflicts
   with it and does not contain it; `current` whether the pipeline ran for the source head;
   `feedback` the settled notes past the cursor.
   */
  datatype Sight = Sight(
    request: RequestState, iid: nat, url: string, head: Sha, diverged: Option<Sha>,
    pipeline: Option<Pipeline>, current: bool, feedback: seq<Note>, key: string)

  datatype Edge = ToFeedback | ToConflict | ToCi | ToOperator

  datatype Decision = Decision(s: Pub, edge: Option<Edge>)

  function MaxId(cursor: nat, notes: seq<Note>): (m: nat)
    ensures m >= cursor && forall i :: 0 <= i < |notes| ==> m >= notes[i].id
    ensures m == cursor || exists i :: 0 <= i < |notes| && m == notes[i].id
  {
    if notes == [] then cursor
    else
      var rest := MaxId(cursor, notes[1..]);
      if notes[0].id > rest then notes[0].id else rest
  }

  /** The conflict to report: about the stored head, and not the one handled last. */
  function Divergence(s: Pub, o: Sight): Option<Conflict> {
    if s.head == Some(o.head) && o.diverged.Some? && s.pr.Some? && s.lastConflict != Some(Conflict(s.pr.value.number, o.head, o.diverged.value))
    then Some(Conflict(s.pr.value.number, o.head, o.diverged.value))
    else None
  }

  /** `gitlabPublicationEvidenceForRequest`: terminal, conflict, feedback, failure, in this order; None where it throws. */
  function EvidenceFor(s: Pub, o: Sight): Option<Evidence> {
    if s.pr.None? || s.head.None? || s.pr.value.number != o.iid then None
    else if o.request != Opened then
      Some(Evidence(Terminal(Request(o.iid, o.url, o.request == RequestMerged)), Some(o.key), Some(o.head)))
    else if Divergence(s, o).Some? then Some(Evidence(Conflicting(Divergence(s, o).value), Some(o.key), Some(o.head)))
    else if o.feedback != [] then Some(Evidence(Batch(o.feedback, MaxId(s.cursor, o.feedback)), None, Some(o.head)))
    else if o.pipeline.Some? && o.pipeline.value.status == Failed && o.current then
      Some(Evidence(Failure(o.pipeline.value), Some(o.key), Some(o.head)))
    else Some(Evidence(Observed, Some(o.key), Some(o.head)))
  }

  /** A source head that moved while nothing runs: the result verified against the old tree is dropped. */
  function HeadMoved(s: Pub, executing: bool, head: Sha): Pub {
    if !executing && s.adjustment.None? && Some(head) != s.head then
      s.(workBaseline := Or(s.workBaseline, s.head), lastPublished := Or(s.lastPublished, s.head), head := Some(head),
      pipeline := None, conflict := None, lastConflict := None, result := None)
    else s
  }

  /** Work that was dispatched before and has to be taken up again. */
  function Retained(s: Pub): Option<Edge> {
    if s.notes != [] then Some(ToFeedback)
    else if s.conflict.Some? && s.reason == Some(Rebase) then Some(ToConflict)
    else if s.repairPending && s.reason == Some(Ci) && s.pipeline.Some? then Some(ToCi)
    else None
  }

  /** The failed pipeline that is already stored. */
  predicate Known(s: Pub, p: Pipeline, project: nat) {
    && s.pipeline.Some? && s.pipeline.value.status == Failed && s.pipeline.value.number == p.number
    && ProjectOf(s.pipeline.value, project) == ProjectOf(p, project)
  }

  function ProjectOf(p: Pipeline, project: nat): nat {
    if p.project.Some? then p.project.value else project
  }

  /** Hand evidence to a turn without consuming feedback; None where the evidence is refused. */
  function Dispatch(s: Pub, e: Evidence, edge: Edge, operator: bool): Option<Decision> {
    match Apply(s, e, !operator)
    case None => None
    case Some(t) =>
      Some(Decision(t.(repairPending := !operator, cursor := if e.fact.Batch? then s.cursor else t.cursor), Some(edge)))
  }

  /** `observe`: None where it throws. */
  function Decide(start: Pub, atDeliver: bool, executing: bool, project: nat, o: Sight): Option<Decision> {
    if Finished(start) then Some(Decision(start, None)) else
    var s := HeadMoved(start, executing, o.head);
    if atDeliver && !executing && s.adjustment.None? && s.result.None? && Retained(s).Some? then Some(Decision(s, Retained(s)))
    else if s.pending.Some? then Route(s, s.(pending := None), s.pending.value, project, o)
    else if s.adjustment.Some? || s.result.Some? || s.notes != [] || s.head.None? || s.pr.None? then Some(Decision(s, None))
    else match EvidenceFor(s, o)
      case None => None
      case Some(e) => Route(s, s, e, project, o)
  }

  function Route(whole: Pub, s: Pub, e: Evidence, project: nat, o: Sight): Option<Decision> {
    match e.fact
    case Terminal(request) => Some(Decision(whole.(terminal := Some(request)), None))
    case Batch(_, _) => Dispatch(s, e, ToFeedback, false)
    case Conflicting(_) => Dispatch(s, e, ToConflict, false)
    case Failure(p) =>
      if Known(s, p, project) then Some(Decision(Noted(s, o), None))
      else if s.ciCycles >= 3 then Dispatch(s, e, ToOperator, true)
      else Dispatch(s, e, ToCi, false)
    case _ => Some(Decision(Noted(s, o), None))
  }

  /** Nothing to do: remember the pipeline, and a success gives the whole CI budget back. */
  function Noted(s: Pub, o: Sight): Pub {
    s.(observationKey := Some(o.key), pipeline := o.pipeline,
    ciCycles := if o.pipeline.Some? && o.pipeline.value.status == Success then 0 else s.ciCycles)
  }

  // ---------------------------------------------------------------- replies

  /** A durable comment; its write key names the note, the head and the kind of result. */
  datatype Comment = Comment(discussion: string, note: nat, head: Option<Sha>, published: bool)

  function LastOf(notes: seq<Note>, discussion: string): nat {
    if notes == [] then 0
    else if notes[|notes| - 1].discussion == discussion then notes[|notes| - 1].id
    else LastOf(notes[..|notes| - 1], discussion)
  }

  /** `messages`: one per discussion of the batch, named after its last note. */
  function Messages(s: Pub): set<Comment> {
    if s.result.None? then {}
    else set n | n in s.notes :: Comment(n.discussion, LastOf(s.notes, n.discussion), s.head, s.result.value.published)
  }

  /** `settled`: the acknowledged batch is consumed. */
  function Settled(s: Pub): Pub {
    if s.result.None? then s
    else s.(cursor := MaxId(s.cursor, s.notes), notes := [], stage := Awaiting, adjustment := None, result := None)
  }

  function Stopped(s: Pub, iid: nat, url: string): Pub {
    s.(stopped := true, pr := if s.pr.Some? then s.pr else Some(Link(iid, url)), repairPending := false, notes := [],
    pending := None, adjustment := None, result := None)
  }

  function Ended(s: Pub, o: Sight): Pub {
    s.(repairPending := false, pending := None, terminal := Some(Request(o.iid, o.url, o.request == RequestMerged)))
  }

  /** `pendingGitLabFeedback` */
  function Unseen(notes: seq<Note>, cursor: nat): seq<Note> {
    if notes == [] then []
    else if notes[0].id > cursor then [notes[0]] + Unseen(notes[1..], cursor)
    else Unseen(notes[1..], cursor)
  }

  lemma {:induction false} UnseenIs(notes: seq<Note>, cursor: nat, n: Note)
    ensures n in Unseen(notes, cursor) <==> n in notes && n.id > cursor
  {
    if notes != [] {
      UnseenIs(notes[1..], cursor, n);
    }
  }

  // ---------------------------------------------------------------- properties of one decision

  /** Where the evidence takes the head, the pipeline and the counters. */
  lemma ApplyCounts(s: Pub, e: Evidence, count: bool)
    ensures var t := Apply(s, e, count);
            t.Some? ==>
              && t.value.ciCycles == s.ciCycles + (if e.fact.Failure? && count then 1 else 0)
              && (e.fact.Failure? ==> t.value.pipeline == Some(e.fact.pipeline))
              && (e.remoteHead.Some? ==> t.value.head == e.remoteHead)
  {
    hide Relevant, AtHead;
    AtHeadKeepsFeedback(s.(observationKey := Or(e.key, s.observationKey)), e.remoteHead);
  }

  lemma ApplyKeepsFeedback(s: Pub, e: Evidence, count: bool)
    ensures var t := Apply(s, e, count);
            t.Some? ==>
              && t.value.pending == s.pending
              && (!e.fact.Batch? ==> t.value.cursor == s.cursor && t.value.notes == s.notes)
              && (e.fact.Batch? ==> t.value.notes == e.fact.notes)
  {
    hide Relevant, AtHead;
    AtHeadKeepsFeedback(s.(observationKey := Or(e.key, s.observationKey)), e.remoteHead);
    match e.fact
    case Batch(_, _) =>
    case Failure(_) =>
    case Conflicting(_) =>
    case _ =>
  }

  lemma AtHeadKeepsFeedback(s: Pub, head: Option<Sha>)
    ensures var t := AtHead(s, head);
            && t.cursor == s.cursor && t.notes == s.notes && t.ciCycles == s.ciCycles && t.pending == s.pending
            && (head.Some? ==> t.head == head)
  {
  }

  lemma DispatchKeeps(s: Pub, e: Evidence, edge: Edge, operator: bool)
    ensures var d := Dispatch(s, e, edge, operator);
            d.Some? ==>
              && d.value.edge == Some(edge) && d.value.s.cursor == s.cursor && d.value.s.pending == s.pending
              && d.value.s.notes == (if e.fact.Batch? then e.fact.notes else s.notes)
              && d.value.s.ciCycles == s.ciCycles + (if e.fact.Failure? && !operator then 1 else 0)
              && (e.fact.Failure? ==> d.value.s.pipeline == Some(e.fact.pipeline))
              && (e.remoteHead.Some? ==> d.value.s.head == e.remoteHead)
  {
    ApplyKeepsFeedback(s, e, !operator);
    ApplyCounts(s, e, !operator);
    hide Apply;
  }

  predicate Careful(s: Pub, feedback: seq<Note>, d: Option<Decision>) {
    d.Some? ==>
      && d.value.s.cursor == s.cursor && d.value.s.pending.None?
      && (d.value.s.notes == s.notes || (d.value.s.notes == feedback && d.value.edge == Some(ToFeedback)))
      && (s.ciCycles <= 3 ==> d.value.s.ciCycles <= 3)
  }

  lemma RouteKeeps(s: Pub, e: Evidence, project: nat, o: Sight)
    requires s.pending.None? && (e.fact.Batch? ==> e.fact.notes == o.feedback)
    ensures Careful(s, o.feedback, Route(s, s, e, project, o))
  {
    hide Dispatch, Known;
    DispatchKeeps(s, e, ToFeedback, false);
    DispatchKeeps(s, e, ToConflict, false);
    DispatchKeeps(s, e, ToOperator, true);
    DispatchKeeps(s, e, ToCi, false);
  }

  lemma EvidenceIsTheFeedback(s: Pub, o: Sight)
    ensures EvidenceFor(s, o).Some? ==>
              var e := EvidenceFor(s, o).value;
              && e.remoteHead == Some(o.head)
              && (e.fact.Batch? ==> e.fact.notes == o.feedback)
              && (e.fact.Failure? ==> o.pipeline == Some(e.fact.pipeline) && e.fact.pipeline.status == Failed)
  {
    hide Divergence;
  }

  /** No decision moves the cursor, or replaces a batch that is not settled; only settling does. */
  lemma DecisionsKeepCursor(start: Pub, atDeliver: bool, executing: bool, project: nat, o: Sight)
    requires start.pending.None?
    ensures Careful(start, o.feedback, Decide(start, atDeliver, executing, project, o))
    ensures start.notes != [] && Decide(start, atDeliver, executing, project, o).Some? ==>
              Decide(start, atDeliver, executing, project, o).value.s.notes == start.notes
  {
    hide Route, EvidenceFor, Retained;
    var s := HeadMoved(start, executing, o.head);
    EvidenceIsTheFeedback(s, o);
    if EvidenceFor(s, o).Some? {
      RouteKeeps(s, EvidenceFor(s, o).value, project, o);
    }
  }

  /** A stored failed pipeline is never counted again. */
  lemma FailureIsCountedOnce(start: Pub, atDeliver: bool, executing: bool, project: nat, o: Sight)
    requires start.pending.None? && o.pipeline.Some? && Known(start, o.pipeline.value, project) && o.pipeline.value.status == Failed
    requires start.head == Some(o.head)
    ensures var d := Decide(start, atDeliver, executing, project, o);
            d.Some? ==> d.value.s.ciCycles == start.ciCycles && d.value.edge !in {Some(ToOperator)}
  {
    hide Dispatch, Divergence, Known;
    var s := start;
    if EvidenceFor(s, o).Some? {
      var e := EvidenceFor(s, o).value;
      DispatchKeeps(s, e, ToFeedback, false);
      DispatchKeeps(s, e, ToConflict, false);
    }
  }

  /** A counted failure is stored, so the next look knows it. */
  lemma CountedFailureIsStored(start: Pub, atDeliver: bool, executing: bool, project: nat, o: Sight)
    requires start.pending.None?
    ensures var d := Decide(start, atDeliver, executing, project, o);
            d.Some? && d.value.s.ciCycles > start.ciCycles ==>
              o.pipeline.Some? && Known(d.value.s, o.pipeline.value, project) && d.value.s.head == Some(o.head)
              && d.value.edge == Some(ToCi)
  {
    hide Route, EvidenceFor, Retained;
    var s := HeadMoved(start, executing, o.head);
    EvidenceIsTheFeedback(s, o);
    if EvidenceFor(s, o).Some? {
      RouteCounts(s, EvidenceFor(s, o).value, project, o);
    }
  }

  /**
   A decision counts a failure exactly when the evidence is a failed pipeline that is not
   stored for the observed head and fewer than three were counted.
   */
  lemma FailureCountsIff(start: Pub, atDeliver: bool, executing: bool, project: nat, o: Sight)
    requires start.pending.None?
    ensures var d, s := Decide(start, atDeliver, executing, project, o), HeadMoved(start, executing, o.head);
            (d.Some? && d.value.s.ciCycles > start.ciCycles) <==>
              && !Finished(start) && !(atDeliver && !executing && s.adjustment.None? && s.result.None? && Retained(s).Some?)
              && s.adjustment.None? && s.result.None? && s.notes == [] && s.head.Some? && s.pr.Some?
              && EvidenceFor(s, o).Some? && EvidenceFor(s, o).value.fact.Failure?
              && !Known(s, EvidenceFor(s, o).value.fact.pipeline, project) && s.ciCycles < 3
    ensures var d, s := Decide(start, atDeliver, executing, project, o), HeadMoved(start, executing, o.head);
            d.Some? && d.value.s.ciCycles > start.ciCycles ==>
              && o.pipeline.Some? && !Known(s, o.pipeline.value, project) && d.value.s.ciCycles == start.ciCycles + 1
              && (Known(start, o.pipeline.value, project) ==> start.head != Some(o.head))
  {
    hide Route, EvidenceFor, Retained;
    var s := HeadMoved(start, executing, o.head);
    EvidenceIsTheFeedback(s, o);
    if EvidenceFor(s, o).Some? {
      RouteCountsIff(s, EvidenceFor(s, o).value, project, o);
    }
  }

  lemma RouteCountsIff(s: Pub, e: Evidence, project: nat, o: Sight)
    requires e.remoteHead == Some(o.head)
    ensures var d := Route(s, s, e, project, o);
            && ((d.Some? && d.value.s.ciCycles > s.ciCycles) <==>
                  e.fact.Failure? && !Known(s, e.fact.pipeline, project) && s.ciCycles < 3)
            && (d.Some? ==> d.value.s.ciCycles <= s.ciCycles + 1)
  {
    hide Dispatch, Known;
    match e.fact
    case Batch(_, _) => DispatchKeeps(s, e, ToFeedback, false);
    case Conflicting(_) => DispatchKeeps(s, e, ToConflict, false);
    case Failure(_) =>
      DispatchKeeps(s, e, ToOperator, true);
      DispatchKeeps(s, e, ToCi, false);
      FailuresAreDispatched(s, e, ToCi, false);
    case _ =>
  }

  lemma FailuresAreDispatched(s: Pub, e: Evidence, edge: Edge, operator: bool)
    requires e.fact.Failure?
    ensures Dispatch(s, e, edge, operator).Some?
  {
  }

  lemma RouteCounts(s: Pub, e: Evidence, project: nat, o: Sight)
    requires e.remoteHead == Some(o.head)
    requires e.fact.Failure? ==> o.pipeline == Some(e.fact.pipeline) && e.fact.pipeline.status == Failed
    ensures var d := Route(s, s, e, project, o);
            d.Some? && d.value.s.ciCycles > s.ciCycles ==>
              o.pipeline.Some? && Known(d.value.s, o.pipeline.value, project) && d.value.s.head == Some(o.head)
              && d.value.edge == Some(ToCi)
  {
    hide Dispatch;
    DispatchKeeps(s, e, ToFeedback, false);
    DispatchKeeps(s, e, ToConflict, false);
    DispatchKeeps(s, e, ToOperator, true);
    DispatchKeeps(s, e, ToCi, false);
  }

  // ---------------------------------------------------------------- what every look leads to

  /** The request conflicts with a target it does not contain, at the stored head, and not as handled last. */
  predicate Conflicts(s: Pub, o: Sight)
    requires s.pr.Some?
  {
    && s.head == Some(o.head) && o.diverged.Some?
    && (s.lastConflict.Some? ==> s.lastConflict.value != Conflict(s.pr.value.number, o.head, o.diverged.value))
  }

  predicate FailsNow(o: Sight) {
    o.pipeline.Some? && o.pipeline.value.status == Failed && o.current
  }

  /** The failed pipeline is the one that is stored as failed, in the same project. */
  predicate StoredAlready(s: Pub, o: Sight, project: nat)
    requires o.pipeline.Some?
  {
    && s.pipeline.Some? && s.pipeline.value.status == Failed && s.pipeline.value.number == o.pipeline.value.number
    && (match s.pipeline.value.project case Some(n) => n case None => project)
       == (match o.pipeline.value.project case Some(n) => n case None => project)
  }

  /** Work that a process at Deliver has to take up before it looks at anything new, most urgent first. */
  function Waiting(s: Pub): Option<Edge> {
    if s.notes != [] then Some(ToFeedback)
    else if s.conflict.Some? && s.reason == Some(Rebase) then Some(ToConflict)
    else if s.pipeline.Some? && s.reason == Some(Ci) && s.repairPending then Some(ToCi)
    else None
  }

  predicate NewLook(s: Pub, o: Sight, project: nat, d: Decision)
    requires s.head.Some? && s.pr.Some?
  {
    if o.request != Opened then
      // the end of the request comes before everything else
      && d.edge.None? && d.s.terminal == Some(Request(o.iid, o.url, o.request == RequestMerged))
      && d.s == s.(terminal := d.s.terminal)
    else if Conflicts(s, o) then
      // then a conflict with the target
      && d.edge == Some(ToConflict) && d.s.conflict == Some(Conflict(s.pr.value.number, o.head, o.diverged.value))
      && d.s.lastConflict == d.s.conflict && d.s.reason == Some(Rebase) && d.s.repairPending
      && d.s.notes == s.notes && d.s.ciCycles == s.ciCycles
    else if o.feedback != [] then
      // then feedback, which waits for its replies
      && d.edge == Some(ToFeedback) && d.s.notes == o.feedback && d.s.reason == Some(Feedback) && d.s.repairPending
      && d.s.ciCycles == s.ciCycles
    else if FailsNow(o) && !StoredAlready(s, o, project) then
      // then a new failure, while the budget lasts
      && d.edge == Some(if s.ciCycles >= 3 then ToOperator else ToCi)
      && d.s.pipeline == o.pipeline && d.s.reason == Some(Ci) && d.s.repairPending == (s.ciCycles < 3)
      && d.s.ciCycles == s.ciCycles + if s.ciCycles >= 3 then 0 else 1
    else
      // otherwise the pipeline is remembered, and a success restores the budget
      && d.edge.None? && d.s.pipeline == o.pipeline
      && d.s.ciCycles == (if o.pipeline.Some? && o.pipeline.value.status == Success then 0 else s.ciCycles)
      && d.s == s.(observationKey := Some(o.key), pipeline := d.s.pipeline, ciCycles := d.s.ciCycles)
  }

  /** A head that moved while nothing runs drops everything that was about the old one. */
  predicate Rebased(start: Pub, executing: bool, head: Sha, s: Pub) {
    if executing || start.adjustment.Some? || start.head == Some(head) then s == start
    else
      && s.head == Some(head) && s.pipeline.None? && s.conflict.None? && s.lastConflict.None? && s.result.None?
      && s.workBaseline == (if start.workBaseline.Some? then start.workBaseline else start.head)
      && s == start.(head := s.head, pipeline := None, conflict := None, lastConflict := None, result := None,
                     workBaseline := s.workBaseline, lastPublished := s.lastPublished)
  }

  /**
   What a look decides, for every state without staged evidence. A finished process is left
   alone. A process at Deliver takes up waiting work first; one with a result, a batch or an
   adjustment is left to finish it. Otherwise the end of the request precedes a conflict,
   a conflict precedes feedback, and feedback precedes a failure that is not stored.
   */
  lemma DecisionIs(start: Pub, atDeliver: bool, executing: bool, project: nat, o: Sight) returns (s: Pub)
    requires start.pending.None? && !Finished(start)
    ensures Rebased(start, executing, o.head, s)
    ensures var d, free := Decide(start, atDeliver, executing, project, o), s.adjustment.None? && s.result.None?;
            if atDeliver && !executing && free && Waiting(s).Some? then d == Some(Decision(s, Waiting(s)))
            else if !free || s.notes != [] || s.head.None? || s.pr.None? then d == Some(Decision(s, None))
            else if s.pr.value.number != o.iid then d.None?
            else d.Some? && NewLook(s, o, project, d.value)
  {
    hide Route, EvidenceFor, NewLook, Rebased, Divergence;
    s := HeadMoved(start, executing, o.head);
    HeadMovedIs(start, executing, o.head);
    if s.head.Some? && s.pr.Some? {
      if s.pr.value.number == o.iid {
        LookIs(s, project, o);
      } else {
        ForeignRequestThrows(s, o);
      }
    }
  }

  lemma HeadMovedIs(start: Pub, executing: bool, head: Sha)
    ensures Rebased(start, executing, head, HeadMoved(start, executing, head))
    ensures HeadMoved(start, executing, head).pending == start.pending
    ensures Finished(HeadMoved(start, executing, head)) == Finished(start)
  {
  }

  lemma ForeignRequestThrows(s: Pub, o: Sight)
    requires s.pr.Some? && s.pr.value.number != o.iid
    ensures EvidenceFor(s, o).None?
  {
  }

  lemma EvidenceIs(s: Pub, o: Sight)
    requires s.head.Some? && s.pr.Some? && s.pr.value.number == o.iid
    ensures EvidenceFor(s, o).Some? && EvidenceFor(s, o).value.remoteHead == Some(o.head)
    ensures var fact := EvidenceFor(s, o).value.fact;
            if o.request != Opened then fact == Terminal(Request(o.iid, o.url, o.request == RequestMerged))
            else if Conflicts(s, o) then fact == Conflicting(Conflict(s.pr.value.number, o.head, o.diverged.value))
            else if o.feedback != [] then fact.Batch? && fact.notes == o.feedback
            else if FailsNow(o) then fact == Failure(o.pipeline.value)
            else fact == Observed
  {
  }

  /** Evidence that is dispatched leaves its repair to do. */
  lemma DispatchIs(s: Pub, e: Evidence, edge: Edge, operator: bool)
    requires e.fact.Batch? || e.fact.Failure? || e.fact.Conflicting?
    requires e.fact.Conflicting? ==> e.remoteHead == s.head && Relevant(s, e.fact.conflict)
    ensures var d := Dispatch(s, e, edge, operator);
            && d.Some? && d.value.edge == Some(edge) && d.value.s.repairPending == !operator
            && d.value.s.ciCycles == s.ciCycles + (if e.fact.Failure? && !operator then 1 else 0)
            && (e.fact.Batch? ==> d.value.s.notes == e.fact.notes && d.value.s.reason == Some(Feedback))
            && (e.fact.Failure? ==> d.value.s.pipeline == Some(e.fact.pipeline) && d.value.s.reason == Some(Ci))
            && (e.fact.Conflicting? ==> && d.value.s.conflict == Some(e.fact.conflict) && d.value.s.lastConflict == Some(e.fact.conflict)
                                        && d.value.s.reason == Some(Rebase) && d.value.s.notes == s.notes)
  {
  }

  lemma LookIs(s: Pub, project: nat, o: Sight)
    requires s.head.Some? && s.pr.Some? && s.pr.value.number == o.iid
    ensures EvidenceFor(s, o).Some?
    ensures var d := Route(s, s, EvidenceFor(s, o).value, project, o);
            d.Some? && NewLook(s, o, project, d.value)
  {
    hide EvidenceFor, Dispatch, Divergence;
    EvidenceIs(s, o);
    var e := EvidenceFor(s, o).value;
    match e.fact
    case Batch(_, _) => DispatchIs(s, e, ToFeedback, false);
    case Conflicting(_) => DispatchIs(s, e, ToConflict, false);
    case Failure(_) =>
      DispatchIs(s, e, ToOperator, true);
      DispatchIs(s, e, ToCi, false);
    case _ =>
  }

  /** `c` answers one discussion of the batch: named after its last note, for the head and the kind of result. */
  predicate Answers(c: Comment, s: Pub)
    requires s.result.Some?
  {
    && c.head == s.head && c.published == s.result.value.published
    && exists i :: 0 <= i < |s.notes| && s.notes[i] == Note(c.note, c.discussion)
                   && forall j :: i < j < |s.notes| ==> s.notes[j].discussion != c.discussion
  }

  lemma {:induction false} LastOfIs(notes: seq<Note>, discussion: string, i: nat)
    requires i < |notes| && notes[i].discussion == discussion && forall j :: i < j < |notes| ==> notes[j].discussion != discussion
    ensures LastOf(notes, discussion) == notes[i].id
  {
    if i < |notes| - 1 {
      LastOfIs(notes[..|notes| - 1], discussion, i);
    }
  }

  lemma {:induction false} HasLast(notes: seq<Note>, n: Note) returns (i: nat)
    requires n in notes
    ensures i < |notes| && notes[i].discussion == n.discussion && forall j :: i < j < |notes| ==> notes[j].discussion != n.discussion
  {
    i := |notes| - 1;
    if notes[i].discussion != n.discussion {
      i := HasLast(notes[..|notes| - 1], n);
    }
  }

  /** The replies are exactly one comment for each discussion of the finished batch. */
  lemma MessagesAre(s: Pub, c: Comment)
    ensures s.result.None? ==> c !in Messages(s)
    ensures s.result.Some? ==> (c in Messages(s) <==> Answers(c, s))
  {
    if s.result.Some? {
      if c in Messages(s) {
        var n :| n in s.notes && c == Comment(n.discussion, LastOf(s.notes, n.discussion), s.head, s.result.value.published);
        var i := HasLast(s.notes, n);
        LastOfIs(s.notes, n.discussion, i);
        assert s.notes[i] == Note(c.note, c.discussion);
      }
      if Answers(c, s) {
        var i :| 0 <= i < |s.notes| && s.notes[i] == Note(c.note, c.discussion)
                 && forall j :: i < j < |s.notes| ==> s.notes[j].discussion != c.discussion;
        LastOfIs(s.notes, c.discussion, i);
        assert s.notes[i] in s.notes;
      }
    }
  }
}
