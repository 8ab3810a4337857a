/**
 Feedback under server maintenance, over whole runs: commenters post notes, the poller looks,
 dispatches, answers and settles, workers deliver, and operators decide.
 */
module FeedbackRuns {
  import opened Git
  import opened Delivery
  import DR = DeliveryRuns
  import F = DeliveryFlow
  import opened Policy

  /** What a compare-and-set compares; `waiting` is the lifecycle status, `executing` a current execution. */
  datatype Work = Work(s: Pub, at: F.Position, executing: bool, waiting: bool)

  /** How far the poll of the binding is. */
  datatype Desk =
    | Resting
    | Decided(work: Work, sight: Sight, decision: Decision)
    | Routed
    | Answering(work: Work)

  datatype World = World(
    s: Pub, at: F.Position, executing: bool, waiting: bool, notes: seq<Note>, replies: set<Comment>, desk: Desk,
    batches: seq<seq<Note>>)
  {
    function Now(): Work {
      Work(s, at, executing, waiting)
    }
  }

  datatype Action =
    | Post(note: Note)
    // an eligible poll: `seen` is how much of the discussion it read, None while the quiet period lasts
    | Look(sight: Sight, seen: Option<nat>)
    | Fire
    | Refuse
    | Begin
    | Answer(comment: Comment)
    | Settle
    | Drop
    // a poll of a binding that is not eligible
    | Skim(sight: Sight)
    | Stop(iid: nat, url: string)
    | End(sight: Sight)
    // the engine, worker executions and operator decisions
    | Park
    | Unpark
    | Start
    | Fail
    | Delivered(a: Answers)
    | Repaired(changes: bool, summary: string)
    | GaveUp
    | Retried
    | Resumed
    // other repositories of a coordinated process
    | Elsewhere(at: F.Position, executing: bool, waiting: bool)
    | Sees(request: Request)

  datatype Setting = Setting(coordinated: bool, skips: bool, project: nat) {
    function Cfg(): Config {
      Config(true, coordinated, skips)
    }
  }

  predicate GateIsOpen(st: Setting, w: World) {
    match w.at
    case AtDeliver => DeliverGate(st.Cfg(), w.s)
    case AtFeedback => FeedbackGate(w.s)
    case AtCi => CiGate(w.s)
    case _ => false
  }

  predicate Enabled(st: Setting, w: World, a: Action) {
    match a
    case Post(n) => n.id > 0 && forall i :: 0 <= i < |w.notes| ==> w.notes[i].id < n.id
    case Look(_, seen) => w.desk.Resting? && (seen.Some? ==> seen.value <= |w.notes|)
    case Fire => w.desk.Decided?
    case Refuse => Fires(w)
    case Begin => w.desk.Routed?
    case Answer(c) => w.desk.Answering? && c in Messages(w.desk.work.s)
    case Settle => w.desk.Answering? && Messages(w.desk.work.s) <= w.replies
    case Drop => true
    case Skim(_) => w.desk.Resting?
    case Stop(_, _) => true
    case End(_) => true
    case Park => w.waiting
    case Unpark => !w.executing && !w.waiting
    case Start => w.waiting && (st.coordinated || GateIsOpen(st, w))
    case Fail => w.executing
    case Delivered(_) => w.executing && w.at == F.AtDeliver
    case Repaired(_, _) => w.executing && w.at in {F.AtFeedback, F.AtCi}
    case GaveUp => w.executing && w.at in {F.AtFeedback, F.AtCi}
    case Retried => !w.executing && w.at == F.AtOperator
    case Resumed => !w.executing && w.at == F.AtOperator
    case Elsewhere(_, executing, waiting) => st.coordinated && !(executing && waiting)
    case Sees(_) => st.coordinated && w.executing && !Finished(w.s)
  }

  function TurnOf(e: Edge): F.Position {
    match e
    case ToFeedback => F.AtFeedback
    case ToConflict => F.AtFeedback
    case ToCi => F.AtCi
    case ToOperator => F.AtOperator
  }

  /** The edges a waiting turn exposes: Deliver all of them, the operator two. */
  predicate Armed(at: F.Position, e: Edge) {
    at == F.AtDeliver || (at == F.AtOperator && e in {ToFeedback, ToConflict})
  }

  /** The decided edge fires: the process waits, nothing has changed, and the turn exposes it. */
  predicate Fires(w: World) {
    && w.desk.Decided? && w.waiting && w.Now() == w.desk.work
    && w.desk.decision.edge.Some? && Armed(w.at, w.desk.decision.edge.value)
  }

  function Feedback(w: World, seen: Option<nat>): seq<Note>
    requires seen.Some? ==> seen.value <= |w.notes|
  {
    if seen.Some? then Unseen(w.notes[..seen.value], w.s.cursor) else []
  }

  function Judged(st: Setting, w: World, sight: Sight): Option<Decision> {
    Decide(w.s, w.at == F.AtDeliver, w.executing, st.project, sight)
  }

  /** A decision without an edge is saved while nothing executes; one with an edge waits for the edge. */
  function Looked(st: Setting, w: World, sight: Sight): World {
    match Judged(st, w, sight)
    case None => w
    case Some(d) =>
      if d.edge.Some? then w.(desk := Decided(w.Now(), sight, d))
      else if w.executing then w.(desk := Routed)
      else w.(s := d.s, desk := Routed)
  }

  function Fired(w: World): World
    requires w.desk.Decided?
  {
    if Fires(w) then w.(s := w.desk.decision.s, at := TurnOf(w.desk.decision.edge.value), desk := Routed)
    else w.(desk := Routed)
  }

  function Skimmed(st: Setting, w: World, sight: Sight): World {
    match Judged(st, w, sight)
    case None => w
    case Some(d) => if d.edge.Some? || w.executing then w else w.(s := d.s)
  }

  function SettledBy(w: World): World
    requires w.desk.Answering?
  {
    if w.Now() != w.desk.work || w.executing || w.s.result.None? then w.(desk := Resting)
    else w.(s := Settled(w.s), batches := w.batches + [w.s.notes], desk := Resting)
  }

  /** Maintenance ended: work in progress is superseded by the idle turn. */
  function Interrupted(w: World, s: Pub): World {
    if w.executing || w.at != F.AtDeliver then w.(s := s, at := F.AtDeliver, executing := false, waiting := true) else w.(s := s)
  }

  function Executed(st: Setting, w: World, end: Delivery.End): World {
    if end.outcome == Threw then w
    else
      var at := if st.coordinated && end.outcome in {Waiting, Completed, Aborted} then F.AtDeliver else F.Target(w.at, end.outcome);
      w.(s := end.s, at := at, executing := false, waiting := at != F.Over)
  }

  function Do(st: Setting, w: World, a: Action): World
    requires Enabled(st, w, a)
  {
    match a
    case Post(n) => w.(notes := w.notes + [n])
    case Look(sight, seen) => Looked(st, w, sight.(feedback := Feedback(w, seen)))
    case Fire => Fired(w)
    case Refuse => w.(desk := Resting)
    case Begin => w.(desk := Answering(w.Now()))
    case Answer(c) => w.(replies := w.replies + {c})
    case Settle => SettledBy(w)
    case Drop => w.(desk := Resting)
    case Skim(sight) => Skimmed(st, w, sight.(feedback := []))
    case Stop(iid, url) => Interrupted(w, Stopped(w.s, iid, url))
    case End(sight) => Interrupted(w, Ended(w.s, sight))
    case Park => w.(waiting := false)
    case Unpark => w.(waiting := true)
    case Start => w.(executing := true, waiting := false)
    // a failed turn or a lost worker: the error lifecycle, until a retry waits for the gate again
    case Fail => w.(executing := false)
    case Delivered(answers) => Executed(st, w, Run(st.Cfg(), answers, w.s))
    case Repaired(changes, summary) =>
      var origin := if w.s.reconciliationRequired then Reason.Feedback else F.RepairReason(w.s, w.at);
      var adjustment := Adjustment(origin, changes || w.s.reconciliationRequired, summary);
      w.(s := w.s.(repairPending := false, adjustment := Some(adjustment)), at := F.AtDeliver, executing := false, waiting := true)
    case GaveUp => w.(s := w.s.(repairPending := false), at := F.AtOperator, executing := false, waiting := true)
    case Retried => w.(s := w.s.(cycles := 0), at := F.Choice(w.s), waiting := true)
    case Resumed => w.(s := w.s.(repairPending := false, notes := [], adjustment := None), at := F.AtDeliver, waiting := true)
    case Elsewhere(at, executing, waiting) => w.(at := at, executing := executing, waiting := waiting)
    case Sees(request) => w.(s := w.s.(pr := Some(Link(request.number, request.url)), terminal := Some(request)))
  }

  predicate Legal(st: Setting, w: World, run: seq<Action>)
    decreases |run|, 0
  {
    run == [] ||
    var before := run[..|run| - 1];
    Legal(st, w, before) && Enabled(st, After(st, w, before), run[|run| - 1])
  }

  function After(st: Setting, w: World, run: seq<Action>): World
    requires Legal(st, w, run)
    decreases |run|, 1
  {
    if run == [] then w else
      var before := run[..|run| - 1];
      Do(st, After(st, w, before), run[|run| - 1])
  }

  lemma Extend(st: Setting, w: World, run: seq<Action>, a: Action)
    requires Legal(st, w, run) && Enabled(st, After(st, w, run), a)
    ensures Legal(st, w, run + [a]) && After(st, w, run + [a]) == Do(st, After(st, w, run), a)
  {
    hide Enabled, Do;
    assert (run + [a])[..|run|] == run;
  }

  // ---------------------------------------------------------------- the invariant

  /** The batch holds visible notes past the cursor, and every one up to its greatest. */
  predicate Complete(notes: seq<Note>, cursor: nat, batch: seq<Note>) {
    && (forall n :: n in batch ==> n in notes && n.id > cursor)
    && (forall n :: n in notes && cursor < n.id <= MaxId(cursor, batch) ==> n in batch)
  }

  predicate InSome(n: Note, batches: seq<seq<Note>>) {
    exists b :: 0 <= b < |batches| && n in batches[b]
  }

  /** Every note the cursor has passed belongs to a settled batch. */
  ghost predicate Passed(notes: seq<Note>, cursor: nat, batches: seq<seq<Note>>) {
    forall n :: n in notes && n.id <= cursor ==> InSome(n, batches)
  }

  /** Settled batches hold visible notes up to the cursor, and the cursor is the id of a visible note. */
  ghost predicate Within(notes: seq<Note>, cursor: nat, batches: seq<seq<Note>>) {
    && (forall b, n :: 0 <= b < |batches| && n in batches[b] ==> n in notes && n.id <= cursor)
    && (cursor == 0 || exists n :: n in notes && n.id == cursor)
  }

  predicate Disjoint(batches: seq<seq<Note>>) {
    forall b, c, n: Note, m: Note :: 0 <= b < c < |batches| && n in batches[b] && m in batches[c] ==> n.id < m.id
  }

  /** The discussion of a settled note has a durable reply that names a note of the same batch. */
  predicate Answered(n: Note, batch: seq<Note>, replies: set<Comment>) {
    exists c, m :: c in replies && c.discussion == n.discussion && m in batch && m.discussion == n.discussion && c.note == m.id
  }

  ghost predicate AllAnswered(batches: seq<seq<Note>>, replies: set<Comment>) {
    forall b, n :: 0 <= b < |batches| && n in batches[b] ==> Answered(n, batches[b], replies)
  }

  /** A decision that waits for its edge was taken on a state whose cursor has not moved back. */
  predicate DeskOk(st: Setting, w: World) {
    w.desk.Decided? ==>
      && w.desk.work.s.pending.None? && w.desk.work.s.ciCycles <= 3
      && Decide(w.desk.work.s, w.desk.work.at == F.AtDeliver, w.desk.work.executing, st.project, w.desk.sight) == Some(w.desk.decision)
      && w.desk.decision.s.cursor == w.desk.work.s.cursor <= w.s.cursor
      && Complete(w.notes, w.desk.work.s.cursor, w.desk.decision.s.notes)
  }

  ghost predicate Inv(w: World) {
    && w.s.pending.None? && w.s.ciCycles <= 3
    && Complete(w.notes, w.s.cursor, w.s.notes)
    && Passed(w.notes, w.s.cursor, w.batches) && Within(w.notes, w.s.cursor, w.batches)
    && Disjoint(w.batches)
    && AllAnswered(w.batches, w.replies)
  }

  lemma MaxIsVisible(notes: seq<Note>, cursor: nat, batch: seq<Note>)
    requires Complete(notes, cursor, batch)
    ensures MaxId(cursor, batch) == cursor || exists n :: n in notes && n.id == MaxId(cursor, batch)
  {
    if MaxId(cursor, batch) != cursor {
      var i :| 0 <= i < |batch| && MaxId(cursor, batch) == batch[i].id;
      assert batch[i] in batch;
    }
  }

  lemma PostKeepsBatch(notes: seq<Note>, cursor: nat, batch: seq<Note>, n: Note)
    requires Complete(notes, cursor, batch) && n.id > cursor && forall m :: m in notes ==> m.id < n.id
    ensures Complete(notes + [n], cursor, batch)
  {
    MaxIsVisible(notes, cursor, batch);
    forall m | m in notes + [n] && cursor < m.id <= MaxId(cursor, batch)
      ensures m in batch
    {
      assert m in notes;
    }
  }

  lemma PostKeepsPast(notes: seq<Note>, cursor: nat, batches: seq<seq<Note>>, n: Note)
    requires Passed(notes, cursor, batches) && Within(notes, cursor, batches)
    requires n.id > 0 && forall m :: m in notes ==> m.id < n.id
    ensures n.id > cursor && Passed(notes + [n], cursor, batches) && Within(notes + [n], cursor, batches)
  {
    hide InSome;
    assert n.id > cursor;
    if cursor != 0 {
      var m :| m in notes && m.id == cursor;
      assert m in notes + [n];
    }
    forall m | m in notes + [n] && m.id <= cursor
      ensures InSome(m, batches)
    {
      assert m in notes;
    }
  }

  lemma PostKeeps(st: Setting, w: World, n: Note)
    requires Inv(w) && DeskOk(st, w) && Enabled(st, w, Post(n))
    ensures Inv(w.(notes := w.notes + [n])) && DeskOk(st, w.(notes := w.notes + [n]))
  {
    hide Disjoint, AllAnswered, Complete, Passed, Within, Decide;
    forall m | m in w.notes
      ensures m.id < n.id
    {
    }
    PostKeepsPast(w.notes, w.s.cursor, w.batches, n);
    PostKeepsBatch(w.notes, w.s.cursor, w.s.notes, n);
    if w.desk.Decided? {
      PostKeepsBatch(w.notes, w.desk.work.s.cursor, w.desk.decision.s.notes, n);
    }
  }

  lemma UnseenIsComplete(notes: seq<Note>, k: nat, cursor: nat)
    requires k <= |notes| && Ordered(notes)
    ensures Complete(notes, cursor, Unseen(notes[..k], cursor))
  {
    var batch := Unseen(notes[..k], cursor);
    hide Unseen;
    forall n
      ensures n in batch <==> n in notes[..k] && n.id > cursor
    {
      UnseenIs(notes[..k], cursor, n);
    }
    forall n | n in notes && cursor < n.id <= MaxId(cursor, batch)
      ensures n in notes[..k]
    {
      var i :| 0 <= i < |batch| && MaxId(cursor, batch) == batch[i].id;
      EarlierIsRead(notes, k, n, batch[i]);
    }
  }

  lemma EarlierIsRead(notes: seq<Note>, k: nat, n: Note, read: Note)
    requires k <= |notes| && Ordered(notes) && n in notes && read in notes[..k] && n.id <= read.id
    ensures n in notes[..k]
  {
    var j :| 0 <= j < k && notes[..k][j] == read;
    var l :| 0 <= l < |notes| && notes[l] == n;
    assert l <= j;
    assert notes[..k][l] == n;
  }

  /** A decision holds a complete batch: the one at hand, or all unseen notes it was shown. */
  lemma DecisionIsComplete(st: Setting, w: World, o: Sight)
    requires Inv(w) && Complete(w.notes, w.s.cursor, o.feedback)
    ensures var d := Judged(st, w, o);
            d.Some? ==>
              && d.value.s.pending.None? && d.value.s.ciCycles <= 3 && d.value.s.cursor == w.s.cursor
              && Complete(w.notes, w.s.cursor, d.value.s.notes)
  {
    hide Passed, Within, Disjoint, AllAnswered, Decide, Complete;
    DecisionsKeepCursor(w.s, w.at == F.AtDeliver, w.executing, st.project, o);
  }

  lemma LookKeeps(st: Setting, w: World, a: Action)
    requires Inv(w) && Ordered(w.notes) && Enabled(st, w, a) && (a.Look? || a.Skim?)
    ensures Inv(Do(st, w, a)) && DeskOk(st, Do(st, w, a)) && Do(st, w, a).notes == w.notes
  {
    hide Passed, Within, Disjoint, AllAnswered, Decide, Complete;
    var o := if a.Look? then a.sight.(feedback := Feedback(w, a.seen)) else a.sight.(feedback := []);
    if a.Look? && a.seen.Some? {
      UnseenIsComplete(w.notes, a.seen.value, w.s.cursor);
    } else {
      NothingIsComplete(w.notes, w.s.cursor);
    }
    DecisionIsComplete(st, w, o);
  }

  lemma FireKeeps(st: Setting, w: World)
    requires Inv(w) && DeskOk(st, w) && w.desk.Decided?
    ensures Inv(Fired(w)) && Fired(w).notes == w.notes
  {
    hide Passed, Within, Disjoint, AllAnswered, Decide, Complete;
    var work := w.desk.work;
    DecisionsKeepCursor(work.s, work.at == F.AtDeliver, work.executing, st.project, w.desk.sight);
  }

  /** A waiting decision is not touched by what others do. */
  lemma DeskStays(st: Setting, w: World, t: World)
    requires DeskOk(st, w) && t.desk == w.desk && t.notes == w.notes && w.s.cursor <= t.s.cursor
    ensures DeskOk(st, t)
  {
    hide Decide, Complete;
  }

  lemma NothingIsComplete(notes: seq<Note>, cursor: nat)
    ensures Complete(notes, cursor, [])
  {
  }

  predicate Ordered(notes: seq<Note>) {
    forall i, j :: 0 <= i < j < |notes| ==> notes[i].id < notes[j].id
  }

  lemma {:induction false} LastIsIn(notes: seq<Note>, d: string)
    requires exists n :: n in notes && n.discussion == d
    ensures exists m :: m in notes && m.discussion == d && m.id == LastOf(notes, d)
  {
    var last := notes[|notes| - 1];
    if last.discussion != d {
      var front := notes[..|notes| - 1];
      var n :| n in notes && n.discussion == d;
      assert n in front;
      LastIsIn(front, d);
      var m :| m in front && m.discussion == d && m.id == LastOf(front, d);
      assert m in notes;
    }
  }

  lemma BatchIsAnswered(s: Pub, replies: set<Comment>, n: Note)
    requires s.result.Some? && Messages(s) <= replies && n in s.notes
    ensures Answered(n, s.notes, replies)
  {
    LastIsIn(s.notes, n.discussion);
    var c := Comment(n.discussion, LastOf(s.notes, n.discussion), s.head, s.result.value.published);
    assert c in Messages(s);
  }

  lemma SettlePassed(notes: seq<Note>, cursor: nat, batch: seq<Note>, batches: seq<seq<Note>>)
    requires Complete(notes, cursor, batch) && Passed(notes, cursor, batches)
    ensures Passed(notes, MaxId(cursor, batch), batches + [batch])
  {
    var more := batches + [batch];
    forall n | n in notes && n.id <= MaxId(cursor, batch)
      ensures InSome(n, more)
    {
      if n.id <= cursor {
        var b :| 0 <= b < |batches| && n in batches[b];
        assert more[b] == batches[b];
      } else {
        assert n in more[|batches|];
      }
    }
  }

  lemma SettleWithin(notes: seq<Note>, cursor: nat, batch: seq<Note>, batches: seq<seq<Note>>)
    requires Complete(notes, cursor, batch) && Within(notes, cursor, batches)
    ensures Within(notes, MaxId(cursor, batch), batches + [batch])
  {
    MaxIsVisible(notes, cursor, batch);
    var more := batches + [batch];
    forall b, n | 0 <= b < |more| && n in more[b]
      ensures n in notes && n.id <= MaxId(cursor, batch)
    {
      if b < |batches| {
        assert more[b] == batches[b];
      } else {
        var i :| 0 <= i < |batch| && batch[i] == n;
      }
    }
  }

  lemma SettleDisjoint(notes: seq<Note>, cursor: nat, batch: seq<Note>, batches: seq<seq<Note>>)
    requires Complete(notes, cursor, batch) && Within(notes, cursor, batches) && Disjoint(batches)
    ensures Disjoint(batches + [batch])
  {
    var more := batches + [batch];
    forall b, c, n: Note, m: Note | 0 <= b < c < |more| && n in more[b] && m in more[c]
      ensures n.id < m.id
    {
      assert more[b] == batches[b] && n in batches[b];
      if c < |batches| {
        assert more[c] == batches[c];
      }
    }
  }

  lemma SettleAnswers(s: Pub, replies: set<Comment>, batches: seq<seq<Note>>)
    requires AllAnswered(batches, replies) && s.result.Some? && Messages(s) <= replies
    ensures AllAnswered(batches + [s.notes], replies)
  {
    hide Answered, Messages;
    var more := batches + [s.notes];
    forall b, n | 0 <= b < |more| && n in more[b]
      ensures Answered(n, more[b], replies)
    {
      if b < |batches| {
        assert more[b] == batches[b];
      } else {
        BatchIsAnswered(s, replies, n);
      }
    }
  }

  lemma SettleKeeps(w: World)
    requires Inv(w) && w.desk.Answering? && Messages(w.desk.work.s) <= w.replies
    ensures Inv(SettledBy(w)) && SettledBy(w).notes == w.notes
  {
    hide Complete, Passed, Within, Disjoint, AllAnswered, Messages;
    if w.Now() == w.desk.work && w.s.result.Some? {
      SettlePassed(w.notes, w.s.cursor, w.s.notes, w.batches);
      SettleWithin(w.notes, w.s.cursor, w.s.notes, w.batches);
      SettleDisjoint(w.notes, w.s.cursor, w.s.notes, w.batches);
      SettleAnswers(w.s, w.replies, w.batches);
      NothingIsComplete(w.notes, MaxId(w.s.cursor, w.s.notes));
    }
  }

  lemma AnswerKeeps(w: World, c: Comment)
    requires Inv(w)
    ensures Inv(w.(replies := w.replies + {c}))
  {
    hide Complete, Passed, Within, Disjoint;
    forall b, n | 0 <= b < |w.batches| && n in w.batches[b]
      ensures Answered(n, w.batches[b], w.replies + {c})
    {
      assert Answered(n, w.batches[b], w.replies);
    }
  }

  /** Everything but the steps of a poll. */
  predicate IsWork(a: Action) {
    !a.Post? && !a.Look? && !a.Skim? && !a.Fire? && !a.Refuse? && !a.Begin? && !a.Settle? && !a.Answer? && !a.Drop?
  }

  /** Work leaves notes, replies, batches and the poll alone, and at most gives the batch up. */
  lemma WorkFrame(st: Setting, w: World, a: Action)
    requires w.s.pending.None? && Enabled(st, w, a) && IsWork(a)
    ensures var t := Do(st, w, a);
            && t == w.(s := t.s, at := t.at, executing := t.executing, waiting := t.waiting)
            && t.s.cursor == w.s.cursor && t.s.ciCycles == w.s.ciCycles && t.s.pending.None?
            && (t.s.notes == w.s.notes || t.s.notes == [])
  {
    hide Run;
    if a.Delivered? {
      DR.ExecutionsKeepFeedback(st.Cfg(), a.a, w.s);
    }
  }

  lemma WorkKeeps(st: Setting, w: World, a: Action)
    requires Inv(w) && Enabled(st, w, a) && IsWork(a)
    ensures var t := Do(st, w, a);
            && Inv(t) && t.notes == w.notes && t.desk == w.desk && t.s.cursor == w.s.cursor
            && t.batches == w.batches && t.replies == w.replies
  {
    WorkFrame(st, w, a);
    hide Passed, Within, Disjoint, AllAnswered, Complete, Do, Enabled;
    NothingIsComplete(w.notes, w.s.cursor);
  }

  /** The steps of a poll that only move it along. */
  lemma DeskStepKeeps(st: Setting, w: World, a: Action)
    requires Inv(w) && Enabled(st, w, a) && (a.Refuse? || a.Begin? || a.Drop?)
    ensures var t := Do(st, w, a); Inv(t) && t == w.(desk := t.desk) && !t.desk.Decided?
  {
    hide Passed, Within, Disjoint, AllAnswered, Complete;
  }

  ghost predicate Fine(st: Setting, w: World) {
    Inv(w) && DeskOk(st, w) && Ordered(w.notes)
  }

  lemma StepKeepsInv(st: Setting, w: World, a: Action)
    requires Fine(st, w) && Enabled(st, w, a)
    ensures Fine(st, Do(st, w, a))
  {
    hide Inv, Decide, Complete;
    match a
    case Post(n) => PostKeeps(st, w, n);
    case Look(_, _) => LookKeeps(st, w, a);
    case Skim(_) => LookKeeps(st, w, a);
    case Fire => FireKeeps(st, w);
    case Settle => SettleKeeps(w);
    case Answer(c) =>
      AnswerKeeps(w, c);
      DeskStays(st, w, Do(st, w, a));
    case Refuse => DeskStepKeeps(st, w, a);
    case Begin => DeskStepKeeps(st, w, a);
    case Drop => DeskStepKeeps(st, w, a);
    case _ =>
      hide Do;
      WorkKeeps(st, w, a);
      DeskStays(st, w, Do(st, w, a));
  }

  lemma {:induction false} InvHolds(st: Setting, w: World, run: seq<Action>)
    requires Fine(st, w) && Legal(st, w, run)
    ensures Fine(st, After(st, w, run))
  {
    hide Enabled, Do, Fine;
    if run != [] {
      InvHolds(st, w, run[..|run| - 1]);
      StepKeepsInv(st, After(st, w, run[..|run| - 1]), run[|run| - 1]);
    }
  }

  /** A process before its first feedback. */
  predicate Begins(w: World) {
    && w.s.cursor == 0 && w.s.notes == [] && w.s.pending.None? && w.s.ciCycles <= 3
    && w.notes == [] && w.batches == [] && w.desk.Resting?
  }

  /**
   Over every run, with notes becoming visible in id order: the cursor has passed a note
   exactly when the note is in a settled batch, no note is in two, its discussion was
   answered first, and automatic CI repairs never exceed three.
   */
  lemma FeedbackIsSettledExactlyOnce(st: Setting, w: World, run: seq<Action>, n: Note)
    requires Begins(w) && Legal(st, w, run)
    ensures var t := After(st, w, run);
            && (n in t.notes ==> (n.id <= t.s.cursor <==> InSome(n, t.batches)))
            && (forall b, c :: 0 <= b < |t.batches| && 0 <= c < |t.batches| && n in t.batches[b] && n in t.batches[c] ==> b == c)
            && (forall b :: 0 <= b < |t.batches| && n in t.batches[b] ==> Answered(n, t.batches[b], t.replies))
            && t.s.ciCycles <= 3
  {
    hide Enabled, Do, Answered;
    NothingIsComplete(w.notes, 0);
    InvHolds(st, w, run);
  }

  /** The cursor moves only when an answered batch is settled, and to its greatest note. */
  lemma OnlySettlingMovesTheCursor(st: Setting, w: World, a: Action)
    requires Fine(st, w) && Enabled(st, w, a)
    ensures Do(st, w, a).s.cursor != w.s.cursor ==>
              && a.Settle? && w.s.result.Some? && Messages(w.s) <= w.replies
              && Do(st, w, a).batches == w.batches + [w.s.notes]
              && Do(st, w, a).s.cursor == MaxId(w.s.cursor, w.s.notes) > w.s.cursor
    ensures Do(st, w, a).batches != w.batches ==> a.Settle?
  {
    hide *;
    FineParts(st, w);
    match a
    case Look(_, _) => LookFrame(st, w, a);
    case Skim(_) => LookFrame(st, w, a);
    case Fire => FireFrame(st, w);
    case Settle =>
      SettleFrame(st, w);
      if w.s.result.Some? {
        SettledMoves(w.s);
      }
    case _ =>
      WorkOrRest(a);
      if IsWork(a) {
        WorkFrame(st, w, a);
      } else {
        RestFrame(st, w, a);
      }
  }

  lemma WorkOrRest(a: Action)
    ensures IsWork(a) || a.Look? || a.Skim? || a.Fire? || a.Settle? || a.Post? || a.Refuse? || a.Begin? || a.Answer? || a.Drop?
  {
  }

  lemma FineParts(st: Setting, w: World)
    requires Fine(st, w)
    ensures DeskOk(st, w) && w.s.pending.None?
  {
  }

  lemma LookFrame(st: Setting, w: World, a: Action)
    requires w.s.pending.None? && Enabled(st, w, a) && (a.Look? || a.Skim?)
    ensures Do(st, w, a).s.cursor == w.s.cursor && Do(st, w, a).batches == w.batches
  {
    hide Decide;
    var o := if a.Look? then a.sight.(feedback := Feedback(w, a.seen)) else a.sight.(feedback := []);
    DecisionsKeepCursor(w.s, w.at == F.AtDeliver, w.executing, st.project, o);
  }

  lemma FireFrame(st: Setting, w: World)
    requires DeskOk(st, w) && Enabled(st, w, Fire)
    ensures Do(st, w, Fire).s.cursor == w.s.cursor && Do(st, w, Fire).batches == w.batches
  {
    hide Decide, Complete;
  }

  lemma SettleFrame(st: Setting, w: World)
    requires Enabled(st, w, Settle)
    ensures Do(st, w, Settle) == w.(desk := Resting)
            || (w.s.result.Some? && Messages(w.s) <= w.replies
                && Do(st, w, Settle) == w.(s := Settled(w.s), batches := w.batches + [w.s.notes], desk := Resting))
  {
    hide Messages, Settled;
  }

  lemma RestFrame(st: Setting, w: World, a: Action)
    requires Enabled(st, w, a) && (a.Post? || a.Refuse? || a.Begin? || a.Answer? || a.Drop?)
    ensures Do(st, w, a).s == w.s && Do(st, w, a).batches == w.batches
  {
    hide Messages;
  }

  lemma SettledMoves(s: Pub)
    requires s.result.Some?
    ensures Settled(s).cursor == MaxId(s.cursor, s.notes) >= s.cursor
  {
  }

  // ---------------------------------------------------------------- a source head that moves

  /** An unacknowledged result for an older head, and nothing running. */
  predicate Stale(w: World, head: Sha) {
    && w.desk.Resting? && !w.executing && w.s.adjustment.None? && w.s.pending.None? && !Finished(w.s)
    && w.s.result.Some? && w.s.notes != [] && Some(head) != w.s.head
  }

  /** An undisturbed look and the edge it decides on. */
  function Polled(st: Setting, w: World, sight: Sight, seen: Option<nat>): World
    requires Enabled(st, w, Look(sight, seen))
  {
    var looked := Do(st, w, Look(sight, seen));
    if looked.desk.Decided? then Fired(looked) else looked
  }

  /**
   A head change while nothing executes discards the unacknowledged result and keeps the
   batch, exactly when the process is away from Deliver or its lifecycle is waiting. A
   parked process at Deliver keeps the result.
   */
  lemma HeadChangeDiscardsIff(st: Setting, w: World, sight: Sight, seen: Option<nat>)
    requires Enabled(st, w, Look(sight, seen)) && Stale(w, sight.head)
    ensures var t := Polled(st, w, sight, seen);
            && (t.s.result.None? <==> w.at != F.AtDeliver || w.waiting)
            && t.s.notes == w.s.notes && t.s.cursor == w.s.cursor && t.desk == Routed
            && (w.at == F.AtDeliver && !w.waiting ==> t == w.(desk := Routed))
  {
    hide Route, EvidenceFor;
  }

  /** A refused edge and a poll that is not eligible end the poll without settling anything. */
  lemma OtherPollsSettleNothing(st: Setting, w: World, a: Action)
    requires Enabled(st, w, a) && (a.Refuse? || a.Skim?)
    ensures var t := Do(st, w, a); t.desk == Resting && t.batches == w.batches && t.replies == w.replies
    ensures a.Refuse? ==> Do(st, w, a).s == w.s
  {
    hide Decide;
  }

  /** Where it is not discarded, the rest of the same poll answers and settles the stale result. */
  lemma StaleResultIsSettled(st: Setting, w: World, sight: Sight, seen: Option<nat>) returns (run: seq<Action>)
    requires Enabled(st, w, Look(sight, seen)) && Stale(w, sight.head) && w.at == F.AtDeliver && !w.waiting
    ensures Legal(st, w, run) && |run| > 1 && run[0] == Look(sight, seen) && run[1] == Fire
    ensures After(st, w, run).batches == w.batches + [w.s.notes]
    ensures After(st, w, run).s == Settled(w.s)
  {
    var look := Look(sight, seen);
    HeadChangeDiscardsIff(st, w, sight, seen);
    StaleLookDecides(st, w, sight, seen);
    run := [];
    assert Legal(st, w, run) && After(st, w, run) == w;
    hide Legal, After, Looked, Messages, Settled, Decide;
    Extend(st, w, run, look);
    run := run + [look];
    Extend(st, w, run, Fire);
    run := run + [Fire];
    Extend(st, w, run, Begin);
    run := run + [Begin];
    run := AnswersAll(st, w, run);
    Extend(st, w, run, Settle);
    run := run + [Settle];
  }

  /** A poll that has begun to answer can make every reply of its batch durable. */
  lemma AnswersAll(st: Setting, w: World, begun: seq<Action>) returns (run: seq<Action>)
    requires Legal(st, w, begun) && After(st, w, begun) == w.(desk := Answering(w.Now()))
    ensures Legal(st, w, run) && begun <= run && Messages(w.s) <= After(st, w, run).replies
    ensures After(st, w, run) == w.(desk := Answering(w.Now()), replies := After(st, w, run).replies)
  {
    hide Legal, After, Looked, Messages, Settled, Decide;
    run := begun;
    while !(Messages(w.s) <= After(st, w, run).replies)
      invariant Legal(st, w, run) && begun <= run
      invariant After(st, w, run) == w.(desk := Answering(w.Now()), replies := After(st, w, run).replies)
      decreases Messages(w.s) - After(st, w, run).replies
    {
      var c :| c in Messages(w.s) && c !in After(st, w, run).replies;
      Extend(st, w, run, Answer(c));
      run := run + [Answer(c)];
    }
  }

  lemma StaleLookDecides(st: Setting, w: World, sight: Sight, seen: Option<nat>)
    requires Enabled(st, w, Look(sight, seen)) && Stale(w, sight.head) && w.at == F.AtDeliver
    ensures Do(st, w, Look(sight, seen)).desk.Decided?
  {
    hide Route, EvidenceFor;
  }

  // ---------------------------------------------------------------- a parked stale result is reachable

  /** A published request at `head` that waits for evidence. */
  function Published(head: Sha, link: Link): Pub {
    Initial.(head := Some(head), pr := Some(link), stage := Awaiting, issueLinked := true)
  }

  /** The request as it is, without conflicts or pipelines. */
  function Plain(head: Sha, link: Link): Sight {
    Sight(Opened, link.number, link.url, head, None, None, false, [], "")
  }

  /** A repair that changed nothing, delivered against an unmoved branch. */
  function QuietAnswers(head: Sha, link: Link): Answers {
    Answers(true, Sync(false, false, Some(head)), Pushed(head), link, false, Pushed(head), RemoteMoved, head, _ => false)
  }

  lemma QuietDelivery(cfg: Config, head: Sha, link: Link, s: Pub)
    requires cfg.maintenance && s.pending.None? && !Finished(s) && s.head == Some(head) && s.pr.Some? && s.issueLinked
    requires s.adjustment.Some? && s.adjustment.value.origin == Reason.Feedback
    ensures var end := Run(cfg, QuietAnswers(head, link), s);
            && end.outcome == Waiting && end.s.result.Some? && end.s.adjustment.None? && end.s.pending.None?
            && !Finished(end.s) && end.s.head == Some(head) && end.s.notes == s.notes
  {
  }

  /** The state of a request whose first note was handed to a worker. */
  function Handed(head: Sha, link: Link, n: Note): Pub {
    Published(head, link).(notes := [n], reason := Some(Reason.Feedback), repairPending := true)
  }

  lemma FirstLook(st: Setting, w: World, head: Sha, link: Link, n: Note)
    requires w.s == Published(head, link) && w.at == F.AtDeliver && !w.executing && w.waiting
    requires w.notes == [n] && n.id > 0 && w.desk.Resting?
    ensures var look := Look(Plain(head, link), Some(1));
            && Enabled(st, w, look)
            && var t := Do(st, w, look);
            && t == w.(desk := t.desk) && Fires(t)
            && t.desk.decision == Decision.Decision(Handed(head, link, n), Some(ToFeedback))
  {
    assert w.notes[..1] == [n];
    assert Unseen([n], 0) == [n];
  }

  lemma PostStep(st: Setting, w: World, n: Note)
    requires w.notes == [] && n.id > 0
    ensures Enabled(st, w, Post(n)) && Do(st, w, Post(n)) == w.(notes := [n])
  {
  }

  lemma FireStep(st: Setting, w: World)
    requires Fires(w)
    ensures Enabled(st, w, Fire)
    ensures Do(st, w, Fire) == w.(s := w.desk.decision.s, at := TurnOf(w.desk.decision.edge.value), desk := Routed)
  {
  }

  lemma DropStep(st: Setting, w: World)
    ensures Enabled(st, w, Drop) && Do(st, w, Drop) == w.(desk := Resting)
  {
  }

  lemma StartStep(st: Setting, w: World)
    requires w.waiting && GateIsOpen(st, w)
    ensures Enabled(st, w, Start) && Do(st, w, Start) == w.(executing := true, waiting := false)
  {
  }

  /** Begin: a note is posted, seen, and handed to the feedback turn. */
  lemma FirstNoteIsDispatched(st: Setting, w: World, head: Sha, link: Link, n: Note) returns (run: seq<Action>)
    requires Begins(w) && w.s == Published(head, link) && w.at == F.AtDeliver && w.waiting && !w.executing && n.id > 0
    ensures Legal(st, w, run)
    ensures After(st, w, run) == w.(s := Handed(head, link, n), at := F.AtFeedback, notes := [n])
  {
    run := [];
    assert Legal(st, w, run) && After(st, w, run) == w && w.notes == [] && w.desk == Resting;
    assert TurnOf(ToFeedback) == F.AtFeedback;
    hide *;
    PostStep(st, w, n);
    Extend(st, w, run, Post(n));
    run := run + [Post(n)];
    FirstLook(st, After(st, w, run), head, link, n);
    var look := Look(Plain(head, link), Some(1));
    Extend(st, w, run, look);
    run := run + [look];
    FireStep(st, After(st, w, run));
    Extend(st, w, run, Fire);
    run := run + [Fire];
    DropStep(st, After(st, w, run));
    Extend(st, w, run, Drop);
    run := run + [Drop];
  }

  lemma HandedIsOpen(st: Setting, w: World, head: Sha, link: Link, n: Note)
    requires w.s == Handed(head, link, n) && w.at == F.AtFeedback
    ensures GateIsOpen(st, w)
  {
  }

  /** The repair needed no change. */
  function Unchanged(head: Sha, link: Link, n: Note): Pub {
    Handed(head, link, n).(repairPending := false, adjustment := Some(Adjustment(Reason.Feedback, false, "")))
  }

  lemma RepairStep(st: Setting, w: World, head: Sha, link: Link, n: Note)
    requires w.s == Handed(head, link, n) && w.at == F.AtFeedback && w.executing
    ensures var a := Repaired(false, "");
            && Enabled(st, w, a)
            && Do(st, w, a) == w.(s := Unchanged(head, link, n), at := F.AtDeliver, executing := false, waiting := true)
            && GateIsOpen(st, Do(st, w, a))
  {
  }

  lemma DeliverStep(st: Setting, w: World, head: Sha, link: Link, n: Note, other: Sha)
    requires w.s == Unchanged(head, link, n) && w.at == F.AtDeliver && w.executing && other != head && w.desk.Resting?
    ensures var a := Delivered(QuietAnswers(head, link));
            && Enabled(st, w, a)
            && var t := Do(st, w, a); t.waiting && t.at == F.AtDeliver && Stale(t, other)
  {
    QuietDelivery(st.Cfg(), head, link, w.s);
    hide Run;
  }

  lemma ParkStep(st: Setting, w: World, other: Sha)
    requires w.waiting && Stale(w, other)
    ensures Enabled(st, w, Park)
    ensures var t := Do(st, w, Park); Stale(t, other) && t.at == w.at && !t.waiting
  {
  }

  /**
   From a process before its first feedback: a note is dispatched and handled without a
   change, the server parks the waiting process, and the source head moves. The stale
   result is then at Deliver, with nothing executing and the process not waiting.
   */
  lemma StaleResultIsReachable(st: Setting, w: World, head: Sha, link: Link, n: Note, other: Sha) returns (run: seq<Action>)
    requires Begins(w) && w.s == Published(head, link) && w.at == F.AtDeliver && w.waiting && !w.executing && n.id > 0
    requires other != head
    ensures Legal(st, w, run)
    ensures var t := After(st, w, run); Stale(t, other) && t.at == F.AtDeliver && !t.waiting
  {
    assert w.desk == Resting;
    hide *;
    run := FirstNoteIsDispatched(st, w, head, link, n);
    HandedIsOpen(st, After(st, w, run), head, link, n);
    StartStep(st, After(st, w, run));
    Extend(st, w, run, Start);
    run := run + [Start];
    RepairStep(st, After(st, w, run), head, link, n);
    Extend(st, w, run, Repaired(false, ""));
    run := run + [Repaired(false, "")];
    StartStep(st, After(st, w, run));
    Extend(st, w, run, Start);
    run := run + [Start];
    DeliverStep(st, After(st, w, run), head, link, n, other);
    Extend(st, w, run, Delivered(QuietAnswers(head, link)));
    run := run + [Delivered(QuietAnswers(head, link))];
    ParkStep(st, After(st, w, run), other);
    Extend(st, w, run, Park);
    run := run + [Park];
  }

  // ---------------------------------------------------------------- CI failures

  /** The edge that fires counts a failure. */
  predicate Counts(w: World) {
    Fires(w) && w.desk.decision.s.ciCycles > w.s.ciCycles
  }

  /** Only a firing edge raises the number of CI repairs. */
  lemma OnlyFiringCounts(st: Setting, w: World, a: Action)
    requires Fine(st, w) && Enabled(st, w, a) && Do(st, w, a).s.ciCycles > w.s.ciCycles
    ensures a == Fire && Counts(w)
  {
    hide *;
    FineParts(st, w);
    match a
    case Look(_, _) => LookCounts(st, w, a);
    case Skim(_) => LookCounts(st, w, a);
    case Fire => FireCounts(st, w);
    case Settle => SettleCounts(st, w);
    case _ =>
      WorkOrRest(a);
      if IsWork(a) {
        WorkFrame(st, w, a);
      } else {
        RestFrame(st, w, a);
      }
  }

  lemma LookCounts(st: Setting, w: World, a: Action)
    requires w.s.pending.None? && Enabled(st, w, a) && (a.Look? || a.Skim?)
    ensures Do(st, w, a).s.ciCycles <= w.s.ciCycles
  {
    hide Decide;
    var o := if a.Look? then a.sight.(feedback := Feedback(w, a.seen)) else a.sight.(feedback := []);
    CountedFailureIsStored(w.s, w.at == F.AtDeliver, w.executing, st.project, o);
  }

  lemma FireCounts(st: Setting, w: World)
    requires Enabled(st, w, Fire)
    ensures Do(st, w, Fire).s.ciCycles > w.s.ciCycles ==> Counts(w)
  {
  }

  lemma SettleCounts(st: Setting, w: World)
    requires Enabled(st, w, Settle)
    ensures Do(st, w, Settle).s.ciCycles == w.s.ciCycles
  {
    hide Messages;
  }

  /**
   Over every run, a failed pipeline is counted only when it is not stored for the observed
   head: it never was, or the record was dropped meanwhile, or the head moves with this very
   decision. It is stored again at once.
   */
  lemma CountedFailureWasNotStored(st: Setting, w: World, run: seq<Action>, a: Action)
    requires Fine(st, w) && Legal(st, w, run) && Enabled(st, After(st, w, run), a)
    requires Do(st, After(st, w, run), a).s.ciCycles > After(st, w, run).s.ciCycles
    ensures var before := After(st, w, run);
            && a == Fire && Counts(before)
            && var p, after := before.desk.sight.pipeline, Do(st, before, a);
            && p.Some? && Known(after.s, p.value, st.project)
            && (Known(before.s, p.value, st.project) ==> after.s.head != before.s.head)
            && after.s.ciCycles == before.s.ciCycles + 1 && before.s.ciCycles < 3
  {
    InvHolds(st, w, run);
    OnlyFiringCounts(st, After(st, w, run), a);
    hide After, Legal;
    CountingStores(st, After(st, w, run));
  }

  lemma CountingStores(st: Setting, w: World)
    requires DeskOk(st, w) && Counts(w)
    ensures var p := w.desk.sight.pipeline;
            && p.Some? && Known(Fired(w).s, p.value, st.project)
            && (Known(w.s, p.value, st.project) ==> Fired(w).s.head != w.s.head)
            && Fired(w).s.ciCycles == w.s.ciCycles + 1 && w.s.ciCycles < 3
  {
    hide Complete;
    var work := w.desk.work;
    CountedFailureIsStored(work.s, work.at == F.AtDeliver, work.executing, st.project, w.desk.sight);
    FailureCountsIff(work.s, work.at == F.AtDeliver, work.executing, st.project, w.desk.sight);
    hide Decide;
  }
}
