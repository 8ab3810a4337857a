/**
 What every schedule of crashes and re-runs of `reconcileRepository` guarantees.
 */
module CrashRecovery {
  import opened Git
  import opened Reconciliation

  // ---------------------------------------------------------------- recovery refines the uninterrupted run

  function Rebased(alg: Algorithm, s: Repo): Commit
    requires s.Operating() && Chain(s.Op())
  {
    RebasedWork(alg, s.Op(), s.journal.value.baseline)
  }

  /**
   The durable states an operation can be found in. Each phase says how far the
   branch, the index and the working tree may have got.
   */
  predicate Recoverable(alg: Algorithm, s: Repo) {
    && s.Operating() && !s.Integrating() && Chain(s.Op())
    && var op := s.Op();
    && Checkpoint(op.id) in s.refs && s.refs[Checkpoint(op.id)] == op.work
    && var r := Rebased(alg, s);
    match op.phase
    case Captured =>
      && op.result.None? && s.rebase.None?
      && s.worktree == op.work.tree
      && s.branch in {op.head, op.work}
      && s.index in {op.index.tree, op.work.tree}
    case Rebasing =>
      && op.result.None?
      && (s.branch == op.work || (s.branch == r && s.rebase.None?))
      && (s.rebase.None? ==> s.worktree == s.branch.tree && s.index == s.branch.tree)
    case Restoring =>
      && s.rebase.None?
      && Reconciled(op.id) in s.refs && s.refs[Reconciled(op.id)] == r
      && s.worktree == r.tree
      && op.result.Some? && op.result.value.index == r.parents[0].tree
      && var base := r.parents[0].parents[0];
      && (op.result.value.head == base || IsJoin(op.result.value.head, base, s.JoinParent()))
      && (s.branch == r || (s.branch == op.result.value.head && JoinSettled(s.JoinParent(), s.branch)))
      && s.index in {r.tree, op.result.value.index}
  }

  predicate IsJoin(c: Commit, head: Commit, join: Option<Commit>) {
    && !JoinSettled(join, head)
    && c == JoinCommit(head, join.value, c.stamp)
  }

  /** What one uninterrupted reconciliation leaves behind. */
  datatype Goal = Goal(base: Commit, join: Option<Commit>, index: Tree, worktree: Tree, journal: Journal)

  function GoalOf(alg: Algorithm, s: Repo): Goal
    requires s.Operating() && Chain(s.Op())
  {
    var r := Rebased(alg, s);
    Goal(r.parents[0].parents[0], s.JoinParent(), r.parents[0].tree, r.tree,
         s.journal.value.(baseline := s.Op().remote, operation := None, joinParent := None))
  }

  /** HEAD, index, working tree and journal are those of the goal; a join commit is named up to its stamp. */
  predicate Achieves(goal: Goal, s: Repo) {
    && s.rebase.None?
    && (if JoinSettled(goal.join, goal.base) then s.branch == goal.base else IsJoin(s.branch, goal.base, goal.join))
    && s.index == goal.index
    && s.worktree == goal.worktree
    && s.journal == Some(goal.journal)
  }

  lemma CaptureIsRecoverable(alg: Algorithm, s: Repo, id: string, stamp: nat, given: Commit)
    requires Enabled(alg, s, Capture(id, stamp, given))
    ensures Recoverable(alg, Do(alg, s, Capture(id, stamp, given)))
  {
  }

  lemma JoinedIsSettled(head: Commit, join: Commit, stamp: nat)
    ensures Ancestor(join, JoinCommit(head, join, stamp))
    ensures Ancestor(head, JoinCommit(head, join, stamp))
  {
    ParentIsAncestor(JoinCommit(head, join, stamp), 0);
    ParentIsAncestor(JoinCommit(head, join, stamp), 1);
  }

  lemma RecoverableIsOperating(alg: Algorithm, s: Repo)
    requires Recoverable(alg, s)
    ensures s.Operating() && !s.Integrating() && Chain(s.Op())
  {
  }

  lemma StepKeepsGoal(alg: Algorithm, s: Repo, a: Action)
    requires s.Operating() && !s.Integrating() && Chain(s.Op()) && Enabled(alg, s, a) && a != Finish
    ensures var s' := Do(alg, s, a);
            s'.Operating() && Chain(s'.Op()) && GoalOf(alg, s') == GoalOf(alg, s)
  {
    hide Ancestor;
  }

  lemma CapturedStepRecovers(alg: Algorithm, s: Repo, a: Action)
    requires Recoverable(alg, s) && s.Op().phase == Captured && Enabled(alg, s, a)
    ensures a != Finish && Recoverable(alg, Do(alg, s, a))
  {
    hide Ancestor;
  }

  lemma RebasingStepRecovers(alg: Algorithm, s: Repo, a: Action)
    requires Recoverable(alg, s) && s.Op().phase == Rebasing && Enabled(alg, s, a)
    ensures a != Finish && Recoverable(alg, Do(alg, s, a))
  {
    hide Ancestor;
  }

  lemma RestoringStepRecovers(alg: Algorithm, s: Repo, a: Action)
    requires Recoverable(alg, s) && s.Op().phase == Restoring && Enabled(alg, s, a) && a != Finish
    ensures Recoverable(alg, Do(alg, s, a))
  {
    hide Ancestor;
    if a.Join? {
      hide Enabled, Do, Recoverable;
      JoinRecovers(alg, s, a);
    }
  }

  lemma JoinRecovers(alg: Algorithm, s: Repo, a: Action)
    requires Recoverable(alg, s) && s.Op().phase == Restoring && Enabled(alg, s, a) && a.Join?
    ensures Recoverable(alg, Do(alg, s, a))
  {
    hide Ancestor;
    var head := s.Op().result.value.head;
    JoinedIsSettled(Rebased(alg, s).parents[0].parents[0], s.JoinParent().value, head.stamp);
    JoinedIsSettled(head, s.JoinParent().value, a.stamp);
  }

  lemma FinishAchieves(alg: Algorithm, s: Repo)
    requires Recoverable(alg, s) && Enabled(alg, s, Finish)
    ensures Achieves(GoalOf(alg, s), Do(alg, s, Finish))
  {
    var base := Rebased(alg, s).parents[0].parents[0];
    if s.Op().result.value.head != base {
      JoinedIsSettled(base, s.JoinParent().value, s.branch.stamp);
    }
  }

  /** One action keeps an operation recoverable with the same goal, or completes it. */
  lemma StepRecovers(alg: Algorithm, s: Repo, a: Action)
    requires Recoverable(alg, s) && Enabled(alg, s, a)
    ensures s.Operating() && Chain(s.Op())
    ensures var s' := Do(alg, s, a);
            if a == Finish then Achieves(GoalOf(alg, s), s')
            else Recoverable(alg, s') && s'.Operating() && Chain(s'.Op()) && GoalOf(alg, s') == GoalOf(alg, s)
  {
    hide Enabled, Do, Recoverable, Achieves, GoalOf;
    RecoverableIsOperating(alg, s);
    if a == Finish {
      FinishAchieves(alg, s);
    } else {
      match s.Op().phase
      case Captured => CapturedStepRecovers(alg, s, a);
      case Rebasing => RebasingStepRecovers(alg, s, a);
      case Restoring => RestoringStepRecovers(alg, s, a);
    }
    if a != Finish {
      StepKeepsGoal(alg, s, a);
    }
  }

  /** Until it finishes, every crash point of an operation can be resumed towards the same goal. */
  lemma {:induction false} EveryCrashPointIsRecoverable(alg: Algorithm, captured: Repo, run: seq<Action>)
    requires Recoverable(alg, captured)
    requires Legal(alg, captured, run) && Finish !in run
    ensures var s := After(alg, captured, run);
            Recoverable(alg, s) && s.Operating() && Chain(s.Op()) && GoalOf(alg, s) == GoalOf(alg, captured)
  {
    hide Enabled, Do, Recoverable, GoalOf;
    RecoverableIsOperating(alg, captured);
    if run != [] {
      var before := run[..|run| - 1];
      EveryCrashPointIsRecoverable(alg, captured, before);
      StepRecovers(alg, After(alg, captured, before), run[|run| - 1]);
    }
  }

  /**
   Crash recovery refines the uninterrupted run: however often workers die and whatever
   else the remote does meanwhile, the run that completes the operation leaves HEAD,
   index, working tree and baseline as one uninterrupted reconciliation does.
   */
  lemma CrashRecoveryRefinesUninterruptedRun(alg: Algorithm, captured: Repo, run: seq<Action>)
    requires Recoverable(alg, captured)
    requires run != [] && Legal(alg, captured, run)
    requires run[|run| - 1] == Finish && Finish !in run[..|run| - 1]
    ensures Achieves(GoalOf(alg, captured), After(alg, captured, run))
  {
    hide Enabled, Do, Recoverable, GoalOf, Achieves;
    RecoverableIsOperating(alg, captured);
    var before := run[..|run| - 1];
    EveryCrashPointIsRecoverable(alg, captured, before);
    StepRecovers(alg, After(alg, captured, before), Finish);
  }

  // ---------------------------------------------------------------- nothing local is lost

  /** The captured trees and HEAD are reachable from a private ref. */
  predicate Retained(s: Repo, checkout: Repo)
    requires s.Operating()
  {
    var op := s.Op();
    && Chain(op)
    && Checkpoint(op.id) in s.refs && s.refs[Checkpoint(op.id)] == op.work
    && op.head == checkout.branch && op.index.tree == checkout.index && op.work.tree == checkout.worktree
  }

  lemma StepRetains(alg: Algorithm, s: Repo, a: Action, checkout: Repo)
    requires Enabled(alg, s, a)
    requires s.Operating() ==> Retained(s, checkout)
    ensures var s' := Do(alg, s, a);
            s'.Operating() ==> if s.Operating() then Retained(s', checkout) else a.Capture? && Retained(s', s)
  {
  }

  /**
   In every reachable state whose journal holds an operation, the checkpoint ref reaches
   the checkout that the journal entry captured: position `k` of the run is the capture.
   */
  lemma {:induction false} NothingLocalIsLost(alg: Algorithm, s: Repo, run: seq<Action>) returns (k: nat)
    requires !s.Operating() && Legal(alg, s, run)
    ensures var t := After(alg, s, run);
            t.Operating() ==>
              && k < |run| && run[k].Capture? && Legal(alg, s, run[..k])
              && !After(alg, s, run[..k]).Operating()
              && Retained(t, After(alg, s, run[..k]))
  {
    hide Enabled, Do;
    k := 0;
    if run != [] {
      var before, a := run[..|run| - 1], run[|run| - 1];
      k := NothingLocalIsLost(alg, s, before);
      var mid := After(alg, s, before);
      if mid.Operating() {
        assert run[..k] == before[..k];
        StepRetains(alg, mid, a, After(alg, s, run[..k]));
      } else {
        StepRetains(alg, mid, a, mid);
        k := |run| - 1;
      }
    }
  }

  /** A retained repair replaces the branch by a commit with the same tree. */
  predicate SameTree(s: Repo) {
    s.Integrating() ==>
      s.journal.value.integration.value.replacement.tree == s.journal.value.integration.value.previous.tree
  }

  /** Where the branch may be once a retained repair has been taken up. */
  predicate Taken(s: Repo, t: Repo) {
    || t.branch == s.branch
    || (s.Integrating() && t.branch == s.journal.value.integration.value.replacement
        && s.branch == s.journal.value.integration.value.previous)
  }

  lemma StepLeavesCheckout(alg: Algorithm, s: Repo, a: Action)
    requires !s.Operating() && Enabled(alg, s, a) && !a.Edit? && !a.Retain?
    ensures var t := Do(alg, s, a);
            && t.index == s.index && t.worktree == s.worktree && Taken(s, t)
            && (!a.Integrate? ==> t.branch == s.branch)
            && (t.Operating() <==> a.Capture?)
            && (t.Integrating() ==> s.Integrating() && t.journal.value.integration == s.journal.value.integration)
  {
  }

  /**
   Before the journal entry exists, reconciliation leaves index and working tree alone. It
   moves the branch at most once, to the retained repair that the journal names, and not at
   all without one; the tree of the branch stays the same.
   */
  lemma {:induction false} CheckoutIsUntouchedUntilCaptured(alg: Algorithm, s: Repo, run: seq<Action>)
    requires !s.Operating() && Legal(alg, s, run)
    requires forall i :: 0 <= i < |run| ==> !run[i].Edit? && !run[i].Retain?
    requires forall i :: 0 <= i < |run| - 1 ==> !run[i].Capture?
    ensures var t := After(alg, s, run);
            && t.index == s.index && t.worktree == s.worktree && Taken(s, t)
            && (SameTree(s) ==> t.branch.tree == s.branch.tree)
            && (t.Operating() ==> run != [] && run[|run| - 1].Capture?)
            && (t.Integrating() ==> s.Integrating() && t.journal.value.integration == s.journal.value.integration)
  {
    hide Enabled, Do;
    if run != [] {
      var before := run[..|run| - 1];
      CheckoutIsUntouchedUntilCaptured(alg, s, before);
      if before != [] {
        assert before[|before| - 1] == run[|run| - 2];
      }
      StepLeavesCheckout(alg, After(alg, s, before), run[|run| - 1]);
    }
  }

  lemma StepKeepsCheckpoint(alg: Algorithm, s: Repo, a: Action, id: string)
    requires Enabled(alg, s, a) && Checkpoint(id) in s.refs
    ensures var t := Do(alg, s, a);
            Checkpoint(id) in t.refs && t.refs[Checkpoint(id)] == s.refs[Checkpoint(id)]
  {
  }

  /** Recovery refs are never moved or removed, by this operation or by any later one. */
  lemma {:induction false} CheckpointsArePermanent(alg: Algorithm, s: Repo, run: seq<Action>, id: string)
    requires Legal(alg, s, run) && Checkpoint(id) in s.refs
    ensures var t := After(alg, s, run);
            Checkpoint(id) in t.refs && t.refs[Checkpoint(id)] == s.refs[Checkpoint(id)]
  {
    hide Enabled, Do;
    if run != [] {
      CheckpointsArePermanent(alg, s, run[..|run| - 1], id);
      StepKeepsCheckpoint(alg, After(alg, s, run[..|run| - 1]), run[|run| - 1], id);
    }
  }

  // ---------------------------------------------------------------- exact replay

  /** The replay of ordinary commits follows `git rebase` on the linear history of this operation. */
  predicate ReplaysLinearly(alg: Algorithm, captured: Repo)
    requires captured.Operating()
  {
    var op, base := captured.Op(), captured.journal.value.baseline;
    Linear(base, op.head) && alg.rewrite(op.head, base, op.remote) == Replay(base, op.head, op.remote, alg.merge)
  }

  /**
   After a completed reconciliation the commits above the captured remote are, in order,
   one replay of each commit of baseline..head; the remote is contained in HEAD; no commit
   with a checkpoint subject is; and the index and working tree are the captured ones, carried
   over by the same three-way merge.
   */
  lemma ReconciliationReplaysExactly(alg: Algorithm, captured: Repo, run: seq<Action>)
    requires Recoverable(alg, captured) && captured.JoinParent().None? && ReplaysLinearly(alg, captured)
    requires run != [] && Legal(alg, captured, run)
    requires run[|run| - 1] == Finish && Finish !in run[..|run| - 1]
    requires var op := captured.Op();
             && Lacks(op.head, INDEX_SUBJECT + op.id) && Lacks(op.head, WORK_SUBJECT + op.id)
             && Lacks(op.remote, INDEX_SUBJECT + op.id) && Lacks(op.remote, WORK_SUBJECT + op.id)
    ensures var s, op, base := After(alg, captured, run), captured.Op(), captured.journal.value.baseline;
            && Ancestor(op.remote, s.branch) && Linear(op.remote, s.branch)
            && ReplaysOf(Range(op.remote, s.branch), Range(base, op.head), op.remote, alg.merge)
            && (forall a :: Ancestor(a, s.branch) ==> a.subject != INDEX_SUBJECT + op.id && a.subject != WORK_SUBJECT + op.id)
            && s.index == alg.merge(op.head.tree, s.branch.tree, op.index.tree)
            && s.worktree == alg.merge(op.index.tree, s.index, op.work.tree)
  {
    CrashRecoveryRefinesUninterruptedRun(alg, captured, run);
    var op, base := captured.Op(), captured.journal.value.baseline;
    ReplayIsExact(base, op.head, op.remote, alg.merge);
    ReplayLacks(base, op.head, op.remote, alg.merge, INDEX_SUBJECT + op.id);
    ReplayLacks(base, op.head, op.remote, alg.merge, WORK_SUBJECT + op.id);
    var branch := After(alg, captured, run).branch;
    hide Lacks, Ancestor;
    forall a | Ancestor(a, branch)
      ensures a.subject != INDEX_SUBJECT + op.id && a.subject != WORK_SUBJECT + op.id
    {
      LacksIsUnreachable(a, branch, INDEX_SUBJECT + op.id);
      LacksIsUnreachable(a, branch, WORK_SUBJECT + op.id);
    }
  }

  /**
   Nothing inside an accepted publication that the journal has not acknowledged is replayed,
   without one nothing inside the retained baseline, and nothing at all once the remote
   contains HEAD.
   */
  lemma PublishedWorkIsNotReplayed(alg: Algorithm, s: Repo, id: string, stamp: nat, given: Commit, i: nat)
    requires Enabled(alg, s, Capture(id, stamp, given))
    requires var c := Do(alg, s, Capture(id, stamp, given));
             Linear(c.journal.value.baseline, c.Op().head) && i < |Range(c.journal.value.baseline, c.Op().head)|
    ensures var c := Do(alg, s, Capture(id, stamp, given));
            var replayed := Range(c.journal.value.baseline, c.Op().head)[i];
            var unacknowledged :=
              && s.receipt.Some? && s.receipt.value.status == Accepted
              && (s.journal.Some? ==> s.journal.value.published != Some(s.receipt.value.candidate));
            && (unacknowledged ==> Baseline(s, given) == s.receipt.value.candidate && !Ancestor(replayed, s.receipt.value.candidate))
            && (!unacknowledged && s.journal.Some? ==> !Ancestor(replayed, s.journal.value.baseline))
            && (!unacknowledged && s.journal.None? ==> !Ancestor(replayed, given))
            && !Ancestor(replayed, Baseline(s, given))
            && !Ancestor(s.branch, c.Op().remote)
  {
    var c := Do(alg, s, Capture(id, stamp, given));
    RangeExcludesBase(c.journal.value.baseline, c.Op().head, i);
  }

  /** The oldest commit of a range decides whether the remote contains any of it. */
  lemma {:induction false} ContainedRangeIff(base: Commit, head: Commit, remote: Commit)
    requires Linear(base, head)
    ensures (exists i :: 0 <= i < |Range(base, head)| && Ancestor(Range(base, head)[i], remote))
            <==> base != head && Ancestor(Range(base, head)[0], remote)
  {
    var range := Range(base, head);
    if i :| 0 <= i < |range| && Ancestor(range[i], remote) {
      RangeIsChain(base, head, 0, i);
      AncestorTransitive(range[0], range[i], remote);
    }
  }

  /**
   An operation replays a commit that the fetched remote already contains exactly when the
   remote contains the oldest commit above the baseline but not HEAD.
   */
  lemma ContainedCommitIsReplayedIff(alg: Algorithm, s: Repo, id: string, stamp: nat, given: Commit)
    requires Enabled(alg, s, Capture(id, stamp, given)) && Linear(Baseline(s, given), s.branch)
    ensures var c := Do(alg, s, Capture(id, stamp, given));
            var op, base := c.Op(), c.journal.value.baseline;
            && Linear(base, op.head)
            && ((exists i :: 0 <= i < |Range(base, op.head)| && Ancestor(Range(base, op.head)[i], op.remote)) <==>
                  && !Ancestor(s.branch, s.refs[Fetched]) && Baseline(s, given) != s.branch
                  && Ancestor(Range(Baseline(s, given), s.branch)[0], s.refs[Fetched]))
  {
    ContainedRangeIff(Baseline(s, given), s.branch, s.refs[Fetched]);
    hide Ancestor;
  }

  const SEED := Commit([], map[], "seed", 0)
  const FIRST := Commit([SEED], map["a" := "1"], "first", 1)
  const SECOND := Commit([FIRST], map["a" := "1", "b" := "2"], "second", 2)

  /** Two local commits; the remote has the first of them, and no receipt records that. */
  const PARTLY_PUBLISHED := Repo(
    SECOND, SECOND.tree, SECOND.tree, None, map[Fetched := FIRST],
    Some(Journal(SEED, true, None, None, None, None)), None)

  /** The remote contains one of two local commits: both are replayed on top of it. */
  lemma PartlyContainedWorkIsReplayedTwice(alg: Algorithm)
    ensures var run := [SaveCheckpoint("id", 3), Capture("id", 3, SEED)];
            && Legal(alg, PARTLY_PUBLISHED, run)
            && var c := After(alg, PARTLY_PUBLISHED, run);
            && c.Operating() && Linear(c.journal.value.baseline, c.Op().head)
            && Range(c.journal.value.baseline, c.Op().head) == [FIRST, SECOND]
            && Ancestor(FIRST, c.Op().remote)
  {
    hide Enabled, Do, Legal, After;
    PartlyContainedWorkIsCaptured(alg);
    assert Linear(SEED, SEED) && Linear(SEED, FIRST);
    TwoSteps(alg, PARTLY_PUBLISHED, SaveCheckpoint("id", 3), Capture("id", 3, SEED));
    assert Range(SEED, SEED) == [] && Range(SEED, FIRST) == [FIRST];
  }

  lemma PartlyContainedWorkIsCaptured(alg: Algorithm)
    ensures var save, capture := SaveCheckpoint("id", 3), Capture("id", 3, SEED);
            && Enabled(alg, PARTLY_PUBLISHED, save)
            && var saved := Do(alg, PARTLY_PUBLISHED, save);
            && Enabled(alg, saved, capture)
            && var c := Do(alg, saved, capture);
            && c.Operating() && c.journal.value.baseline == SEED && c.Op().head == SECOND && c.Op().remote == FIRST
  {
    ParentIsAncestor(FIRST, 0);
    ParentIsAncestor(SECOND, 0);
    AncestorTransitive(SEED, FIRST, SECOND);
    NoCycle(SECOND, 0);
  }

  lemma TwoSteps(alg: Algorithm, s: Repo, a: Action, b: Action)
    requires Enabled(alg, s, a) && Enabled(alg, Do(alg, s, a), b)
    ensures Legal(alg, s, [a, b]) && After(alg, s, [a, b]) == Do(alg, Do(alg, s, a), b)
  {
    hide Enabled, Do;
    assert [] + [a] == [a] && [a] + [b] == [a, b];
    Extend(alg, s, [], a);
    Extend(alg, s, [a], b);
  }

  // ---------------------------------------------------------------- concurrent target repair

  /** Whatever it replays, a rebase ends above the commit it was asked to rebase onto. */
  ghost predicate Grounded(alg: Algorithm) {
    forall head, base, onto :: Ancestor(onto, alg.rewrite(head, base, onto))
  }

  /** Rebasing linear history is grounded. */
  lemma LinearReplayIsGrounded(merge: Merge)
    ensures Grounded(Algorithm((head, base, onto) => if Linear(base, head) then Replay(base, head, onto, merge) else onto, merge))
  {
    forall head, base, onto
      ensures Linear(base, head) ==> Ancestor(onto, Replay(base, head, onto, merge))
    {
      if Linear(base, head) {
        ReplayIsExact(base, head, onto, merge);
      }
    }
  }

  predicate JoinIsPending(alg: Algorithm, s: Repo, target: Commit) {
    && s.JoinParent() == Some(target)
    && (s.Operating() ==> Recoverable(alg, s))
  }

  lemma StepKeepsJoinPending(alg: Algorithm, s: Repo, target: Commit, a: Action)
    requires JoinIsPending(alg, s, target) && Enabled(alg, s, a)
    requires !a.Finish? && !a.Acknowledge? && !a.Retain?
    ensures !a.Confirm? && Do(alg, s, a).JoinParent() == Some(target)
    ensures !s.Operating() && !a.Capture? ==> !Do(alg, s, a).Operating()
  {
    hide Ancestor, Recoverable;
  }

  /** The join with the target is not forgotten, and the early exit stays closed until it is made. */
  lemma {:induction false} JoinStaysPending(alg: Algorithm, s: Repo, target: Commit, run: seq<Action>)
    requires JoinIsPending(alg, s, target) && Legal(alg, s, run)
    requires forall i :: 0 <= i < |run| ==> !run[i].Finish? && !run[i].Acknowledge? && !run[i].Retain?
    ensures JoinIsPending(alg, After(alg, s, run), target)
    ensures forall i :: 0 <= i < |run| ==> !run[i].Confirm?
  {
    hide Enabled, Do, Recoverable, Ancestor;
    if run != [] {
      var before, a := run[..|run| - 1], run[|run| - 1];
      JoinStaysPending(alg, s, target, before);
      var t := After(alg, s, before);
      StepKeepsJoinPending(alg, t, target, a);
      if t.Operating() {
        StepRecovers(alg, t, a);
      } else if a.Capture? {
        CaptureIsRecoverable(alg, t, a.id, a.stamp, a.given);
      }
    }
  }

  lemma FinishJoins(alg: Algorithm, s: Repo, target: Commit)
    requires Grounded(alg) && JoinIsPending(alg, s, target) && Enabled(alg, s, Finish)
    ensures var op, done := s.Op(), Do(alg, s, Finish);
            && Ancestor(op.remote, done.branch) && Ancestor(target, done.branch)
            && done.branch.tree == alg.rewrite(op.head, s.journal.value.baseline, op.remote).tree
            && done.JoinParent().None? && done.journal.value.baseline == op.remote
  {
    StepRecovers(alg, s, Finish);
    var base := Rebased(alg, s).parents[0].parents[0];
    assert base == alg.rewrite(s.Op().head, s.journal.value.baseline, s.Op().remote);
    if s.branch != base {
      JoinedIsSettled(base, target, s.branch.stamp);
      AncestorTransitive(s.Op().remote, base, s.branch);
    }
  }

  /**
   `retainConcurrentRebase` turns the rebased head into one commit on the original source
   with the same tree, asks for a join with the target, and cannot be repeated until the
   checkout has been moved there.
   */
  lemma RetainedRepairIsPending(alg: Algorithm, s: Repo, baseline: Commit, target: Commit, stamp: nat, again: Action)
    requires Enabled(alg, s, Retain(baseline, target, stamp)) && again.Retain?
    ensures var retained := Do(alg, s, Retain(baseline, target, stamp));
            && JoinIsPending(alg, retained, target) && retained.Integrating()
            && var delta := retained.journal.value.integration.value.replacement;
            && delta.parents == [baseline] && delta.tree == s.worktree && SameTree(retained)
            && !Enabled(alg, retained, again)
  {
  }

  /**
   After `retainConcurrentRebase` and any crash and re-run schedule of what follows, the
   first completed reconciliation leaves a HEAD that descends from the fetched source and
   from the target base, with the tree of the replayed repair.
   */
  lemma ConcurrentTargetRepair(alg: Algorithm, retained: Repo, target: Commit, run: seq<Action>)
    requires Grounded(alg) && JoinIsPending(alg, retained, target)
    requires Legal(alg, retained, run)
    requires forall i :: 0 <= i < |run| ==> !run[i].Finish? && !run[i].Acknowledge? && !run[i].Retain?
    requires Enabled(alg, After(alg, retained, run), Finish)
    ensures var before := After(alg, retained, run);
            var op, done := before.Op(), Do(alg, before, Finish);
            && Ancestor(op.remote, done.branch) && Ancestor(target, done.branch)
            && done.branch.tree == alg.rewrite(op.head, before.journal.value.baseline, op.remote).tree
            && done.JoinParent().None? && done.journal.value.baseline == op.remote
    ensures forall i :: 0 <= i < |run| ==> !run[i].Confirm?
  {
    hide Enabled, Do, Recoverable;
    JoinStaysPending(alg, retained, target, run);
    FinishJoins(alg, After(alg, retained, run), target);
  }
}
