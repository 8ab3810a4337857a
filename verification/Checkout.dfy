/**
 `reconcileRepository` as it runs: a checkout whose branch, index, working tree, refs and
 journal are updated one Git command at a time.

 The ghost `log` records every durable write as an `Action`, and `Valid()` says that the
 fields are exactly what the transition system reaches by that log. What is proved there
 about all runs therefore holds for this object after every write, which is also the state
 a crash at that point would leave.
 */
module Checkouts {
  import opened Git
  import opened Reconciliation
  import opened CrashRecovery

  datatype Outcome =
    | Ready(remoteHead: Commit, headSha: Commit, changed: bool)
    | Conflicts(remoteHead: Commit, headSha: Commit)
    | Refused

  /** What Git leaves in HEAD, index and working tree when a rebase stops. */
  datatype Stop = Stop(detached: Commit, index: Tree, worktree: Tree)

  lemma ConfirmIsEnabled(alg: Algorithm, s: Repo, given: Commit)
    requires Synchronizable(s, given) && UpToDate(s, given)
    ensures Enabled(alg, s, Confirm(given))
    ensures Do(alg, s, Confirm(given)) == s.(journal := Some(Refreshed(s, s.refs[Fetched])))
  {
  }

  // ---------------------------------------------------------------- the answer, read off the checkout before the call

  /** Where the branch stands once a retained repair has been taken up. */
  function LocalHead(s: Repo): Commit {
    if s.Integrating() then s.journal.value.integration.value.replacement else s.branch
  }

  /** The receipt is settled, or the fetched head settles it. */
  predicate Proved(s: Repo, remote: Commit) {
    s.receipt.Some? && (s.receipt.value.status == Accepted ||
                        (s.receipt.value.status == Attempting && Ancestor(s.receipt.value.candidate, remote)))
  }

  /** What is known to be published: a proved candidate that the journal has not acknowledged, or the retained baseline. */
  function KnownBaseline(s: Repo, given: Commit, remote: Commit): Commit {
    if Proved(s, remote) && !(s.journal.Some? && s.journal.value.published == Some(s.receipt.value.candidate))
    then s.receipt.value.candidate
    else if s.journal.Some? then s.journal.value.baseline else given
  }

  /** Why a call stops: a foreign rebase, a branch on neither side of a repair, a publication in doubt, or lost work. */
  predicate Refuses(s: Repo, given: Commit, remote: Commit) {
    && !s.Operating()
    && (|| s.rebase.Some?
        || (s.Integrating() && s.branch != s.journal.value.integration.value.previous && s.branch != LocalHead(s))
        || (s.receipt.Some? && s.receipt.value.status == Attempting && !Ancestor(s.receipt.value.candidate, remote))
        || !Ancestor(KnownBaseline(s, given, remote), LocalHead(s)))
  }

  predicate NothingToReplay(s: Repo, given: Commit, remote: Commit) {
    (remote == KnownBaseline(s, given, remote) || remote == LocalHead(s)) && s.JoinParent().None?
  }

  function ReplayFrom(s: Repo, given: Commit, remote: Commit): Commit {
    if Ancestor(LocalHead(s), remote) then LocalHead(s) else KnownBaseline(s, given, remote)
  }

  /** The call starts a rebase. */
  predicate Rebases(s: Repo, given: Commit, remote: Commit) {
    if s.Operating() then s.Op().phase == Captured || (s.Op().phase == Rebasing && s.branch == s.Op().work)
    else !Refuses(s, given, remote) && !NothingToReplay(s, given, remote)
  }

  lemma WhenRebasing(s: Repo, given: Commit, remote: Commit)
    ensures Refuses(s, given, remote) ==> !s.Operating() && !Rebases(s, given, remote)
    ensures s.Operating() ==> (Rebases(s, given, remote) <==>
                                 s.Op().phase == Captured || (s.Op().phase == Rebasing && s.branch == s.Op().work))
    ensures !s.Operating() && Rebases(s, given, remote) ==> !NothingToReplay(s, given, remote)
  {
  }

  /** `t` is the checkout of `s` with its work moved onto the fetched head: HEAD, index and working tree. */
  predicate MovedOnto(alg: Algorithm, s: Repo, given: Commit, remote: Commit, t: Repo) {
    var head := alg.rewrite(LocalHead(s), ReplayFrom(s, given, remote), remote);
    && t.index == alg.merge(LocalHead(s).tree, head.tree, s.index)
    && t.worktree == alg.merge(s.index, t.index, s.worktree)
    && (if s.JoinParent().None? || Ancestor(s.JoinParent().value, head) then t.branch == head
        else t.branch == Commit([head, s.JoinParent().value], head.tree, JOIN_SUBJECT, t.branch.stamp))
  }

  /** The journaled operation describes the work of `s` against the fetched head. */
  predicate CapturedFrom(s: Repo, given: Commit, remote: Commit, captured: Repo) {
    && captured.Operating() && captured.rebase.None? && captured.JoinParent() == s.JoinParent()
    && captured.journal.value.baseline == ReplayFrom(s, given, remote)
    && var op := captured.Op();
    && op.phase == Captured && op.remote == remote && Chain(op)
    && op.head == LocalHead(s) && op.index.tree == s.index && op.work.tree == s.worktree
  }

  /** What a fresh capture leads to. */
  lemma CapturedWorkMoves(alg: Algorithm, s: Repo, given: Commit, remote: Commit, captured: Repo, t: Repo)
    requires CapturedFrom(s, given, remote, captured) && Achieves(GoalOf(alg, captured), t)
    ensures MovedOnto(alg, s, given, remote, t)
  {
    hide Ancestor, ReplayFrom, LocalHead;
  }

  /** A call that finds nothing to replay leaves a HEAD that contains the remote. */
  lemma ContainedIsAncestor(s: Repo, given: Commit, remote: Commit)
    requires !s.Operating() && !Refuses(s, given, remote) && NothingToReplay(s, given, remote)
    ensures Ancestor(remote, LocalHead(s))
  {
  }

  /** The goal of an operation descends from its captured remote. */
  lemma GoalContainsRemote(alg: Algorithm, s: Repo, t: Repo)
    requires s.Operating() && Chain(s.Op()) && Achieves(GoalOf(alg, s), t)
    ensures Grounded(alg) ==> Ancestor(s.Op().remote, t.branch)
  {
    var base := GoalOf(alg, s).base;
    assert base == alg.rewrite(s.Op().head, s.journal.value.baseline, s.Op().remote);
    if Grounded(alg) && t.branch != base {
      hide Ancestor;
      JoinedIsSettled(base, s.JoinParent().value, t.branch.stamp);
      AncestorTransitive(s.Op().remote, base, t.branch);
    }
  }

  // What a recoverable state lets the next write be, phase by phase.

  lemma CapturedWrites(alg: Algorithm, s: Repo)
    requires Recoverable(alg, s) && s.Op().phase == Captured
    ensures var op := s.Op();
            && s.branch in {op.head, op.work}
            && Enabled(alg, s, ReadWork) && Do(alg, s, ReadWork) == s.(index := op.work.tree)
            && (s.index == op.work.tree && s.branch != op.work ==>
                  Enabled(alg, s, MoveToWork) && Do(alg, s, MoveToWork) == s.(branch := op.work))
            && (s.index == op.work.tree && s.branch == op.work ==>
                  Enabled(alg, s, MarkRebasing) && Do(alg, s, MarkRebasing) == s.WithOp(op.(phase := Rebasing)))
  {
  }

  lemma RebasingWrites(alg: Algorithm, s: Repo)
    requires Recoverable(alg, s) && s.Op().phase == Rebasing && s.rebase.None?
    ensures var op, r := s.Op(), Rebased(alg, s);
            && r.parents == [r.parents[0]] && r.parents[0].parents == [r.parents[0].parents[0]]
            && s.branch in {op.work, r}
            && (s.branch == r ==> Enabled(alg, s, SaveReconciled)
                                  && Do(alg, s, SaveReconciled) == s.(refs := s.refs[Reconciled(op.id) := r]))
            && (s.branch == r && Reconciled(op.id) in s.refs && s.refs[Reconciled(op.id)] == r ==>
                  && Enabled(alg, s, MarkRestoring)
                  && Do(alg, s, MarkRestoring) == s.WithOp(op.(
                       phase := Restoring, result := Some(Result(r.parents[0].parents[0], r.parents[0].tree)))))
  {
  }

  lemma JoinWrites(alg: Algorithm, s: Repo, stamp: nat)
    requires Recoverable(alg, s) && s.Op().phase == Restoring
    ensures s.Op().result.Some?
    ensures var op, head := s.Op(), s.Op().result.value.head;
            && (JoinSettled(s.JoinParent(), head) ==> Restorable(s))
            && (!JoinSettled(s.JoinParent(), head) ==>
                  && var joined := JoinCommit(head, s.JoinParent().value, stamp);
                  && Enabled(alg, s, SaveJoin(stamp))
                  && Do(alg, s, SaveJoin(stamp)) == s.(refs := s.refs[Joined(op.id) := joined])
                  && (Joined(op.id) in s.refs && s.refs[Joined(op.id)] == joined ==>
                        && Enabled(alg, s, Join(stamp))
                        && Do(alg, s, Join(stamp)) == s.WithOp(op.(result := Some(op.result.value.(head := joined))))))
  {
  }

  lemma RestoreHeadIsEnabled(alg: Algorithm, s: Repo)
    requires Recoverable(alg, s) && s.Op().phase == Restoring && Restorable(s)
    ensures Enabled(alg, s, RestoreHead)
  {
    hide Ancestor, RebasedWork, JoinSettled;
  }

  lemma RestoringWrites(alg: Algorithm, s: Repo)
    requires Restorable(s) && Enabled(alg, s, RestoreHead)
    ensures var result := s.Op().result.value;
            var moved := s.(branch := result.head);
            var restored := moved.(index := result.index);
            && Do(alg, s, RestoreHead) == moved
            && Enabled(alg, moved, RestoreIndex) && Do(alg, moved, RestoreIndex) == restored
            && Enabled(alg, restored, Finish)
            && Do(alg, restored, Finish) == restored.(journal := Some(s.journal.value.(
                 baseline := s.Op().remote, operation := None, joinParent := None)))
  {
    hide Ancestor, JoinSettled;
  }

  lemma RestoringAchieves(alg: Algorithm, s: Repo)
    requires Recoverable(alg, s) && s.Op().phase == Restoring && Restorable(s)
    ensures Enabled(alg, s, RestoreHead)
    ensures var result := s.Op().result.value;
            Achieves(GoalOf(alg, s), s.(branch := result.head, index := result.index, journal := Some(s.journal.value.(
              baseline := s.Op().remote, operation := None, joinParent := None))))
  {
    hide Enabled, Do, Recoverable, GoalOf, Achieves, Ancestor, JoinSettled;
    RestoreHeadIsEnabled(alg, s);
    RestoringWrites(alg, s);
    var moved := s.(branch := s.Op().result.value.head);
    StepRecovers(alg, s, RestoreHead);
    StepRecovers(alg, moved, RestoreIndex);
    StepRecovers(alg, moved.(index := s.Op().result.value.index), Finish);
  }

  lemma RebaseIsRebasing(alg: Algorithm, s: Repo)
    requires Recoverable(alg, s) && s.rebase.Some?
    ensures s.Op().phase == Rebasing
  {
  }

  class Checkout {
    const alg: Algorithm
    var branch: Commit
    var index: Tree
    var worktree: Tree
    var rebase: Option<Commit>
    var refs: map<Ref, Commit>
    var journal: Option<Journal>
    var receipt: Option<Receipt>
    ghost const origin: Repo
    ghost var log: seq<Action>

    ghost function Snapshot(): Repo
      reads this
    {
      Repo(branch, index, worktree, rebase, refs, journal, receipt)
    }

    ghost predicate Valid()
      reads this
    {
      Legal(alg, origin, log) && After(alg, origin, log) == Snapshot()
    }

    /** A journaled operation can be resumed from here. */
    ghost predicate Resumable()
      reads this
    {
      Snapshot().Operating() ==> Recoverable(alg, Snapshot())
    }

    constructor (alg: Algorithm, s: Repo)
      ensures Valid() && this.alg == alg && Snapshot() == s && log == []
    {
      this.alg := alg;
      origin, log := s, [];
      branch, index, worktree, rebase, refs := s.branch, s.index, s.worktree, s.rebase, s.refs;
      journal, receipt := s.journal, s.receipt;
    }

    // -------------------------------------------------------------- single durable writes

    method UpdateBranch(c: Commit, ghost a: Action)
      requires Valid() && Enabled(alg, Snapshot(), a) && Do(alg, Snapshot(), a) == Snapshot().(branch := c)
      modifies `branch, `log
      ensures Valid() && branch == c && log == old(log) + [a]
    {
      hide Enabled, Do;
      Extend(alg, origin, log, a);
      branch, log := c, log + [a];
    }

    method ReadTree(t: Tree, ghost a: Action)
      requires Valid() && Enabled(alg, Snapshot(), a) && Do(alg, Snapshot(), a) == Snapshot().(index := t)
      modifies `index, `log
      ensures Valid() && index == t && log == old(log) + [a]
    {
      hide Enabled, Do;
      Extend(alg, origin, log, a);
      index, log := t, log + [a];
    }

    method UpdateRef(r: Ref, c: Commit, ghost a: Action)
      requires Valid() && Enabled(alg, Snapshot(), a) && Do(alg, Snapshot(), a) == Snapshot().(refs := refs[r := c])
      modifies `refs, `log
      ensures Valid() && refs == old(refs)[r := c] && log == old(log) + [a]
    {
      hide Enabled, Do;
      Extend(alg, origin, log, a);
      refs, log := refs[r := c], log + [a];
    }

    method Save(j: Journal, ghost a: Action)
      requires Valid() && Enabled(alg, Snapshot(), a) && Do(alg, Snapshot(), a) == Snapshot().(journal := Some(j))
      modifies `journal, `log
      ensures Valid() && journal == Some(j) && log == old(log) + [a]
    {
      hide Enabled, Do;
      Extend(alg, origin, log, a);
      journal, log := Some(j), log + [a];
    }

    method SaveReceipt(r: Receipt, ghost a: Action)
      requires Valid() && Enabled(alg, Snapshot(), a) && Do(alg, Snapshot(), a) == Snapshot().(receipt := Some(r))
      modifies `receipt, `log
      ensures Valid() && receipt == Some(r) && log == old(log) + [a]
    {
      hide Enabled, Do;
      Extend(alg, origin, log, a);
      receipt, log := Some(r), log + [a];
    }

    /** `git rebase --onto remote baseline`: it completes, or stops and leaves its state in place. */
    method Rebase(onto: Commit, base: Commit, stop: Option<Stop>) returns (active: bool)
      requires Valid() && Recoverable(alg, Snapshot()) && InPhase(Snapshot(), Rebasing)
      requires branch == Snapshot().Op().work && rebase.None?
      requires onto == Snapshot().Op().remote && base == journal.value.baseline
      modifies `branch, `index, `worktree, `rebase, `log
      ensures Valid() && Recoverable(alg, Snapshot()) && old(log) < log
      ensures GoalOf(alg, Snapshot()) == GoalOf(alg, old(Snapshot()))
      ensures active == rebase.Some? == stop.Some?
      ensures !active ==> branch == Rebased(alg, Snapshot())
      ensures stop.Some? ==> rebase == Some(stop.value.detached)
    {
      hide GoalOf;
      active := stop.Some?;
      ghost var s := Snapshot();
      ghost var a := match stop case Some(p) => StopRebase(p.detached, p.index, p.worktree) case None => FinishRebase;
      StepRecovers(alg, s, a);
      Extend(alg, origin, log, a);
      log := log + [a];
      match stop {
        case Some(p) =>
          rebase, index, worktree := Some(p.detached), p.index, p.worktree;
        case None =>
          var workCommit := branch;
          var indexCommit := workCommit.parents[0];
          var replayed := alg.rewrite(indexCommit.parents[0], base, onto);
          branch := Pick(workCommit, Pick(indexCommit, replayed, alg.merge), alg.merge);
          index, worktree := branch.tree, branch.tree;
      }
    }

    // -------------------------------------------------------------- the phases of reconcileRepository

    /** Finish moving the checkout onto a retained target repair. */
    method Integrate() returns (ok: bool)
      requires Valid() && !Snapshot().Operating()
      modifies `branch, `journal, `log
      ensures Valid() && !Snapshot().Operating() && old(log) <= log
      ensures ok <==> rebase.None? && (old(Snapshot().Integrating()) ==>
                                         old(branch) == old(journal).value.integration.value.previous || old(branch) == old(LocalHead(Snapshot())))
      ensures !ok ==> Snapshot() == old(Snapshot())
      ensures ok ==> Snapshot().Quiet() && branch == old(LocalHead(Snapshot()))
      ensures ok ==> journal == if old(journal).None? then None else Some(old(journal).value.(integration := None))
    {
      if rebase.Some? {
        return false;
      }
      if journal.Some? && journal.value.integration.Some? {
        var move := journal.value.integration.value;
        if branch == move.previous {
          UpdateBranch(move.replacement, Action.Integrate);
        } else if branch != move.replacement {
          return false;
        }
        Save(journal.value.(integration := None), ClearIntegration);
      }
      ok := true;
    }

    /** Fetch to a private ref and resolve an uncertain publication. */
    method FetchRemote(remote: Commit) returns (ok: bool)
      requires Valid() && Snapshot().Quiet()
      modifies `refs, `receipt, `log
      ensures Valid() && old(log) <= log && refs == old(refs)[Fetched := remote]
      ensures !ok <==> old(receipt).Some? && old(receipt).value.status == Attempting && !Ancestor(old(receipt).value.candidate, remote)
      ensures receipt == if old(Proved(Snapshot(), remote)) then Some(old(receipt).value.(status := Accepted)) else old(receipt)
    {
      UpdateRef(Fetched, remote, Fetch(remote));
      if receipt.Some? && receipt.value.status.Attempting? {
        if !Ancestor(receipt.value.candidate, remote) {
          return false;
        }
        SaveReceipt(receipt.value.(status := Accepted), Accept);
      }
      ok := true;
    }

    /** Journal a checkpoint of HEAD, index and working tree, and only then let the checkout change. */
    method CaptureLocalWork(given: Commit, remote: Commit, id: string, stamp: nat)
      requires Valid() && Synchronizable(Snapshot(), given) && !UpToDate(Snapshot(), given)
      requires refs[Fetched] == remote && Checkpoint(id) !in refs && Reconciled(id) !in refs
      modifies `refs, `journal, `log
      ensures Valid() && old(log) <= log
      ensures Recoverable(alg, Snapshot()) && Snapshot().Operating()
      ensures Snapshot().Op() == NewOperation(old(Snapshot()), id, stamp)
      ensures Snapshot().JoinParent() == old(Snapshot()).JoinParent()
      ensures journal.value.baseline == if Ancestor(branch, remote) then branch else Baseline(old(Snapshot()), given)
    {
      hide Ancestor;
      var staged := IndexCheckpoint(id, branch, index, stamp);
      var work := WorkCheckpoint(id, staged, worktree, stamp);
      UpdateRef(Checkpoint(id), work, SaveCheckpoint(id, stamp));
      var s := Repo(branch, index, worktree, rebase, refs, journal, receipt);
      var base := if Ancestor(branch, remote) then branch else Baseline(s, given);
      var operation := Operation(id, branch, staged, work, remote, Captured, None);
      CaptureIsRecoverable(alg, s, id, stamp, given);
      Save(Refreshed(s, base).(operation := Some(operation)), Capture(id, stamp, given));
    }

    /** Fetch, and journal a checkpoint unless nothing has to be replayed. */
    method Synchronize(given: Commit, remote: Commit, id: string, stamp: nat) returns (r: Option<Outcome>)
      requires Valid() && Snapshot().Quiet()
      requires Checkpoint(id) !in refs && Reconciled(id) !in refs
      modifies `refs, `journal, `receipt, `log
      ensures Valid() && old(log) <= log
      ensures r == Some(Refused) <==> old(Refuses(Snapshot(), given, remote))
      ensures r.None? <==> old(Rebases(Snapshot(), given, remote))
      ensures r.None? ==>
                Recoverable(alg, Snapshot()) && CapturedFrom(old(Snapshot()), given, remote, Snapshot())
      ensures r.Some? ==> Snapshot().Quiet() && r.value in {Refused, Ready(remote, branch, false)}
      ensures r == Some(Ready(remote, branch, false)) ==>
                && journal.Some? && journal.value.baseline == remote
                && Snapshot().JoinParent().None? && old(Snapshot()).JoinParent().None?
      ensures r == Some(Refused) ==> journal == old(journal)
    {
      hide Enabled, Do, Recoverable, Legal, After;
      var ok := FetchRemote(remote);
      if !ok {
        return Some(Refused);
      }
      var s := Repo(branch, index, worktree, rebase, refs, journal, receipt);
      var baseline := Baseline(s, given);
      assert baseline == old(KnownBaseline(Snapshot(), given, remote));
      hide Ancestor;
      if !Ancestor(baseline, branch) {
        return Some(Refused);
      }
      if (remote == baseline || remote == branch) && s.JoinParent().None? {
        ConfirmIsEnabled(alg, s, given);
        Save(Refreshed(s, remote), Confirm(given));
        return Some(Ready(remote, branch, false));
      }
      CaptureLocalWork(given, remote, id, stamp);
      r := None;
    }

    /** Phase `captured`: move index and branch to the checkpoint. */
    method MoveToCheckpoint()
      requires Valid() && Recoverable(alg, Snapshot()) && Snapshot().Op().phase == Captured
      modifies `branch, `index, `journal, `log
      ensures Valid() && Recoverable(alg, Snapshot()) && Snapshot().Operating() && old(log) <= log
      ensures Snapshot().Op() == old(Snapshot()).Op().(phase := Rebasing) && Chain(Snapshot().Op())
      ensures GoalOf(alg, Snapshot()) == GoalOf(alg, old(Snapshot()))
      ensures branch == Snapshot().Op().work
    {
      hide Enabled, Do, Recoverable, GoalOf, Legal, After;
      RecoverableIsOperating(alg, Snapshot());
      var op := journal.value.operation.value;
      CapturedWrites(alg, Snapshot());
      StepRecovers(alg, Snapshot(), ReadWork);
      ReadTree(op.work.tree, ReadWork);
      CapturedWrites(alg, Snapshot());
      if branch != op.work {
        StepRecovers(alg, Snapshot(), MoveToWork);
        UpdateBranch(op.work, MoveToWork);
        CapturedWrites(alg, Snapshot());
      }
      StepRecovers(alg, Snapshot(), MarkRebasing);
      Save(journal.value.(operation := Some(op.(phase := Rebasing))), MarkRebasing);
    }

    /** Phase `rebasing`: replay, unless that already happened, and journal the result. */
    method ReplayLocalWork(stop: Option<Stop>) returns (r: Option<Outcome>)
      requires Valid() && Recoverable(alg, Snapshot()) && Snapshot().Op().phase == Rebasing
      modifies `branch, `index, `worktree, `rebase, `refs, `journal, `log
      ensures Valid() && Recoverable(alg, Snapshot()) && Snapshot().Operating() && Chain(Snapshot().Op()) && old(log) <= log
      ensures GoalOf(alg, Snapshot()) == GoalOf(alg, old(Snapshot()))
      ensures Snapshot().Op().remote == old(Snapshot()).Op().remote
      ensures r.None? ==> Snapshot().Op().phase == Restoring
      ensures r.Some? ==> rebase.Some? && r.value == Conflicts(Snapshot().Op().remote, rebase.value)
      ensures r.Some? <==> old(rebase).Some? || (stop.Some? && old(branch == Snapshot().Op().work))
    {
      hide Enabled, Do, Recoverable, GoalOf, Legal, After, RebasedWork;
      RecoverableIsOperating(alg, Snapshot());
      var op := journal.value.operation.value;
      if rebase.Some? {
        return Some(Conflicts(op.remote, rebase.value));
      }
      RebasingWrites(alg, Snapshot());
      if branch == op.work {
        var active := Rebase(op.remote, journal.value.baseline, stop);
        if active {
          return Some(Conflicts(op.remote, rebase.value));
        }
        RebasingWrites(alg, Snapshot());
      }
      var integrated := branch;
      StepRecovers(alg, Snapshot(), SaveReconciled);
      UpdateRef(Reconciled(op.id), integrated, SaveReconciled);
      RebasingWrites(alg, Snapshot());
      StepRecovers(alg, Snapshot(), MarkRestoring);
      var result := Result(integrated.parents[0].parents[0], integrated.parents[0].tree);
      Save(journal.value.(operation := Some(op.(phase := Restoring, result := Some(result)))), MarkRestoring);
      r := None;
    }

    /** Retain the target ancestry, without merging again, when a join was asked for. */
    method JoinTarget(stamp: nat)
      requires Valid() && Recoverable(alg, Snapshot()) && Snapshot().Op().phase == Restoring
      modifies `refs, `journal, `log
      ensures Valid() && Recoverable(alg, Snapshot()) && Restorable(Snapshot()) && old(log) <= log
      ensures GoalOf(alg, Snapshot()) == GoalOf(alg, old(Snapshot()))
      ensures Snapshot().Op().remote == old(Snapshot()).Op().remote
    {
      hide Enabled, Do, Recoverable, GoalOf, Legal, After;
      RecoverableIsOperating(alg, Snapshot());
      JoinWrites(alg, Snapshot(), stamp);
      var op := journal.value.operation.value;
      var result := op.result.value;
      var join := journal.value.joinParent;
      if join.Some? && !Ancestor(join.value, result.head) {
        var joined := JoinCommit(result.head, join.value, stamp);
        StepRecovers(alg, Snapshot(), SaveJoin(stamp));
        UpdateRef(Joined(op.id), joined, SaveJoin(stamp));
        JoinWrites(alg, Snapshot(), stamp);
        StepRecovers(alg, Snapshot(), Join(stamp));
        Save(journal.value.(operation := Some(op.(result := Some(result.(head := joined))))), Join(stamp));
        JoinedIsSettled(result.head, join.value, stamp);
        JoinWrites(alg, Snapshot(), stamp);
      }
    }

    /** Phase `restoring`: drop the checkpoint commits from HEAD and restore the index. */
    method Restore(stamp: nat) returns (r: Outcome)
      requires Valid() && Recoverable(alg, Snapshot()) && Snapshot().Op().phase == Restoring
      modifies `branch, `index, `refs, `journal, `log
      ensures Valid() && old(log) < log && log[|log| - 1] == Finish
      ensures r == Ready(old(Snapshot()).Op().remote, branch, true)
      ensures Achieves(GoalOf(alg, old(Snapshot())), Snapshot())
      ensures Snapshot().Quiet() && journal.Some? && journal.value.baseline == r.remoteHead && journal.value.joinParent.None?
    {
      hide Enabled, Do, Recoverable, GoalOf, Legal, After, Achieves, Ancestor, JoinSettled;
      RecoverableIsOperating(alg, Snapshot());
      JoinTarget(stamp);
      RecoverableIsOperating(alg, Snapshot());
      RestoringAchieves(alg, Snapshot());
      RestoringWrites(alg, Snapshot());
      var op := journal.value.operation.value;
      var result := op.result.value;
      UpdateBranch(result.head, RestoreHead);
      ReadTree(result.index, RestoreIndex);
      Save(journal.value.(baseline := op.remote, operation := None, joinParent := None), Finish);
      r := Ready(op.remote, branch, true);
    }

    /** From whatever phase an earlier call reached, carry the journaled operation to its end. */
    method Continue(stamp: nat, stop: Option<Stop>) returns (r: Outcome)
      requires Valid() && Recoverable(alg, Snapshot()) && Snapshot().Operating() && Chain(Snapshot().Op())
      modifies `branch, `index, `worktree, `rebase, `refs, `journal, `log
      ensures Valid() && old(log) <= log
      ensures r.Ready? ==>
                && r == Ready(old(Snapshot()).Op().remote, branch, true)
                && Snapshot().Quiet() && journal.Some? && journal.value.baseline == r.remoteHead && journal.value.joinParent.None?
                && Achieves(GoalOf(alg, old(Snapshot())), Snapshot())
                && old(log) < log && log[|log| - 1] == Finish
      ensures !r.Ready? ==>
                && Recoverable(alg, Snapshot()) && Snapshot().Operating() && rebase.Some?
                && r == Conflicts(Snapshot().Op().remote, rebase.value)
      ensures !r.Ready? <==>
                old(rebase).Some? ||
                (stop.Some? && (old(Snapshot()).Op().phase == Captured
                                || (old(Snapshot()).Op().phase == Rebasing && old(branch == Snapshot().Op().work))))
    {
      hide Enabled, Do, Recoverable, GoalOf, Legal, After, Achieves, Ancestor, JoinSettled;
      if rebase.Some? {
        RebaseIsRebasing(alg, Snapshot());
      }
      if journal.value.operation.value.phase == Captured {
        MoveToCheckpoint();
      }
      if journal.value.operation.value.phase == Rebasing {
        var stopped := ReplayLocalWork(stop);
        if stopped.Some? {
          return stopped.value;
        }
      }
      r := Restore(stamp);
    }

    /** Everything up to the journal entry: None when an operation was journaled. */
    method Begin(given: Commit, remote: Commit, id: string, stamp: nat) returns (r: Option<Outcome>)
      requires Valid() && !Snapshot().Operating()
      requires Checkpoint(id) !in refs && Reconciled(id) !in refs
      modifies `branch, `refs, `journal, `receipt, `log
      ensures Valid() && old(log) <= log
      ensures r == Some(Refused) <==> old(Refuses(Snapshot(), given, remote))
      ensures r.None? <==> old(Rebases(Snapshot(), given, remote))
      ensures r.None? ==> Recoverable(alg, Snapshot()) && CapturedFrom(old(Snapshot()), given, remote, Snapshot())
      ensures r.Some? ==> !Snapshot().Operating()
      ensures r.Some? && r.value != Refused ==>
                && r == Some(Ready(remote, branch, false)) && branch == old(LocalHead(Snapshot())) && Ancestor(remote, branch)
                && Snapshot().Quiet() && journal.Some? && journal.value.baseline == remote && journal.value.joinParent.None?
                && old(NothingToReplay(Snapshot(), given, remote))
    {
      hide Enabled, Do, Recoverable, Legal, After, Ancestor;
      ghost var found := Snapshot();
      var ok := Integrate();
      if !ok {
        return Some(Refused);
      }
      assert LocalHead(Snapshot()) == LocalHead(found);
      assert KnownBaseline(Snapshot(), given, remote) == KnownBaseline(found, given, remote);
      r := Synchronize(given, remote, id, stamp);
      if r.Some? && r.value.Ready? {
        ContainedIsAncestor(found, given, remote);
      }
    }

    /**
     One call of `reconcileRepository`, from any durable state that an earlier, interrupted
     call may have left. It is refused exactly for the reasons of `Refuses`; it stops exactly
     at a rebase in progress or when the rebase it starts stops; otherwise it is ready. It
     reports a change exactly when there was an operation to complete or something to replay,
     and then HEAD, index and working tree are those of the replay.
     */
    method Reconcile(given: Commit, remote: Commit, id: string, stamp: nat, stop: Option<Stop>) returns (r: Outcome)
      requires Valid() && Resumable()
      requires Checkpoint(id) !in refs && Reconciled(id) !in refs
      modifies this
      ensures Valid() && Resumable() && old(log) <= log
      ensures r.Refused? <==> old(Refuses(Snapshot(), given, remote))
      ensures r.Conflicts? <==>
                old(Snapshot().Operating() && rebase.Some?) || (stop.Some? && old(Rebases(Snapshot(), given, remote)))
      ensures r.Ready? ==>
                && Snapshot().Quiet() && branch == r.headSha
                && journal.Some? && journal.value.baseline == r.remoteHead && journal.value.joinParent.None?
                && r.remoteHead == (if old(Snapshot().Operating()) then old(Snapshot()).Op().remote else remote)
                && (r.changed <==> old(Snapshot().Operating() || !NothingToReplay(Snapshot(), given, remote)))
                && (Grounded(alg) ==> Ancestor(r.remoteHead, branch))
      ensures r.Ready? && r.changed ==> old(log) < log && log[|log| - 1] == Finish
      ensures r.Ready? && r.changed ==>
                if old(Snapshot().Operating())
                then Chain(old(Snapshot()).Op()) && Achieves(GoalOf(alg, old(Snapshot())), Snapshot())
                else MovedOnto(alg, old(Snapshot()), given, remote, Snapshot())
      ensures r.Ready? && !r.changed ==> branch == old(LocalHead(Snapshot())) && index == old(index) && worktree == old(worktree)
      ensures r.Conflicts? ==>
                Snapshot().Operating() && rebase == Some(r.headSha) && Snapshot().Op().remote == r.remoteHead
      ensures r.Refused? ==> !Snapshot().Operating() && index == old(index) && worktree == old(worktree)
    {
      hide Enabled, Do, Recoverable, GoalOf, Legal, After, Achieves, Ancestor, JoinSettled, MovedOnto, Grounded;
      hide Refuses, NothingToReplay, Rebases, LocalHead, ReplayFrom;
      ghost var found := Snapshot();
      WhenRebasing(found, given, remote);
      if journal.None? || journal.value.operation.None? {
        var early := Begin(given, remote, id, stamp);
        if early.Some? {
          return early.value;
        }
      }
      RecoverableIsOperating(alg, Snapshot());
      ghost var operating := Snapshot();
      r := Continue(stamp, stop);
      if r.Ready? {
        GoalContainsRemote(alg, operating, Snapshot());
        if !found.Operating() {
          CapturedWorkMoves(alg, found, given, remote, operating, Snapshot());
        }
      }
    }

    // -------------------------------------------------------------- the other writers of the journal

    /** Keep a finished target rebase as one local change when its source lease has changed. */
    method RetainConcurrentRebase(baseline: Commit, rebasedHead: Commit, target: Commit, stamp: nat) returns (ok: bool)
      requires Valid()
      modifies `journal, `log
      ensures Valid()
      ensures ok <==> old(Snapshot().Quiet()) && branch == rebasedHead && index == branch.tree && worktree == branch.tree
      ensures ok ==> log == old(log) + [Retain(baseline, target, stamp)] && JoinIsPending(alg, Snapshot(), target)
      ensures !ok ==> Snapshot() == old(Snapshot()) && log == old(log)
    {
      hide Legal, After, Ancestor;
      if journal.Some? && (journal.value.operation.Some? || journal.value.integration.Some?) {
        return false;
      }
      if rebase.Some? || branch != rebasedHead || index != branch.tree || worktree != branch.tree {
        return false;
      }
      var published := if journal.Some? then journal.value.published else None;
      var delta := Commit([baseline], rebasedHead.tree, REPAIR_SUBJECT, stamp);
      Save(Journal(baseline, true, published, Some(target), Some(Integration(rebasedHead, delta)), None),
           Retain(baseline, target, stamp));
      ok := true;
    }

    /** Record a publication that the remote was seen to hold. */
    method RecordPublication(head: Commit) returns (ok: bool)
      requires Valid()
      modifies `journal, `log
      ensures Valid()
      ensures ok <==> old(!Snapshot().Operating())
      ensures ok ==> log == old(log) + [Acknowledge(head)]
                     && journal == Some(Journal(head, true, Some(head), None, None, None))
      ensures !ok ==> Snapshot() == old(Snapshot()) && log == old(log)
    {
      hide Legal, After, Ancestor;
      if journal.Some? && journal.value.operation.Some? {
        return false;
      }
      Save(Journal(head, true, Some(head), None, None, None), Acknowledge(head));
      ok := true;
    }
  }
}
