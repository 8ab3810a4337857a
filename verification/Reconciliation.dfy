/**
 The reconciliation journal as a transition system over durable state.

 `Repo` holds everything that survives a worker: the work branch, the index, the working
 tree, Git's own rebase state, the private refs and the two records under `.git`. Each
 Git command that writes, and each record save, is one `Action`. A worker that dies leaves
 the durable state exactly as its last completed action left it, and the next worker
 starts again from what it reads there. So every schedule of crashes and re-runs is a
 sequence of enabled actions, and a statement about all such sequences is a statement
 about all schedules.
 */
module Reconciliation {
  import opened Git

  const INDEX_SUBJECT := "Leitwerk index checkpoint "
  const WORK_SUBJECT := "Leitwerk worktree checkpoint "
  const JOIN_SUBJECT := "Integrate target branch with concurrent source changes"
  const REPAIR_SUBJECT := "Reconcile target-branch repair"

  // ---------------------------------------------------------------- durable state

  datatype Phase = Captured | Rebasing | Restoring

  /** `resultHead` and `resultIndex`, which are always written together. */
  datatype Result = Result(head: Commit, index: Tree)

  datatype Operation = Operation(
    id: string, head: Commit, index: Commit, work: Commit, remote: Commit,
    phase: Phase, result: Option<Result>)

  datatype Integration = Integration(previous: Commit, replacement: Commit)

  datatype Journal = Journal(
    baseline: Commit, remoteSeen: bool, published: Option<Commit>,
    joinParent: Option<Commit>, integration: Option<Integration>, operation: Option<Operation>)

  datatype Status = Attempting | Accepted | Rejected

  datatype Receipt = Receipt(expectedHead: Option<Commit>, candidate: Commit, status: Status)

  datatype Ref = Fetched | Checkpoint(id: string) | Reconciled(id: string) | Joined(id: string)

  /** `rebase` is the detached HEAD of an unfinished `git rebase`, when there is one. */
  datatype Repo = Repo(
    branch: Commit, index: Tree, worktree: Tree, rebase: Option<Commit>,
    refs: map<Ref, Commit>, journal: Option<Journal>, receipt: Option<Receipt>)
  {
    predicate Operating() {
      journal.Some? && journal.value.operation.Some?
    }

    function Op(): Operation
      requires Operating()
    {
      journal.value.operation.value
    }

    predicate Integrating() {
      journal.Some? && journal.value.integration.Some?
    }

    /** The state in which `reconcileRepository` looks at the remote. */
    predicate Quiet() {
      !Operating() && !Integrating() && rebase.None?
    }

    function JoinParent(): Option<Commit> {
      if journal.Some? then journal.value.joinParent else None
    }

    function WithOp(op: Operation): Repo
      requires journal.Some?
    {
      this.(journal := Some(journal.value.(operation := Some(op))))
    }
  }

  /**
   How `git rebase` rewrites history: `rewrite(head, base, onto)` is the replay of
   `base..head` on `onto`, whatever its shape, and `merge` redoes a single change. Both
   include the resolutions an agent makes when the rebase stops.
   */
  datatype Algorithm = Algorithm(rewrite: (Commit, Commit, Commit) -> Commit, merge: Merge)

  function IndexCheckpoint(id: string, head: Commit, index: Tree, stamp: nat): Commit {
    Commit([head], index, INDEX_SUBJECT + id, stamp)
  }

  function WorkCheckpoint(id: string, index: Commit, worktree: Tree, stamp: nat): Commit {
    Commit([index], worktree, WORK_SUBJECT + id, stamp)
  }

  /** The commit chain work -> index -> head that a checkpoint ref must reach. */
  predicate Chain(op: Operation) {
    && op.work.parents == [op.index]
    && op.work.subject == WORK_SUBJECT + op.id
    && op.index.parents == [op.head]
    && op.index.subject == INDEX_SUBJECT + op.id
  }

  /** HEAD when the rebase of an operation has finished. */
  function RebasedHead(alg: Algorithm, op: Operation, base: Commit): Commit {
    alg.rewrite(op.head, base, op.remote)
  }

  function RebasedIndex(alg: Algorithm, op: Operation, base: Commit): Commit
    requires Chain(op)
  {
    Pick(op.index, RebasedHead(alg, op, base), alg.merge)
  }

  function RebasedWork(alg: Algorithm, op: Operation, base: Commit): Commit
    requires Chain(op)
  {
    Pick(op.work, RebasedIndex(alg, op, base), alg.merge)
  }

  function JoinCommit(head: Commit, parent: Commit, stamp: nat): Commit {
    Commit([head, parent], head.tree, JOIN_SUBJECT, stamp)
  }

  /** `head` needs no join: none was asked for, or it already descends from the target. */
  predicate JoinSettled(join: Option<Commit>, head: Commit) {
    join.None? || Ancestor(join.value, head)
  }

  // ---------------------------------------------------------------- what a run reads

  function Candidate(s: Repo): Option<Commit> {
    if s.receipt.Some? && s.receipt.value.status.Accepted? then Some(s.receipt.value.candidate) else None
  }

  /** The baseline of unpublished work: an accepted publication that was never acknowledged replaces the retained one. */
  function Baseline(s: Repo, given: Commit): Commit {
    var retained := if s.journal.Some? then s.journal.value.baseline else given;
    var acknowledged := if s.journal.Some? then s.journal.value.published else None;
    if Candidate(s).Some? && acknowledged != Candidate(s) then Candidate(s).value else retained
  }

  function Refreshed(s: Repo, baseline: Commit): Journal {
    Journal(
      baseline, true,
      if Candidate(s).Some? then Candidate(s) else if s.journal.Some? then s.journal.value.published else None,
      s.JoinParent(), None, None)
  }

  /** The remote was fetched, no publication is in doubt and the baseline is established. */
  predicate Synchronizable(s: Repo, given: Commit) {
    && s.Quiet()
    && Fetched in s.refs
    && (s.receipt.Some? ==> !s.receipt.value.status.Attempting?)
    && Ancestor(Baseline(s, given), s.branch)
  }

  /** The early exit: there is nothing to replay. */
  predicate UpToDate(s: Repo, given: Commit)
    requires Fetched in s.refs
  {
    && (s.refs[Fetched] == Baseline(s, given) || s.refs[Fetched] == s.branch)
    && s.JoinParent().None?
  }

  /** A remote that already contains HEAD leaves nothing to replay. */
  function ReplayBase(s: Repo, given: Commit): Commit
    requires Fetched in s.refs
  {
    if Ancestor(s.branch, s.refs[Fetched]) then s.branch else Baseline(s, given)
  }

  function NewOperation(s: Repo, id: string, stamp: nat): Operation
    requires Fetched in s.refs
  {
    var index := IndexCheckpoint(id, s.branch, s.index, stamp);
    var work := WorkCheckpoint(id, index, s.worktree, stamp);
    Operation(id, s.branch, index, work, s.refs[Fetched], Captured, None)
  }

  // ---------------------------------------------------------------- actions

  datatype Action =
    // the agent or an operator, only while no reconciliation is journaled
    | Edit(branch: Commit, index: Tree, worktree: Tree)
    | Receive(receipt: Receipt)
    // retainConcurrentRebase and recordRepositoryPublication
    | Retain(baseline: Commit, target: Commit, replacementStamp: nat)
    | Acknowledge(head: Commit)
    // reconcileRepository, in program order
    | Integrate
    | ClearIntegration
    | Fetch(remote: Commit)
    | Accept
    | Confirm(given: Commit)
    | SaveCheckpoint(id: string, stamp: nat)
    | Capture(id: string, stamp: nat, given: Commit)
    | ReadWork
    | MoveToWork
    | MarkRebasing
    | StopRebase(detached: Commit, index: Tree, worktree: Tree)
    | AbortRebase
    | FinishRebase
    | SaveReconciled
    | MarkRestoring
    | SaveJoin(stamp: nat)
    | Join(stamp: nat)
    | RestoreHead
    | RestoreIndex
    | Finish

  predicate InPhase(s: Repo, phase: Phase) {
    s.Operating() && s.Op().phase == phase && Chain(s.Op())
  }

  predicate Enabled(alg: Algorithm, s: Repo, a: Action) {
    match a
    case Edit(_, _, _) => s.Quiet()
    case Receive(_) => !s.Operating()
    case Retain(_, _, _) => s.Quiet() && s.index == s.branch.tree && s.worktree == s.branch.tree
    case Acknowledge(_) => !s.Operating()
    case Integrate =>
      s.Integrating() && s.rebase.None? && s.branch == s.journal.value.integration.value.previous
    case ClearIntegration =>
      s.Integrating() && s.rebase.None? && s.branch == s.journal.value.integration.value.replacement
    case Fetch(_) => s.Quiet()
    case Accept =>
      && s.Quiet() && Fetched in s.refs
      && s.receipt.Some? && s.receipt.value.status.Attempting?
      && Ancestor(s.receipt.value.candidate, s.refs[Fetched])
    case Confirm(given) => Synchronizable(s, given) && UpToDate(s, given)
    case SaveCheckpoint(id, _) =>
      s.Quiet() && Fetched in s.refs && Checkpoint(id) !in s.refs && Reconciled(id) !in s.refs
    case Capture(id, stamp, given) =>
      && Synchronizable(s, given) && !UpToDate(s, given)
      && Reconciled(id) !in s.refs
      && Checkpoint(id) in s.refs && s.refs[Checkpoint(id)] == NewOperation(s, id, stamp).work
    case ReadWork =>
      && InPhase(s, Captured) && s.rebase.None?
      && s.branch in {s.Op().head, s.Op().work}
      && s.index in {s.Op().index.tree, s.Op().work.tree}
    case MoveToWork =>
      InPhase(s, Captured) && s.rebase.None? && s.branch == s.Op().head && s.index == s.Op().work.tree
    case MarkRebasing =>
      InPhase(s, Captured) && s.rebase.None? && s.branch == s.Op().work && s.index == s.Op().work.tree
    case StopRebase(_, _, _) => InPhase(s, Rebasing) && s.branch == s.Op().work
    case AbortRebase => InPhase(s, Rebasing) && s.branch == s.Op().work && s.rebase.Some?
    case FinishRebase => InPhase(s, Rebasing) && s.branch == s.Op().work
    case SaveReconciled =>
      && InPhase(s, Rebasing) && s.rebase.None?
      && s.branch == RebasedWork(alg, s.Op(), s.journal.value.baseline)
    case MarkRestoring =>
      && InPhase(s, Rebasing) && s.rebase.None?
      && s.branch == RebasedWork(alg, s.Op(), s.journal.value.baseline)
      && Reconciled(s.Op().id) in s.refs && s.refs[Reconciled(s.Op().id)] == s.branch
    case SaveJoin(_) => JoinPending(s)
    case Join(stamp) =>
      && JoinPending(s)
      && Joined(s.Op().id) in s.refs
      && s.refs[Joined(s.Op().id)] == JoinCommit(s.Op().result.value.head, s.JoinParent().value, stamp)
    case RestoreHead =>
      && Restorable(s)
      && s.branch in {s.Op().result.value.head, s.refs[Reconciled(s.Op().id)]}
      && s.index in {s.Op().result.value.index, s.refs[Reconciled(s.Op().id)].tree}
    case RestoreIndex => Restorable(s) && s.branch == s.Op().result.value.head
    case Finish =>
      Restorable(s) && s.branch == s.Op().result.value.head && s.index == s.Op().result.value.index
  }

  predicate JoinPending(s: Repo) {
    && InPhase(s, Restoring) && s.Op().result.Some?
    && !JoinSettled(s.JoinParent(), s.Op().result.value.head)
  }

  predicate Restorable(s: Repo) {
    && InPhase(s, Restoring) && s.rebase.None? && s.Op().result.Some?
    && Reconciled(s.Op().id) in s.refs
    && JoinSettled(s.JoinParent(), s.Op().result.value.head)
  }

  function Do(alg: Algorithm, s: Repo, a: Action): Repo
    requires Enabled(alg, s, a)
  {
    match a
    case Edit(branch, index, worktree) => s.(branch := branch, index := index, worktree := worktree)
    case Receive(receipt) => s.(receipt := Some(receipt))
    case Retain(baseline, target, stamp) =>
      s.(journal := Some(Journal(
        baseline, true, if s.journal.Some? then s.journal.value.published else None, Some(target),
        Some(Integration(s.branch, Commit([baseline], s.branch.tree, REPAIR_SUBJECT, stamp))), None)))
    case Acknowledge(head) => s.(journal := Some(Journal(head, true, Some(head), None, None, None)))
    case Integrate => s.(branch := s.journal.value.integration.value.replacement)
    case ClearIntegration => s.(journal := Some(s.journal.value.(integration := None)))
    case Fetch(remote) => s.(refs := s.refs[Fetched := remote])
    case Accept => s.(receipt := Some(s.receipt.value.(status := Accepted)))
    case Confirm(given) => s.(journal := Some(Refreshed(s, s.refs[Fetched])))
    case SaveCheckpoint(id, stamp) => s.(refs := s.refs[Checkpoint(id) := NewOperation(s, id, stamp).work])
    case Capture(id, stamp, given) =>
      s.(journal := Some(Refreshed(s, ReplayBase(s, given)).(operation := Some(NewOperation(s, id, stamp)))))
    case ReadWork => s.(index := s.Op().work.tree)
    case MoveToWork => s.(branch := s.Op().work)
    case MarkRebasing => s.WithOp(s.Op().(phase := Rebasing))
    case StopRebase(detached, index, worktree) =>
      s.(rebase := Some(detached), index := index, worktree := worktree)
    case AbortRebase => s.(rebase := None, index := s.Op().work.tree, worktree := s.Op().work.tree)
    case FinishRebase =>
      var r := RebasedWork(alg, s.Op(), s.journal.value.baseline);
      s.(rebase := None, branch := r, index := r.tree, worktree := r.tree)
    case SaveReconciled => s.(refs := s.refs[Reconciled(s.Op().id) := s.branch])
    case MarkRestoring =>
      var index := s.branch.parents[0];
      s.WithOp(s.Op().(phase := Restoring, result := Some(Result(index.parents[0], index.tree))))
    case SaveJoin(stamp) =>
      s.(refs := s.refs[Joined(s.Op().id) := JoinCommit(s.Op().result.value.head, s.JoinParent().value, stamp)])
    case Join(stamp) =>
      var r := s.Op().result.value;
      s.WithOp(s.Op().(result := Some(r.(head := JoinCommit(r.head, s.JoinParent().value, stamp)))))
    case RestoreHead => s.(branch := s.Op().result.value.head)
    case RestoreIndex => s.(index := s.Op().result.value.index)
    case Finish =>
      s.(journal := Some(s.journal.value.(baseline := s.Op().remote, operation := None, joinParent := None)))
  }

  // ---------------------------------------------------------------- runs

  /** Every action of the run was enabled when it was taken. */
  predicate Legal(alg: Algorithm, s: Repo, run: seq<Action>)
    decreases |run|, 0
  {
    run == [] ||
    var before := run[..|run| - 1];
    Legal(alg, s, before) && Enabled(alg, After(alg, s, before), run[|run| - 1])
  }

  function After(alg: Algorithm, s: Repo, run: seq<Action>): Repo
    requires Legal(alg, s, run)
    decreases |run|, 1
  {
    if run == [] then s else
      var before := run[..|run| - 1];
      Do(alg, After(alg, s, before), run[|run| - 1])
  }

  lemma Extend(alg: Algorithm, s: Repo, run: seq<Action>, a: Action)
    requires Legal(alg, s, run) && Enabled(alg, After(alg, s, run), a)
    ensures Legal(alg, s, run + [a])
    ensures After(alg, s, run + [a]) == Do(alg, After(alg, s, run), a)
  {
    hide Enabled, Do;
    assert (run + [a])[..|run|] == run;
  }

  /** A crash cuts a run short, and what was done up to then is itself a run. */
  lemma {:induction false} PrefixIsLegal(alg: Algorithm, s: Repo, run: seq<Action>, k: nat)
    requires Legal(alg, s, run) && k <= |run|
    ensures Legal(alg, s, run[..k])
  {
    hide Enabled, Do;
    if k < |run| {
      PrefixIsLegal(alg, s, run[..|run| - 1], k);
      assert run[..|run| - 1][..k] == run[..k];
    } else {
      assert run[..k] == run;
    }
  }

  /** The re-run after a crash continues from the durable state, so two runs join into one. */
  lemma {:induction false} Resume(alg: Algorithm, s: Repo, first: seq<Action>, second: seq<Action>)
    requires Legal(alg, s, first) && Legal(alg, After(alg, s, first), second)
    ensures Legal(alg, s, first + second)
    ensures After(alg, s, first + second) == After(alg, After(alg, s, first), second)
    decreases |second|
  {
    hide Enabled, Do;
    if second == [] {
      assert first + second == first;
    } else {
      var init, a := second[..|second| - 1], second[|second| - 1];
      Resume(alg, s, first, init);
      Extend(alg, s, first + init, a);
      assert first + second == first + init + [a];
    }
  }
}
