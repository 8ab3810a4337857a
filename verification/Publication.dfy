/**
 Publishing the work branch: the write-ahead receipt around a compare-and-swap push.

 `World` holds the remote branch, the durable receipt, and the volatile progress of one
 delivery run. Other pushers may set the remote to anything at any time, and the worker
 may stop between any two actions; both are actions of the system, so a statement about
 every legal sequence of actions covers every interleaving and every crash schedule.
 */
module Publication {
  import opened Git
  import R = Reconciliation

  datatype Reply = Done | Denied | Lost

  /** How far the current delivery run has got. None of this survives the worker. */
  datatype Run =
    | Idle
    | Fetched(remote: Commit)
    | Synced(lease: Option<Commit>)
    | Committed(lease: Option<Commit>, candidate: Commit)
    | Observed(lease: Option<Commit>, candidate: Commit, seen: Option<Commit>)
    | Armed(lease: Option<Commit>, candidate: Commit)
    | Replied(lease: Option<Commit>, candidate: Commit, reply: Reply)
    | Rechecking(lease: Option<Commit>, candidate: Commit)
    | Confirmed(lease: Option<Commit>, candidate: Commit)
    | Verifying(candidate: Commit)
    | Published(candidate: Commit)

  /** A move of the remote branch made by the worker. */
  datatype Update = Update(from: Option<Commit>, to: Commit, lease: Option<Commit>)

  /**
   `history` lists every value the remote branch has had. `doubt` holds the candidates of
   pushes whose effect has not been established yet.
   */
  datatype World = World(
    remote: Option<Commit>, history: seq<Option<Commit>>, head: Commit, receipt: Option<R.Receipt>,
    remoteSeen: bool, acknowledged: Option<Commit>, run: Run, updates: seq<Update>, doubt: set<Commit>)

  predicate Has(receipt: Option<R.Receipt>, status: R.Status) {
    receipt.Some? && receipt.value.status == status
  }

  /** What `pushAndVerify` does with what it observed, before it sends anything. */
  datatype Decision = AlreadyThere | Unresolved | Changed | NotDescendant | Send

  function Decide(receipt: Option<R.Receipt>, lease: Option<Commit>, candidate: Commit, seen: Option<Commit>): Decision {
    if seen == Some(candidate) then AlreadyThere
    else if Has(receipt, R.Attempting) then Unresolved
    else if Has(receipt, R.Accepted) && receipt.value.candidate == candidate then Changed
    else if seen != lease then Changed
    else if lease.Some? && !Ancestor(lease.value, candidate) then NotDescendant
    else Send
  }

  datatype Action =
    | Develop(value: Option<Commit>)
    | Edit(head: Commit)
    | Stop
    // reconcilePublicationRepository
    | FetchSource
    | Resolve
    | FindAbsent
    // commitAndPushWorkBranch
    | CommitWork(candidate: Commit)
    | Observe
    | Recognise
    | Intend
    | Push(applied: bool, reply: Reply)
    | SaveAccepted
    | SaveRejected
    | TolerateLoss
    | Recheck
    | SaveConfirmed
    | Verify
    | Acknowledge

  predicate Enabled(w: World, a: Action) {
    match a
    case Develop(_) => true
    case Edit(_) => w.run.Idle?
    case Stop => true
    case FetchSource => w.run.Idle? && w.remote.Some?
    case Resolve =>
      && w.run.Fetched?
      && (Has(w.receipt, R.Attempting) ==> Ancestor(w.receipt.value.candidate, w.run.remote))
    case FindAbsent =>
      && w.run.Idle? && w.remote.None? && !w.remoteSeen
      && (w.receipt.None? || (Has(w.receipt, R.Rejected) && w.receipt.value.expectedHead.None?))
    case CommitWork(candidate) => w.run.Synced? && (candidate == w.head || candidate.parents == [w.head])
    case Observe => w.run.Committed?
    case Recognise =>
      w.run.Observed? && Decide(w.receipt, w.run.lease, w.run.candidate, w.run.seen) == AlreadyThere
    case Intend => w.run.Observed? && Decide(w.receipt, w.run.lease, w.run.candidate, w.run.seen) == Send
    case Push(applied, reply) =>
      && w.run.Armed?
      // force-with-lease is an atomic compare-and-swap; its reply may be lost
      && (applied ==> w.remote == w.run.lease && reply != Denied)
      && (reply == Done ==> applied || w.remote == Some(w.run.candidate))
    case SaveAccepted => w.run.Replied? && w.run.reply == Done
    case SaveRejected => w.run.Replied? && w.run.reply == Denied
    case TolerateLoss => w.run.Replied? && w.run.reply == Lost
    case Recheck => w.run.Rechecking? && w.remote == Some(w.run.candidate)
    case SaveConfirmed => w.run.Confirmed?
    case Verify => w.run.Verifying? && w.remote == Some(w.run.candidate)
    case Acknowledge => w.run.Published?
  }

  function Receive(w: World, lease: Option<Commit>, candidate: Commit, status: R.Status, run: Run): World {
    w.(receipt := Some(R.Receipt(lease, candidate, status)), run := run,
       doubt := if status == R.Attempting then w.doubt else w.doubt - {candidate})
  }

  function Do(w: World, a: Action): World
    requires Enabled(w, a)
  {
    match a
    case Develop(head) => w.(remote := head, history := w.history + [head])
    case Edit(head) => w.(head := head)
    case Stop => w.(run := Idle)
    case FetchSource => w.(run := Fetched(w.remote.value))
    case Resolve =>
      var resolved :=
        if Has(w.receipt, R.Attempting)
        then w.(receipt := Some(w.receipt.value.(status := R.Accepted)), doubt := w.doubt - {w.receipt.value.candidate})
        else w;
      resolved.(remoteSeen := true, run := Synced(Some(w.run.remote)))
    case FindAbsent => w.(run := Synced(None))
    case CommitWork(candidate) => w.(head := candidate, run := Committed(w.run.lease, candidate))
    case Observe => w.(run := Observed(w.run.lease, w.run.candidate, w.remote))
    case Recognise => Receive(w, w.run.lease, w.run.candidate, R.Accepted, Published(w.run.candidate))
    case Intend => Receive(w, w.run.lease, w.run.candidate, R.Attempting, Armed(w.run.lease, w.run.candidate))
    case Push(applied, reply) =>
      var sent := w.(run := Replied(w.run.lease, w.run.candidate, reply), doubt := w.doubt + {w.run.candidate});
      if applied
      then sent.(remote := Some(w.run.candidate), history := w.history + [Some(w.run.candidate)],
                 updates := w.updates + [Update(w.remote, w.run.candidate, w.run.lease)])
      else sent
    case SaveAccepted => Receive(w, w.run.lease, w.run.candidate, R.Accepted, Verifying(w.run.candidate))
    case SaveRejected =>
      Receive(w, w.run.lease, w.run.candidate, R.Rejected, Rechecking(w.run.lease, w.run.candidate))
    case TolerateLoss => w.(run := Rechecking(w.run.lease, w.run.candidate))
    case Recheck => w.(run := Confirmed(w.run.lease, w.run.candidate))
    case SaveConfirmed => Receive(w, w.run.lease, w.run.candidate, R.Accepted, Published(w.run.candidate))
    case Verify => w.(run := Published(w.run.candidate))
    // the same run may go on to publish an adjustment, on top of what it published
    case Acknowledge => w.(acknowledged := Some(w.run.candidate), remoteSeen := true, run := Synced(Some(w.run.candidate)))
  }

  predicate Legal(w: World, run: seq<Action>)
    decreases |run|, 0
  {
    run == [] ||
    var before := run[..|run| - 1];
    Legal(w, before) && Enabled(After(w, before), run[|run| - 1])
  }

  function After(w: World, run: seq<Action>): World
    requires Legal(w, run)
    decreases |run|, 1
  {
    if run == [] then w else
      var before := run[..|run| - 1];
      Do(After(w, before), run[|run| - 1])
  }

  lemma Extend(w: World, run: seq<Action>, a: Action)
    requires Legal(w, run) && Enabled(After(w, run), a)
    ensures Legal(w, run + [a]) && After(w, run + [a]) == Do(After(w, run), a)
  {
    hide Enabled, Do;
    assert (run + [a])[..|run|] == run;
  }

  // ---------------------------------------------------------------- the invariant

  /** At some time the remote held `c` or a descendant of it. */
  ghost predicate Contained(history: seq<Option<Commit>>, c: Commit) {
    exists i :: 0 <= i < |history| && history[i].Some? && Ancestor(c, history[i].value)
  }

  predicate Preserving(u: Update) {
    u.from == u.lease && (u.from.Some? ==> Ancestor(u.from.value, u.to))
  }

  /** What the volatile progress of a run stands for. */
  ghost predicate RunFacts(w: World) {
    match w.run
    case Fetched(r) => Some(r) in w.history
    case Synced(lease) => (lease.Some? ==> lease in w.history) && Settled(w)
    case Committed(lease, _) => (lease.Some? ==> lease in w.history) && Settled(w)
    case Observed(lease, _, seen) => (lease.Some? ==> lease in w.history) && seen in w.history && Settled(w)
    case Armed(lease, c) =>
      && (lease.Some? ==> lease in w.history && Ancestor(lease.value, c))
      && w.receipt == Some(R.Receipt(lease, c, R.Attempting)) && w.doubt == {}
    case Replied(lease, c, reply) =>
      && w.receipt == Some(R.Receipt(lease, c, R.Attempting)) && (reply == Done ==> Some(c) in w.history)
      && w.doubt <= {c}
    case Rechecking(lease, c) =>
      && w.receipt.Some? && w.receipt.value.(status := R.Rejected) == R.Receipt(lease, c, R.Rejected)
      && w.doubt <= {c}
    case Confirmed(lease, c) =>
      && Some(c) in w.history && w.doubt <= {c}
      && w.receipt.Some? && w.receipt.value.(status := R.Rejected) == R.Receipt(lease, c, R.Rejected)
    case Verifying(_) => Settled(w)
    case Published(c) => Some(c) in w.history && Settled(w)
    case _ => true
  }

  /** No earlier publication is unresolved. */
  predicate Settled(w: World) {
    !Has(w.receipt, R.Attempting) && w.doubt == {}
  }

  ghost predicate Inv(w: World) {
    && |w.history| > 0 && w.history[|w.history| - 1] == w.remote
    && (Has(w.receipt, R.Accepted) ==> Contained(w.history, w.receipt.value.candidate))
    && (w.doubt == {} || (Has(w.receipt, R.Attempting) && w.doubt == {w.receipt.value.candidate}))
    && (forall i :: 0 <= i < |w.updates| ==> Preserving(w.updates[i]))
    && RunFacts(w)
  }

  lemma ContainedGrows(history: seq<Option<Commit>>, more: seq<Option<Commit>>, c: Commit)
    requires Contained(history, c)
    ensures Contained(history + more, c)
  {
    var i :| 0 <= i < |history| && history[i].Some? && Ancestor(c, history[i].value);
    assert (history + more)[i] == history[i];
  }

  lemma SeenIsContained(history: seq<Option<Commit>>, c: Commit, h: Commit)
    requires Some(h) in history && Ancestor(c, h)
    ensures Contained(history, c)
  {
    var i :| 0 <= i < |history| && history[i] == Some(h);
    assert history[i].Some? && Ancestor(c, history[i].value);
  }

  lemma StepKeepsInv(w: World, a: Action)
    requires Inv(w) && Enabled(w, a)
    ensures Inv(Do(w, a))
  {
    hide Ancestor, Decide;
    match a
    case Develop(head) =>
      if Has(w.receipt, R.Accepted) {
        ContainedGrows(w.history, [head], w.receipt.value.candidate);
      }
    case Resolve =>
      if Has(w.receipt, R.Attempting) {
        SeenIsContained(w.history, w.receipt.value.candidate, w.run.remote);
      }
    case Push(applied, reply) => PushKeepsInv(w, applied, reply);
    case Recognise => DecidingKeepsInv(w, a);
    case Intend => DecidingKeepsInv(w, a);
    case SaveAccepted => AcceptedIsContained(w.history, w.run.candidate);
    case SaveConfirmed => AcceptedIsContained(w.history, w.run.candidate);
    case _ =>
  }

  lemma DecidingKeepsInv(w: World, a: Action)
    requires Inv(w) && Enabled(w, a) && (a.Recognise? || a.Intend?)
    ensures Inv(Do(w, a))
  {
    hide Ancestor;
    if a.Recognise? {
      AcceptedIsContained(w.history, w.run.candidate);
    } else {
      LeaseIsPreserved(w);
    }
  }

  lemma AcceptedIsContained(history: seq<Option<Commit>>, c: Commit)
    requires Some(c) in history
    ensures Contained(history, c)
  {
    SeenIsContained(history, c, c);
  }

  lemma LeaseIsPreserved(w: World)
    requires w.run.Observed? && Decide(w.receipt, w.run.lease, w.run.candidate, w.run.seen) == Send
    ensures w.run.lease.Some? ==> Ancestor(w.run.lease.value, w.run.candidate)
    ensures !Has(w.receipt, R.Attempting)
  {
  }

  lemma PushKeepsInv(w: World, applied: bool, reply: Reply)
    requires Inv(w) && Enabled(w, Push(applied, reply))
    ensures Inv(Do(w, Push(applied, reply)))
  {
    hide Ancestor, Contained;
    var w' := Do(w, Push(applied, reply));
    if applied {
      assert w'.history[|w.history|] == Some(w.run.candidate);
      assert Preserving(w'.updates[|w.updates|]);
    } else if reply == Done {
      assert w.history[|w.history| - 1] == Some(w.run.candidate);
    }
  }

  /** Before delivery has ever started. */
  predicate Initial(w: World) {
    w.history == [w.remote] && w.receipt.None? && w.run.Idle? && w.updates == [] && w.doubt == {}
  }

  lemma {:induction false} InvHolds(w: World, run: seq<Action>)
    requires Inv(w) && Legal(w, run)
    ensures Inv(After(w, run))
  {
    hide Enabled, Do, Inv;
    if run != [] {
      InvHolds(w, run[..|run| - 1]);
      StepKeepsInv(After(w, run[..|run| - 1]), run[|run| - 1]);
    }
  }

  // ---------------------------------------------------------------- what delivery promises

  /**
   Receipts tell the truth: an accepted candidate was at some time the remote head or an
   ancestor of it. At most one publication is ever in doubt, its receipt says so, and no
   push is sent before it is resolved.
   */
  lemma ReceiptsTellTheTruth(w: World, run: seq<Action>, applied: bool, reply: Reply)
    requires Initial(w) && Legal(w, run)
    ensures var t := After(w, run);
            && (Has(t.receipt, R.Accepted) ==> Contained(t.history, t.receipt.value.candidate))
            && (t.doubt == {} || (Has(t.receipt, R.Attempting) && t.doubt == {t.receipt.value.candidate}))
            && (Enabled(t, Push(applied, reply)) ==>
                  t.doubt == {} && t.receipt == Some(R.Receipt(t.run.lease, t.run.candidate, R.Attempting)))
  {
    InvHolds(w, run);
  }

  /**
   No developer commit is dropped: every move of the remote that the worker makes starts
   from exactly the head its own run fetched and ends at a descendant of it, so whatever
   the remote contained before, it still contains.
   */
  lemma WorkerNeverDropsCommits(w: World, run: seq<Action>, i: nat, c: Commit)
    requires Initial(w) && Legal(w, run) && i < |After(w, run).updates|
    ensures var u := After(w, run).updates[i];
            && u.from == u.lease
            && (u.from.Some? && Ancestor(c, u.from.value) ==> Ancestor(c, u.to))
  {
    InvHolds(w, run);
    var u := After(w, run).updates[i];
    assert Preserving(u);
    if u.from.Some? && Ancestor(c, u.from.value) {
      AncestorTransitive(c, u.from.value, u.to);
    }
  }

  /**
   The lease of every push was fetched by the run that sends it, after that run started, or
   is what the same run has published and acknowledged before.
   */
  lemma {:induction false} LeaseIsFetchedByTheSameRun(w: World, run: seq<Action>) returns (k: nat)
    requires w.run.Idle? && Legal(w, run)
    requires After(w, run).run.Armed?
    ensures k < |run| && Legal(w, run[..k]) && (run[k].FetchSource? || run[k].FindAbsent? || run[k].Acknowledge?)
    ensures Enabled(After(w, run[..k]), run[k]) && After(w, run).run.lease == Leased(After(w, run[..k]), run[k])
    ensures forall j :: k < j < |run| ==> !run[j].Stop? && !run[j].Edit?
  {
    k := LeaseOrigin(w, run);
  }

  /** The lease that an action gives to the rest of its run. */
  function Leased(w: World, a: Action): Option<Commit>
    requires Enabled(w, a)
  {
    if a.Acknowledge? then Some(w.run.candidate) else w.remote
  }

  function LeaseOf(run: Run): Option<Option<Commit>> {
    match run
    case Fetched(r) => Some(Some(r))
    case Synced(lease) => Some(lease)
    case Committed(lease, _) => Some(lease)
    case Observed(lease, _, _) => Some(lease)
    case Armed(lease, _) => Some(lease)
    case _ => None
  }

  lemma StepKeepsLease(w: World, a: Action)
    requires Enabled(w, a) && LeaseOf(Do(w, a).run).Some?
    ensures if a.FetchSource? || a.FindAbsent? || a.Acknowledge? then LeaseOf(Do(w, a).run) == Some(Leased(w, a))
            else LeaseOf(Do(w, a).run) == LeaseOf(w.run) && !a.Stop? && !a.Edit?
  {
  }

  lemma {:induction false} LeaseOrigin(w: World, run: seq<Action>) returns (k: nat)
    requires w.run.Idle? && Legal(w, run) && LeaseOf(After(w, run).run).Some?
    ensures k < |run| && Legal(w, run[..k]) && (run[k].FetchSource? || run[k].FindAbsent? || run[k].Acknowledge?)
    ensures Enabled(After(w, run[..k]), run[k]) && LeaseOf(After(w, run).run) == Some(Leased(After(w, run[..k]), run[k]))
    ensures forall j :: k < j < |run| ==> !run[j].Stop? && !run[j].Edit?
  {
    hide Enabled, Do;
    var before, a := run[..|run| - 1], run[|run| - 1];
    StepKeepsLease(After(w, before), a);
    if a.FetchSource? || a.FindAbsent? || a.Acknowledge? {
      k := |run| - 1;
    } else {
      k := LeaseOrigin(w, before);
      assert run[..k] == before[..k];
    }
  }

  // ---------------------------------------------------------------- at most once

  function Count(updates: seq<Update>, c: Commit): nat {
    if updates == [] then 0
    else Count(updates[..|updates| - 1], c) + if updates[|updates| - 1].to == c then 1 else 0
  }

  /** The delivery runs of one committed change: nobody edits the checkout, and there is nothing more to commit. */
  predicate Redelivers(run: seq<Action>, c: Commit) {
    forall i :: 0 <= i < |run| ==> !run[i].Edit? && (run[i].CommitWork? ==> run[i].candidate == c)
  }

  predicate About(run: Run, c: Commit) {
    match run
    case Idle => true
    case Fetched(_) => true
    case Synced(_) => true
    case _ => run.candidate == c
  }

  /** Once the remote was moved to `c`, the receipt rules out sending it again. */
  predicate Once(w: World, c: Commit) {
    && w.head == c && About(w.run, c)
    && (w.run.Replied? || w.run.Rechecking? || w.run.Confirmed? || w.run.Armed? ==>
          w.receipt.Some? && w.receipt.value.candidate == c)
    && (w.run.Replied? || w.run.Armed? ==> w.receipt.value.status == R.Attempting)
    && Count(w.updates, c) <= 1
    && (Count(w.updates, c) == 1 ==>
          && w.receipt.Some? && w.receipt.value.candidate == c && w.receipt.value.status != R.Rejected
          && !w.run.Armed? && (w.run.Replied? ==> w.run.reply != Denied))
  }

  lemma CountAppends(updates: seq<Update>, u: Update, c: Commit)
    ensures Count(updates + [u], c) == Count(updates, c) + if u.to == c then 1 else 0
  {
    assert (updates + [u])[..|updates|] == updates;
  }

  lemma StepKeepsOnce(w: World, a: Action, c: Commit)
    requires Once(w, c) && Enabled(w, a)
    requires !a.Edit? && (a.CommitWork? ==> a.candidate == c)
    ensures Once(Do(w, a), c)
  {
    hide Count, Ancestor;
    if a.Push? && a.applied {
      CountAppends(w.updates, Do(w, a).updates[|w.updates|], c);
    }
  }

  /**
   First publication is at most once: over every schedule of crashes, re-runs and other
   people's pushes, delivering one committed change moves the remote to it at most once.
   */
  lemma {:induction false} PublicationIsAtMostOnce(w: World, run: seq<Action>, c: Commit)
    requires w.run.Idle? && w.head == c && Count(w.updates, c) == 0
    requires Legal(w, run) && Redelivers(run, c)
    ensures Once(After(w, run), c)
    ensures Count(After(w, run).updates, c) <= 1
  {
    hide Enabled, Do;
    if run != [] {
      var before := run[..|run| - 1];
      PublicationIsAtMostOnce(w, before, c);
      StepKeepsOnce(After(w, before), run[|run| - 1], c);
    }
  }

  /** Re-runs of a delivery whose push was applied, while nobody else moves the branch. */
  predicate Undisturbed(run: seq<Action>, c: Commit) {
    Redelivers(run, c) && forall i :: 0 <= i < |run| ==> !run[i].Develop?
  }

  /** How far such a re-run can be: it never gets to send anything. */
  predicate Recognising(w: World, t: World, c: Commit) {
    && t.remote == Some(c) && t.head == c && t.updates == w.updates
    && t.receipt.Some? && t.receipt.value.candidate == c
    && t.run in {Idle, Fetched(c), Synced(Some(c)), Committed(Some(c), c), Observed(Some(c), c, Some(c)), Published(c)}
    && (t.run == Published(c) ==> Has(t.receipt, R.Accepted))
  }

  lemma StepRecognises(w: World, t: World, a: Action, c: Commit)
    requires Recognising(w, t, c) && Enabled(t, a)
    requires !a.Develop? && !a.Edit? && (a.CommitWork? ==> a.candidate == c)
    ensures Recognising(w, Do(t, a), c) && !a.Push? && !a.Intend?
    ensures a.Acknowledge? ==> Do(t, a).acknowledged == Some(c) && Has(Do(t, a).receipt, R.Accepted)
  {
  }

  /**
   If the push was applied and nobody else moves the branch, every re-run, and every
   schedule of them, sends nothing; one that completes has acknowledged the candidate under
   an accepted receipt.
   */
  lemma {:induction false} AppliedPublicationIsAcknowledged(w: World, run: seq<Action>, c: Commit)
    requires w.run.Idle? && w.head == c && w.remote == Some(c)
    requires w.receipt.Some? && w.receipt.value.candidate == c
    requires Legal(w, run) && Undisturbed(run, c)
    ensures Recognising(w, After(w, run), c)
    ensures forall i :: 0 <= i < |run| ==> !run[i].Push? && !run[i].Intend?
    ensures run != [] && run[|run| - 1].Acknowledge? ==>
              After(w, run).acknowledged == Some(c) && Has(After(w, run).receipt, R.Accepted)
  {
    hide Enabled, Do;
    if run != [] {
      var before := run[..|run| - 1];
      AppliedPublicationIsAcknowledged(w, before, c);
      StepRecognises(w, After(w, before), run[|run| - 1], c);
    }
  }

  function Recommitting(c: Commit): seq<Action> {
    [] + [FetchSource] + [Resolve] + [CommitWork(c)]
  }

  function Redelivery(c: Commit): seq<Action> {
    Recommitting(c) + [Observe] + [Recognise] + [Acknowledge]
  }

  /** The uninterrupted re-run completes. */
  lemma RedeliveryCompletes(w: World, c: Commit)
    requires w.run.Idle? && w.head == c && w.remote == Some(c)
    requires w.receipt.Some? && w.receipt.value.candidate == c
    ensures Legal(w, Redelivery(c)) && Undisturbed(Redelivery(c), c)
    ensures After(w, Redelivery(c)).acknowledged == Some(c)
  {
    RedeliveryCommits(w, c);
    RedeliveryIsUndisturbed(c);
    var r := Recommitting(c);
    hide Legal, After, Ancestor, Recommitting, Undisturbed;
    Extend(w, r, Observe);
    Extend(w, r + [Observe], Recognise);
    Extend(w, r + [Observe] + [Recognise], Acknowledge);
  }

  lemma RedeliveryIsUndisturbed(c: Commit)
    ensures Undisturbed(Redelivery(c), c)
  {
  }

  lemma RedeliveryCommits(w: World, c: Commit)
    requires w.run.Idle? && w.head == c && w.remote == Some(c)
    requires w.receipt.Some? && w.receipt.value.candidate == c
    ensures Legal(w, Recommitting(c))
    ensures var t := After(w, Recommitting(c));
            t.run == Committed(Some(c), c) && t.remote == Some(c) && t.receipt.Some? && t.receipt.value.candidate == c
  {
    assert Legal(w, []) && After(w, []) == w;
    assert Recommitting(c) == [] + [FetchSource] + [Resolve] + [CommitWork(c)];
    hide *;
    FetchStep(w, c);
    Extend(w, [], FetchSource);
    ResolveStep(After(w, [] + [FetchSource]), c);
    Extend(w, [] + [FetchSource], Resolve);
    CommitStep(After(w, [] + [FetchSource] + [Resolve]), c);
    Extend(w, [] + [FetchSource] + [Resolve], CommitWork(c));
  }

  lemma FetchStep(w: World, c: Commit)
    requires w.run.Idle? && w.remote == Some(c)
    ensures Enabled(w, FetchSource) && Do(w, FetchSource) == w.(run := Fetched(c))
  {
  }

  lemma ResolveStep(w: World, c: Commit)
    requires w.run == Fetched(c) && w.receipt.Some? && w.receipt.value.candidate == c
    ensures Enabled(w, Resolve)
    ensures var t := Do(w, Resolve);
            t.run == Synced(Some(c)) && t.remote == w.remote && t.head == w.head && t.receipt.Some? && t.receipt.value.candidate == c
  {
    assert Ancestor(c, c);
  }

  lemma CommitStep(w: World, c: Commit)
    requires w.run == Synced(Some(c)) && w.head == c
    ensures Enabled(w, CommitWork(c)) && Do(w, CommitWork(c)) == w.(run := Committed(Some(c), c))
  {
  }

  /** Reconciliation agrees: a fetched head that is the accepted local HEAD leaves nothing to replay. */
  lemma PublishedHeadIsUpToDate(s: R.Repo, given: Commit)
    requires s.Quiet() && s.JoinParent().None?
    requires R.Fetched in s.refs && s.refs[R.Fetched] == s.branch
    requires R.Candidate(s) == Some(s.branch) && (s.journal.Some? ==> s.journal.value.published != Some(s.branch))
    ensures R.Synchronizable(s, given) && R.UpToDate(s, given)
  {
  }

  // ---------------------------------------------------------------- the receipt on its own

  /** Whatever is in doubt is what the receipt calls uncertain. */
  predicate Tracked(w: World) {
    w.doubt == {} || (Has(w.receipt, R.Attempting) && w.doubt == {w.receipt.value.candidate})
  }
}
