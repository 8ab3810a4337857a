/**
 `pushAndVerify` as it runs, against a remote branch that other people move meanwhile.

 `drift` lists what others push between its steps, and `link` what the network does to the
 push. The ghost `log` records every step as an action of `Publication`, and `Valid()` ties
 the fields to it, so the guarantees proved there for all interleavings hold here.
 */
module Publishers {
  import opened Git
  import opened Publication
  import R = Reconciliation

  datatype PushResult = Pushed | BranchChanged | Failed

  /** Whether the push reaches the server, whether a server rule refuses it, and whether the answer gets back. */
  datatype Link = Link(delivered: bool, refused: bool, answered: bool)

  /** What the branch holds once others have made these moves. */
  function Last(remote: Option<Commit>, moves: seq<Option<Commit>>): Option<Commit> {
    if moves == [] then remote else moves[|moves| - 1]
  }

  /** A push arrives when the branch holds its candidate afterwards. */
  predicate Arrives(link: Link, remote: Option<Commit>, lease: Option<Commit>, candidate: Commit) {
    link.delivered && (remote == Some(candidate) || (!link.refused && remote == lease))
  }

  /** The receipt says that the candidate was published before. */
  predicate Claimed(receipt: Option<R.Receipt>, candidate: Commit) {
    Has(receipt, R.Accepted) && receipt.value.candidate == candidate
  }

  /** Nothing is sent over an unresolved publication, for an accepted one, or to a branch that cannot be extended. */
  predicate Sendable(receipt: Option<R.Receipt>, seen: Option<Commit>, lease: Option<Commit>, candidate: Commit) {
    && seen != Some(candidate) && seen == lease
    && !Has(receipt, R.Attempting) && !Claimed(receipt, candidate)
    && (lease.Some? ==> Ancestor(lease.value, candidate))
  }

  /**
   What a push that is sent to `before` leaves: the branch after others have moved on, the
   one update it may have made, the receipt with all that is known, and the result.
   */
  predicate Transmitted(
    before: Option<Commit>, lease: Option<Commit>, candidate: Commit, after: seq<Option<Commit>>, link: Link, sent: seq<Update>,
    remote: Option<Commit>, receipt: Option<R.Receipt>, updates: seq<Update>, r: PushResult)
  {
    var arrived := Arrives(link, before, lease, candidate);
    var known := remote == Some(candidate) || (arrived && link.answered);
    && remote == Last(if arrived then Some(candidate) else before, after)
    && updates == sent + (if arrived && before != Some(candidate) then [Update(lease, candidate, lease)] else [])
    && receipt == Some(R.Receipt(lease, candidate,
         if known then R.Accepted else if link.delivered && link.answered then R.Rejected else R.Attempting))
    && r == (if remote == Some(candidate) then Pushed else if known || remote != lease then BranchChanged else Failed)
  }

  lemma UndisturbedPushArrives(
    seen: Option<Commit>, lease: Option<Commit>, candidate: Commit, drift: seq<seq<Option<Commit>>>, link: Link, sent: seq<Update>,
    remote: Option<Commit>, receipt: Option<R.Receipt>, updates: seq<Update>, r: PushResult)
    requires |drift| == 3 && seen == lease && seen != Some(candidate)
    requires Transmitted(Last(seen, drift[1]), lease, candidate, drift[2], link, sent, remote, receipt, updates, r)
    ensures drift == [[], [], []] && link == Link(true, false, true) ==>
              r == Pushed && remote == Some(candidate) && updates == sent + [Update(lease, candidate, lease)]
  {
  }

  class Publisher {
    var remote: Option<Commit>
    var head: Commit
    var receipt: Option<R.Receipt>
    ghost const origin: World
    ghost var world: World
    ghost var log: seq<Action>

    ghost predicate Valid()
      reads this
    {
      && Legal(origin, log) && After(origin, log) == world
      && world.remote == remote && world.head == head && world.receipt == receipt
    }

    constructor (w: World)
      ensures Valid() && world == w && log == []
    {
      origin, world, log := w, w, [];
      remote, head, receipt := w.remote, w.head, w.receipt;
    }

    ghost method Note(a: Action)
      requires Legal(origin, log) && After(origin, log) == world && Enabled(world, a)
      modifies `world, `log
      ensures Legal(origin, log) && After(origin, log) == world
      ensures world == Do(old(world), a) && log == old(log) + [a]
    {
      hide Enabled, Do;
      Extend(origin, log, a);
      world, log := Do(world, a), log + [a];
    }

    /** Other pushers set the branch to each of these values in turn. */
    method Drift(moves: seq<Option<Commit>>)
      requires Valid()
      modifies `remote, `world, `log
      ensures Valid() && old(log) <= log
      ensures world == old(world).(remote := remote, history := world.history)
      ensures remote == Last(old(remote), moves)
    {
      hide Legal, After;
      for i := 0 to |moves|
        invariant Valid() && old(log) <= log
        invariant world == old(world).(remote := remote, history := world.history)
        invariant remote == if i == 0 then old(remote) else moves[i - 1]
      {
        Note(Develop(moves[i]));
        remote := moves[i];
      }
    }

    method Save(r: R.Receipt, ghost a: Action)
      requires Valid() && Enabled(world, a)
      requires Do(world, a).(run := world.run, doubt := world.doubt) == world.(receipt := Some(r))
      modifies `receipt, `world, `log
      ensures Valid() && world == Do(old(world), a) && receipt == Some(r) && log == old(log) + [a]
    {
      hide Legal, After;
      Note(a);
      receipt := Some(r);
    }

    /** `git push --force-with-lease`: the server compares and swaps; the answer may not arrive. */
    method Send(lease: Option<Commit>, candidate: Commit, link: Link) returns (reply: Reply)
      requires Valid() && world.run == Armed(lease, candidate)
      modifies `remote, `world, `log
      ensures Valid() && old(log) < log
      ensures world.run == Replied(lease, candidate, reply)
      ensures reply == Done <==> Arrives(link, old(remote), lease, candidate) && link.answered
      ensures reply == Denied <==> link.delivered && link.answered && !Arrives(link, old(remote), lease, candidate)
      ensures remote == if Arrives(link, old(remote), lease, candidate) then Some(candidate) else old(remote)
      ensures world.updates == old(world).updates +
              if remote != old(remote) then [Update(lease, candidate, lease)] else []
    {
      hide Legal, After;
      reply := Lost;
      var applied := false;
      if link.delivered {
        var answer: Reply;
        if remote == Some(candidate) {
          answer := Done;
        } else if remote == lease && !link.refused {
          applied, answer := true, Done;
        } else {
          answer := Denied;
        }
        reply := if link.answered then answer else Lost;
      }
      Note(Push(applied, reply));
      if applied {
        remote := Some(candidate);
      }
    }

    /**
     The result for every remote, receipt, network and interleaving. A candidate that the
     branch holds already is recognised. Otherwise an unresolved receipt, an accepted one for
     this candidate, a branch that is not the lease, or a lease that is not contained in the
     candidate sends nothing. A push that is sent succeeds exactly when the branch holds the
     candidate at the last look, and the receipt says what is then known.
     */
    method PushAndVerify(candidate: Commit, lease: Option<Commit>, drift: seq<seq<Option<Commit>>>, link: Link)
      returns (r: PushResult)
      requires Valid() && |drift| == 3
      requires world.run == Committed(lease, candidate)
      modifies `remote, `receipt, `world, `log
      ensures Valid() && old(log) < log
      ensures r == Pushed <==> remote == Some(candidate)
      ensures r == Pushed ==> world.run == Published(candidate) && receipt == Some(R.Receipt(lease, candidate, R.Accepted))
      ensures var seen := Last(old(remote), drift[0]);
              !Sendable(old(receipt), seen, lease, candidate) ==>
                && remote == seen && world.updates == old(world).updates
                && (r != Pushed ==> receipt == old(receipt))
                && (r == Failed <==> seen != Some(candidate) && (Has(receipt, R.Attempting) || (seen == lease && !Claimed(receipt, candidate))))
      ensures var seen := Last(old(remote), drift[0]);
              Sendable(old(receipt), seen, lease, candidate) ==>
                Transmitted(Last(seen, drift[1]), lease, candidate, drift[2], link, old(world).updates, remote, receipt, world.updates, r)
      ensures Sendable(old(receipt), old(remote), lease, candidate) && drift == [[], [], []] && link == Link(true, false, true) ==>
                && r == Pushed && remote == Some(candidate)
                && world.updates == old(world).updates + [Update(lease, candidate, lease)]
    {
      hide Legal, After, Ancestor, Decide, Transmitted;
      Drift(drift[0]);
      var verdict := Examine(candidate, lease);
      if verdict.Some? {
        return verdict.value;
      }
      ghost var seen := remote;
      r := Transmit(candidate, lease, drift[1], drift[2], link);
      UndisturbedPushArrives(seen, lease, candidate, drift, link, old(world).updates, remote, receipt, world.updates, r);
    }

    /** Look at the remote and the receipt before anything is sent; None after the write-ahead receipt. */
    method Examine(candidate: Commit, lease: Option<Commit>) returns (r: Option<PushResult>)
      requires Valid() && world.run == Committed(lease, candidate)
      modifies `receipt, `world, `log
      ensures Valid() && old(log) < log && world.updates == old(world).updates
      ensures r == Some(Pushed) <==> remote == Some(candidate)
      ensures r == Some(Pushed) ==> world.run == Published(candidate) && receipt == Some(R.Receipt(lease, candidate, R.Accepted))
      ensures r.None? <==> Sendable(old(receipt), remote, lease, candidate)
      ensures r.None? ==> world.run == Armed(lease, candidate) && receipt == Some(R.Receipt(lease, candidate, R.Attempting))
      ensures r in {Some(BranchChanged), Some(Failed)} ==> receipt == old(receipt)
      ensures r == Some(Failed) <==>
                !r.None? && remote != Some(candidate) && (old(Has(receipt, R.Attempting)) || (remote == lease && !Claimed(old(receipt), candidate)))
    {
      hide Legal, After, Ancestor;
      Note(Observe);
      if remote == Some(candidate) {
        Save(R.Receipt(lease, candidate, R.Accepted), Recognise);
        return Some(Pushed);
      }
      if receipt.Some? && receipt.value.status.Attempting? {
        return Some(Failed);
      }
      if receipt.Some? && receipt.value.status.Accepted? && receipt.value.candidate == candidate {
        return Some(BranchChanged);
      }
      if remote != lease {
        return Some(BranchChanged);
      }
      if lease.Some? && !Ancestor(lease.value, candidate) {
        return Some(Failed);
      }
      Save(R.Receipt(lease, candidate, R.Attempting), Intend);
      r := None;
    }

    /** Send under the write-ahead receipt, and establish what can be known of the outcome. */
    method Transmit(candidate: Commit, lease: Option<Commit>, before: seq<Option<Commit>>, after: seq<Option<Commit>>, link: Link)
      returns (r: PushResult)
      requires Valid() && world.run == Armed(lease, candidate) && receipt == Some(R.Receipt(lease, candidate, R.Attempting))
      modifies `remote, `receipt, `world, `log
      ensures Valid() && old(log) < log
      ensures Transmitted(Last(old(remote), before), lease, candidate, after, link, old(world).updates, remote, receipt, world.updates, r)
      ensures r == Pushed <==> remote == Some(candidate)
      ensures r == Pushed ==> world.run == Published(candidate) && receipt == Some(R.Receipt(lease, candidate, R.Accepted))
    {
      hide Legal, After, Ancestor, Enabled, Do;
      Drift(before);
      var reply := Send(lease, candidate, link);
      Drift(after);
      r := Conclude(candidate, lease, reply);
    }

    /** Record what the reply proves, then look at the remote once more. */
    method Conclude(candidate: Commit, lease: Option<Commit>, reply: Reply) returns (r: PushResult)
      requires Valid() && world.run == Replied(lease, candidate, reply)
      modifies `receipt, `world, `log
      ensures Valid() && old(log) < log && world.updates == old(world).updates
      ensures r == Pushed <==> remote == Some(candidate)
      ensures r == BranchChanged <==> remote != Some(candidate) && (reply == Done || remote != lease)
      ensures r == Pushed ==> world.run == Published(candidate)
      ensures r == Pushed || reply == Done ==> receipt == Some(R.Receipt(lease, candidate, R.Accepted))
      ensures r != Pushed && reply == Denied ==> receipt == Some(R.Receipt(lease, candidate, R.Rejected))
      ensures r != Pushed && reply == Lost ==> receipt == old(receipt)
    {
      hide Legal, After, Ancestor, Decide;
      if reply == Done {
        Save(R.Receipt(lease, candidate, R.Accepted), SaveAccepted);
        if remote != Some(candidate) {
          return BranchChanged;
        }
        Note(Verify);
        return Pushed;
      }
      if reply == Denied {
        Save(R.Receipt(lease, candidate, R.Rejected), SaveRejected);
      } else {
        Note(TolerateLoss);
      }
      r := LookAgain(candidate, lease);
    }

    /** After an answer that proves nothing, only the remote can show that the push arrived. */
    method LookAgain(candidate: Commit, lease: Option<Commit>) returns (r: PushResult)
      requires Valid() && world.run == Rechecking(lease, candidate)
      modifies `receipt, `world, `log
      ensures Valid() && old(log) <= log && world.updates == old(world).updates
      ensures r == Pushed <==> remote == Some(candidate)
      ensures r == Pushed ==> world.run == Published(candidate) && receipt == Some(R.Receipt(lease, candidate, R.Accepted))
      ensures r == BranchChanged <==> remote != Some(candidate) && remote != lease
      ensures r != Pushed ==> receipt == old(receipt)
    {
      hide Legal, After, Ancestor, Decide;
      if remote == Some(candidate) {
        Note(Recheck);
        Save(R.Receipt(lease, candidate, R.Accepted), SaveConfirmed);
        return Pushed;
      }
      r := if remote != lease then BranchChanged else Failed;
    }
  }
}
