/**
 `commitAndPushWorkBranch` called on its own, without a reconcile and without an expected
 remote head: the lease is whatever the call itself observes. The rest of `pushAndVerify`
 is that of `Publication`.
 */
module DirectPush {
  import opened Git
  import opened Publication
  import R = Reconciliation

  /** `Call` commits; `Then` is a step of the push, of the world, or the end of the worker. */
  datatype Step = Call(candidate: Commit) | Then(action: Action)

  predicate Possible(w: World, s: Step) {
    match s
    case Call(c) => w.run.Idle? && (c == w.head || c.parents == [w.head])
    case Then(a) =>
      && !a.FetchSource? && !a.Resolve? && !a.FindAbsent? && !a.CommitWork? && !a.Acknowledge?
      && Enabled(w, a)
  }

  function Next(w: World, s: Step): World
    requires Possible(w, s)
  {
    match s
    case Call(c) => w.(head := c, run := Committed(None, c))
    case Then(a) =>
      if a.Observe? then w.(run := Observed(w.remote, w.run.candidate, w.remote)) else Do(w, a)
  }

  predicate Lawful(w: World, run: seq<Step>)
    decreases |run|, 0
  {
    run == [] || (Lawful(w, run[..|run| - 1]) && Possible(Reached(w, run[..|run| - 1]), run[|run| - 1]))
  }

  function Reached(w: World, run: seq<Step>): World
    requires Lawful(w, run)
    decreases |run|, 1
  {
    if run == [] then w else Next(Reached(w, run[..|run| - 1]), run[|run| - 1])
  }

  lemma Append(w: World, run: seq<Step>, s: Step)
    requires Lawful(w, run) && Possible(Reached(w, run), s)
    ensures Lawful(w, run + [s]) && Reached(w, run + [s]) == Next(Reached(w, run), s)
  {
    hide Possible, Next;
    assert (run + [s])[..|run|] == run;
  }

  /** What the progress of a call says about the receipt. */
  predicate Coherent(w: World) {
    match w.run
    case Armed(lease, c) => w.receipt == Some(R.Receipt(lease, c, R.Attempting)) && w.doubt == {}
    case Replied(lease, c, _) => w.receipt == Some(R.Receipt(lease, c, R.Attempting)) && w.doubt == {c}
    case Rechecking(_, c) => Rechecked(w, c)
    case Confirmed(_, c) => Rechecked(w, c)
    case _ => true
  }

  predicate Rechecked(w: World, c: Commit) {
    && w.receipt.Some? && w.receipt.value.candidate == c
    && w.doubt == if w.receipt.value.status.Attempting? then {c} else {}
  }

  /** The remote is seen to hold the new candidate while another one is unresolved. */
  predicate Loses(w: World, s: Step) {
    && s == Then(Recognise) && w.run.Observed? && w.run.seen == Some(w.run.candidate)
    && Has(w.receipt, R.Attempting) && w.doubt != {} && w.run.candidate != w.receipt.value.candidate
  }

  lemma StepLosesTrackIff(w: World, s: Step)
    requires Possible(w, s) && Tracked(w) && Coherent(w)
    ensures !Tracked(Next(w, s)) <==> Loses(w, s)
    ensures Coherent(Next(w, s))
  {
    hide Ancestor;
    if Loses(w, s) {
      assert w.receipt.value.candidate in Next(w, s).doubt;
    }
  }

  ghost predicate NeverLoses(w: World, run: seq<Step>)
    requires Lawful(w, run)
  {
    forall i :: 0 <= i < |run| ==> Lawful(w, run[..i]) && !Loses(Reached(w, run[..i]), run[i])
  }

  ghost predicate AlwaysTracked(w: World, run: seq<Step>)
    requires Lawful(w, run)
  {
    forall i :: 0 <= i <= |run| ==> Lawful(w, run[..i]) && Tracked(Reached(w, run[..i]))
  }

  /**
   Over every run of direct calls, crashes and other pushers: the receipt names every
   publication in doubt all along exactly when no call recognises its candidate while
   another one is unresolved.
   */
  lemma {:induction false} DirectPushKeepsTrackIff(w: World, run: seq<Step>)
    requires Tracked(w) && Coherent(w) && Lawful(w, run)
    ensures AlwaysTracked(w, run) <==> NeverLoses(w, run)
    ensures NeverLoses(w, run) ==> Coherent(Reached(w, run))
  {
    hide Possible, Next, Tracked, Coherent, Loses;
    if run == [] {
      assert run[..0] == run;
    } else {
      var before, s := run[..|run| - 1], run[|run| - 1];
      DirectPushKeepsTrackIff(w, before);
      Prefixes(w, run);
      if NeverLoses(w, before) {
        assert before[..|before|] == before;
        StepLosesTrackIff(Reached(w, before), s);
      }
    }
  }

  /** Both statements about a run are those about its front and its last step. */
  lemma Prefixes(w: World, run: seq<Step>)
    requires Lawful(w, run) && run != []
    ensures var before := run[..|run| - 1];
            && (NeverLoses(w, run) <==> NeverLoses(w, before) && !Loses(Reached(w, before), run[|run| - 1]))
            && (AlwaysTracked(w, run) <==> AlwaysTracked(w, before) && Tracked(Reached(w, run)))
  {
    hide Possible, Next, Tracked, Loses, Reached;
    var before := run[..|run| - 1];
    assert run[..|run|] == run && before[..|before|] == before;
    assert forall i :: 0 <= i <= |before| ==> run[..i] == before[..i];
    assert forall i :: 0 <= i < |before| ==> run[i] == before[i];
  }

  // ---------------------------------------------------------------- the loss is reachable

  /** A call up to its write-ahead receipt. */
  function Intending(first: Commit): seq<Step> {
    [] + [Call(first)] + [Then(Observe)] + [Then(Intend)]
  }

  /** Its answer is lost and the worker dies. */
  function Doubting(first: Commit): seq<Step> {
    Intending(first) + [Then(Push(false, Lost))] + [Then(Stop)]
  }

  /** Somebody else pushes another commit, which becomes the local HEAD. */
  function Overtaking(first: Commit, second: Commit): seq<Step> {
    Doubting(first) + [Then(Develop(Some(second)))] + [Then(Edit(second))]
  }

  /** The next call is for that commit. */
  function Losing(first: Commit, second: Commit): seq<Step> {
    Overtaking(first, second) + [Call(second)] + [Then(Observe)] + [Then(Recognise)]
  }

  /** A first commit on top of HEAD that the remote does not have yet and may accept. */
  predicate Publishable(w: World, first: Commit) {
    && Initial(w) && first.parents == [w.head] && w.remote != Some(first)
    && (w.remote.Some? ==> Ancestor(w.remote.value, first))
  }

  lemma Intended(w: World, first: Commit)
    requires Publishable(w, first)
    ensures Lawful(w, Intending(first))
    ensures var t := Reached(w, Intending(first));
            t.run == Armed(w.remote, first) && t.receipt == Some(R.Receipt(w.remote, first, R.Attempting)) && t.doubt == {}
  {
    assert Lawful(w, []) && Reached(w, []) == w;
    hide Lawful, Reached, Ancestor, Tracked, Loses;
    Append(w, [], Call(first));
    var called := Reached(w, [] + [Call(first)]);
    assert called == w.(head := first, run := Committed(None, first));
    Append(w, [] + [Call(first)], Then(Observe));
    var seen := Reached(w, [] + [Call(first)] + [Then(Observe)]);
    assert seen == called.(run := Observed(w.remote, first, w.remote));
    IntendsFirst(seen, first);
    Append(w, [] + [Call(first)] + [Then(Observe)], Then(Intend));
  }

  lemma IntendsFirst(w: World, first: Commit)
    requires w.receipt.None? && w.doubt == {} && w.run == Observed(w.remote, first, w.remote) && w.remote != Some(first)
    requires w.remote.Some? ==> Ancestor(w.remote.value, first)
    ensures Possible(w, Then(Intend))
    ensures var t := Next(w, Then(Intend));
            t.run == Armed(w.remote, first) && t.receipt == Some(R.Receipt(w.remote, first, R.Attempting)) && t.doubt == {}
  {
    hide Ancestor;
  }

  lemma InDoubt(w: World, first: Commit)
    requires Publishable(w, first)
    ensures Lawful(w, Doubting(first))
    ensures var t := Reached(w, Doubting(first));
            t.run.Idle? && Has(t.receipt, R.Attempting) && t.receipt.value.candidate == first && t.doubt == {first}
  {
    Intended(w, first);
    hide Lawful, Reached, Ancestor, Decide, Intending, Publishable;
    var steps := Intending(first);
    Append(w, steps, Then(Push(false, Lost)));
    Append(w, steps + [Then(Push(false, Lost))], Then(Stop));
  }

  lemma Overtaken(w: World, first: Commit, second: Commit)
    requires Publishable(w, first)
    ensures Lawful(w, Overtaking(first, second))
    ensures var t := Reached(w, Overtaking(first, second));
            && t.run.Idle? && t.remote == Some(second) && t.head == second
            && Has(t.receipt, R.Attempting) && t.receipt.value.candidate == first && t.doubt == {first}
  {
    InDoubt(w, first);
    hide Lawful, Reached, Ancestor, Decide, Doubting, Publishable;
    var steps := Doubting(first);
    Append(w, steps, Then(Develop(Some(second))));
    Append(w, steps + [Then(Develop(Some(second)))], Then(Edit(second)));
  }

  /**
   From the start of any repository: a push whose answer is lost, a dead worker, and a call
   for another commit that somebody else has pushed meanwhile make the receipt forget the
   publication that is still in doubt.
   */
  lemma DirectPushLosesTrack(w: World, first: Commit, second: Commit)
    requires Publishable(w, first) && second != first
    ensures Lawful(w, Losing(first, second)) && !Tracked(Reached(w, Losing(first, second)))
    ensures var t := Reached(w, Losing(first, second));
            t.doubt == {first} && t.receipt == Some(R.Receipt(Some(second), second, R.Accepted))
  {
    Overtaken(w, first, second);
    hide Lawful, Reached, Ancestor, Overtaking, Publishable;
    var steps := Overtaking(first, second);
    Append(w, steps, Call(second));
    steps := steps + [Call(second)];
    Append(w, steps, Then(Observe));
    steps := steps + [Then(Observe)];
    var seen := Reached(w, steps);
    assert seen.run == Observed(Some(second), second, Some(second)) && seen.doubt == {first};
    Append(w, steps, Then(Recognise));
    assert {first} - {second} == {first};
  }
}
