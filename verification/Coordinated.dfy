/** Delivery of several repositories in one process, each with its own publication state. */
module Coordinated {
  import opened Git
  import opened Delivery
  import opened DeliveryRuns
  import opened Executions

  /** The stored publication states by repository key. */
  type Store = map<string, Pub>

  function Read(m: Store, key: string): Pub {
    if key in m then m[key] else Initial
  }

  predicate AllFinished(m: Store, keys: seq<string>) {
    forall i :: 0 <= i < |keys| ==> Finished(Read(m, keys[i]))
  }

  predicate Distinct(keys: seq<string>) {
    forall i, j :: 0 <= i < j < |keys| ==> keys[i] != keys[j]
  }

  /** What the forge answers; `terminal` is asked before the sweep and again when the source is cancelled. */
  datatype Forge = Forge(
    terminal: (bool, string) -> Option<Request>, cancelled: string -> bool, answers: string -> Answers)

  /** A merged or closed request ends its repository. */
  function Observe(s: Pub, seen: Option<Request>): Pub {
    if Finished(s) || seen.None? then s
    else s.(pr := Some(Link(seen.value.number, seen.value.url)), terminal := seen)
  }

  function ReconcileTerminals(w: Forge, again: bool, keys: seq<string>, m: Store): Store {
    if keys == [] then m
    else
      var key := keys[0];
      var seen := Observe(Read(m, key), w.terminal(again, key));
      ReconcileTerminals(w, again, keys[1..], if seen == Read(m, key) then m else m[key := seen])
  }

  datatype Sweep = Interrupted(outcome: Outcome, m: Store) | SourceCancelled(m: Store) | Through(m: Store)

  function SweepFrom(cfg: Config, w: Forge, keys: seq<string>, m: Store): Sweep {
    if keys == [] then Through(m)
    else
      var key := keys[0];
      if Finished(Read(m, key)) then SweepFrom(cfg, w, keys[1..], m)
      else if w.cancelled(key) then SourceCancelled(m)
      else
        var end := Run(cfg, w.answers(key), Read(m, key));
        if end.outcome in {Waiting, Completed, Aborted} then SweepFrom(cfg, w, keys[1..], m[key := end.s])
        else Interrupted(end.outcome, m[key := end.s])
  }

  predicate AnyRequest(m: Store, keys: seq<string>) {
    exists i :: 0 <= i < |keys| && Read(m, keys[i]).terminal.Some?
  }

  predicate AnyMerged(m: Store, keys: seq<string>) {
    exists i :: 0 <= i < |keys| && Merged(Read(m, keys[i]))
  }

  predicate Merged(s: Pub) {
    s.terminal.Some? && s.terminal.value.merged
  }

  /** The worker's verdict on finished repositories. */
  function Verdict(m: Store, keys: seq<string>, cancelled: bool): Outcome {
    if cancelled || (AnyRequest(m, keys) && !AnyMerged(m, keys)) then Aborted else Completed
  }

  /** The coordinated run: outcome and new store. An exception saves nothing. */
  function DeliverAll(cfg: Config, w: Forge, keys: seq<string>, m: Store): (Outcome, Store) {
    if keys == [] then (Threw, m) else
    var observed := ReconcileTerminals(w, false, keys, m);
    match SweepFrom(cfg, w, keys, observed)
    case Interrupted(outcome, swept) => (outcome, if outcome == Threw then m else swept)
    case SourceCancelled(swept) =>
      var final := ReconcileTerminals(w, true, keys, swept);
      (Verdict(final, keys, !AllFinished(final, keys)), final)
    case Through(swept) => (if AllFinished(swept, keys) then Verdict(swept, keys, false) else Waiting, swept)
  }

  // ---------------------------------------------------------------- the server's verdict

  predicate AnyChanged(m: Store, keys: seq<string>) {
    exists i :: 0 <= i < |keys| && !Read(m, keys[i]).noChanges
  }

  predicate AnyChangedMerged(m: Store, keys: seq<string>) {
    exists i :: 0 <= i < |keys| && !Read(m, keys[i]).noChanges && Merged(Read(m, keys[i]))
  }

  /** `completion` of the maintenance policy. */
  function Completion(m: Store, keys: seq<string>): Option<Outcome> {
    if !AllFinished(m, keys) then None
    else Some(if AnyChanged(m, keys) && !AnyChangedMerged(m, keys) then Aborted else Completed)
  }

  predicate NoneStopped(m: Store, keys: seq<string>) {
    forall i :: 0 <= i < |keys| ==> !Read(m, keys[i]).stopped
  }

  predicate AllExclusive(m: Store, keys: seq<string>) {
    forall i :: 0 <= i < |keys| ==> Exclusive(Read(m, keys[i]))
  }

  /** A repository that counts as unchanged and yet has a request, merged or not. */
  predicate AnyUnchangedRequest(m: Store, keys: seq<string>, merged: bool) {
    exists i :: 0 <= i < |keys| && !Exclusive(Read(m, keys[i])) && Read(m, keys[i]).terminal.value.merged == merged
  }

  /**
   On finished repositories of which none was stopped, the two verdicts differ exactly when
   an unchanged repository has a request that decides the worker's verdict alone: no
   changed one was merged, and the unchanged ones were either merged beside a changed one,
   or only closed with no changed one at all.
   */
  lemma VerdictsAgreeIff(m: Store, keys: seq<string>)
    requires AllFinished(m, keys) && NoneStopped(m, keys)
    ensures Completion(m, keys) == Some(Verdict(m, keys, false)) <==>
              || AnyChangedMerged(m, keys)
              || (if AnyChanged(m, keys) then !AnyUnchangedRequest(m, keys, true)
                  else AnyUnchangedRequest(m, keys, true) || !AnyUnchangedRequest(m, keys, false))
  {
    assert AnyMerged(m, keys) <==> AnyChangedMerged(m, keys) || AnyUnchangedRequest(m, keys, true);
    assert AnyRequest(m, keys) <==>
           AnyChanged(m, keys) || AnyUnchangedRequest(m, keys, true) || AnyUnchangedRequest(m, keys, false);
  }

  // ---------------------------------------------------------------- independence

  lemma {:induction false} TerminalsLocal(w: Forge, again: bool, keys: seq<string>, m: Store, key: string)
    requires Distinct(keys)
    ensures Read(ReconcileTerminals(w, again, keys, m), key) ==
              if key in keys then Observe(Read(m, key), w.terminal(again, key)) else Read(m, key)
    decreases |keys|
  {
    if keys != [] {
      var seen := Observe(Read(m, keys[0]), w.terminal(again, keys[0]));
      TerminalsLocal(w, again, keys[1..], if seen == Read(m, keys[0]) then m else m[keys[0] := seen], key);
    }
  }

  /** What a run makes of one repository on its own. */
  function Alone(cfg: Config, w: Forge, key: string, s: Pub): Pub {
    if Finished(s) then s else Run(cfg, w.answers(key), s).s
  }

  /** Each repository is left as it was or as its own run leaves it; a full sweep leaves none out. */
  lemma {:induction false} SweepIsLocal(cfg: Config, w: Forge, keys: seq<string>, m: Store, key: string)
    requires Distinct(keys)
    ensures var sweep := SweepFrom(cfg, w, keys, m);
            && (Read(sweep.m, key) == Read(m, key) || Read(sweep.m, key) == Alone(cfg, w, key, Read(m, key)))
            && (key !in keys ==> Read(sweep.m, key) == Read(m, key))
            && (sweep.Through? && key in keys ==> Read(sweep.m, key) == Alone(cfg, w, key, Read(m, key)))
    decreases |keys|
  {
    hide Run;
    if keys != [] {
      var first := keys[0];
      if Finished(Read(m, first)) {
        SweepIsLocal(cfg, w, keys[1..], m, key);
      } else if !w.cancelled(first) {
        var end := Run(cfg, w.answers(first), Read(m, first));
        if end.outcome in {Waiting, Completed, Aborted} {
          SweepIsLocal(cfg, w, keys[1..], m[first := end.s], key);
        }
      }
    }
  }

  /**
   Running one repository leaves every other state unchanged: the final state of a
   repository depends only on its own state and its own answers, and a finished or
   foreign one is not touched.
   */
  lemma RepositoriesAreIndependent(cfg: Config, w: Forge, keys: seq<string>, m: Store, key: string)
    requires Distinct(keys)
    ensures var s := Read(m, key);
            var t := Read(DeliverAll(cfg, w, keys, m).1, key);
            var seen := Observe(s, w.terminal(false, key));
            && (key !in keys || Finished(s) ==> t == s)
            && (key in keys ==>
                  t in {s, seen, Alone(cfg, w, key, seen), Observe(seen, w.terminal(true, key)),
                        Observe(Alone(cfg, w, key, seen), w.terminal(true, key))})
            && (key in keys && DeliverAll(cfg, w, keys, m).0 == Waiting ==> t == Alone(cfg, w, key, seen))
  {
    hide Run;
    var observed := ReconcileTerminals(w, false, keys, m);
    TerminalsLocal(w, false, keys, m, key);
    SweepIsLocal(cfg, w, keys, observed, key);
    SweepOutcome(cfg, w, keys, observed);
    var sweep := SweepFrom(cfg, w, keys, observed);
    if sweep.SourceCancelled? {
      TerminalsLocal(w, true, keys, sweep.m, key);
    }
  }

  lemma {:induction false} SweepOutcome(cfg: Config, w: Forge, keys: seq<string>, m: Store)
    ensures SweepFrom(cfg, w, keys, m).Interrupted? ==> SweepFrom(cfg, w, keys, m).outcome !in {Waiting, Completed, Aborted}
    decreases |keys|
  {
    hide Run;
    if keys != [] && !w.cancelled(keys[0]) && !Finished(Read(m, keys[0])) {
      SweepOutcome(cfg, w, keys[1..], m[keys[0] := Run(cfg, w.answers(keys[0]), Read(m, keys[0])).s]);
    } else if keys != [] {
      SweepOutcome(cfg, w, keys[1..], m);
    }
  }

  /** A repository that lets the run go on to the next one. */
  predicate Passes(cfg: Config, w: Forge, key: string, s: Pub) {
    Finished(s) || (!w.cancelled(key) && Run(cfg, w.answers(key), s).outcome in {Waiting, Completed, Aborted})
  }

  lemma {:induction false} SweepStops(cfg: Config, w: Forge, keys: seq<string>, m: Store) returns (k: nat)
    requires Distinct(keys)
    ensures k <= |keys| && forall i :: 0 <= i < k ==> Passes(cfg, w, keys[i], Read(m, keys[i]))
    ensures k < |keys| ==> !Passes(cfg, w, keys[k], Read(m, keys[k]))
    ensures var sweep := SweepFrom(cfg, w, keys, m);
            && (sweep.Through? <==> k == |keys|)
            && (sweep.SourceCancelled? <==> k < |keys| && w.cancelled(keys[k]))
            && (sweep.Interrupted? ==> sweep.outcome == Run(cfg, w.answers(keys[k]), Read(m, keys[k])).outcome)
            && forall i :: 0 <= i < |keys| ==>
                 Read(sweep.m, keys[i]) ==
                   if i < k || (i == k && sweep.Interrupted?) then Alone(cfg, w, keys[i], Read(m, keys[i])) else Read(m, keys[i])
    decreases |keys|
  {
    hide Run;
    k := 0;
    if keys != [] && Passes(cfg, w, keys[0], Read(m, keys[0])) {
      var next := if Finished(Read(m, keys[0])) then m else m[keys[0] := Run(cfg, w.answers(keys[0]), Read(m, keys[0])).s];
      var rest := SweepStops(cfg, w, keys[1..], next);
      SweepIsLocal(cfg, w, keys[1..], next, keys[0]);
      k := rest + 1;
      forall i | 0 < i < |keys|
        ensures keys[i] == keys[1..][i - 1] && Read(next, keys[i]) == Read(m, keys[i])
      {
      }
    }
  }

  /** The state of a repository before its own execution: its ended request is stored first. */
  function Seen(w: Forge, again: bool, key: string, s: Pub): Pub {
    Observe(s, w.terminal(again, key))
  }

  /**
   The run executes the unfinished repositories in order up to the first one that does not
   pass: its source is cancelled, or its own execution asks for a repair, an operator or
   throws. Every repository before it has the state of its own execution, every one after
   it only its ended request. A repair or an operator is what the run asks for then; an
   exception saves nothing; a cancelled source ends the run.
   */
  lemma RunStopsAtTheFirstObstacle(cfg: Config, w: Forge, keys: seq<string>, m: Store) returns (k: nat)
    requires Distinct(keys) && keys != []
    ensures k <= |keys| && forall i :: 0 <= i < k ==> Passes(cfg, w, keys[i], Seen(w, false, keys[i], Read(m, keys[i])))
    ensures k < |keys| ==> !Passes(cfg, w, keys[k], Seen(w, false, keys[k], Read(m, keys[k])))
    ensures var (outcome, t) := DeliverAll(cfg, w, keys, m);
            if k == |keys| then
              && (forall i :: 0 <= i < k ==> Read(t, keys[i]) == Alone(cfg, w, keys[i], Seen(w, false, keys[i], Read(m, keys[i]))))
              && Concludes(outcome, t, keys, Waiting)
            else if w.cancelled(keys[k]) then
              && (forall i :: 0 <= i < |keys| ==>
                    var s := Seen(w, false, keys[i], Read(m, keys[i]));
                    Read(t, keys[i]) == Seen(w, true, keys[i], if i < k then Alone(cfg, w, keys[i], s) else s))
              && Concludes(outcome, t, keys, Aborted)
            else
              && outcome == Run(cfg, w.answers(keys[k]), Seen(w, false, keys[k], Read(m, keys[k]))).outcome
              && if outcome == Threw then t == m
                 else forall i :: 0 <= i < |keys| ==>
                   var s := Seen(w, false, keys[i], Read(m, keys[i]));
                   Read(t, keys[i]) == if i <= k then Alone(cfg, w, keys[i], s) else s
  {
    hide Run, Alone, Passes, Seen, Distinct, Concludes, SweepFrom, ReconcileTerminals, Verdict;
    var observed := ReconcileTerminals(w, false, keys, m);
    SeenByAll(w, false, keys, m);
    k := SweepStops(cfg, w, keys, observed);
    var sweep := SweepFrom(cfg, w, keys, observed);
    if sweep.SourceCancelled? {
      SeenByAll(w, true, keys, sweep.m);
      VerdictConcludes(ReconcileTerminals(w, true, keys, sweep.m), keys);
    }
    VerdictConcludes(sweep.m, keys);
  }

  lemma SeenByAll(w: Forge, again: bool, keys: seq<string>, m: Store)
    requires Distinct(keys)
    ensures forall i :: 0 <= i < |keys| ==>
              Read(ReconcileTerminals(w, again, keys, m), keys[i]) == Seen(w, again, keys[i], Read(m, keys[i]))
  {
    hide Distinct, ReconcileTerminals, Observe;
    forall i | 0 <= i < |keys|
      ensures Read(ReconcileTerminals(w, again, keys, m), keys[i]) == Seen(w, again, keys[i], Read(m, keys[i]))
    {
      TerminalsLocal(w, again, keys, m, keys[i]);
    }
  }

  /**
   With every repository finished, the run is aborted exactly when there are requests and
   none was merged, and completed otherwise; with one left it has the given outcome.
   */
  predicate Concludes(outcome: Outcome, t: Store, keys: seq<string>, unfinished: Outcome) {
    if exists i :: 0 <= i < |keys| && !Finished(Read(t, keys[i])) then outcome == unfinished
    else if (exists i :: 0 <= i < |keys| && Read(t, keys[i]).terminal.Some?)
         && (forall i :: 0 <= i < |keys| && Read(t, keys[i]).terminal.Some? ==> !Read(t, keys[i]).terminal.value.merged)
    then outcome == Aborted
    else outcome == Completed
  }

  lemma VerdictConcludes(t: Store, keys: seq<string>)
    ensures Concludes(if AllFinished(t, keys) then Verdict(t, keys, false) else Waiting, t, keys, Waiting)
    ensures Concludes(Verdict(t, keys, !AllFinished(t, keys)), t, keys, Aborted)
  {
    hide Read, Finished;
  }

  /** No run makes a repository both unchanged and terminal. */
  lemma ExclusiveIsKept(cfg: Config, w: Forge, keys: seq<string>, m: Store)
    requires Distinct(keys) && AllExclusive(m, keys)
    ensures AllExclusive(DeliverAll(cfg, w, keys, m).1, keys)
  {
    var t := DeliverAll(cfg, w, keys, m).1;
    hide DeliverAll, Run;
    forall i | 0 <= i < |keys|
      ensures Exclusive(Read(t, keys[i]))
    {
      RepositoriesAreIndependent(cfg, w, keys, m, keys[i]);
      var seen := Observe(Read(m, keys[i]), w.terminal(false, keys[i]));
      if !Finished(seen) {
        OutcomesOpenTheirGates(cfg, w.answers(keys[i]), seen);
      }
    }
  }

  /**
   For any number of repositories that were never both unchanged and terminal: a run that
   ends with all of them finished and none stopped reports the server's verdict.
   */
  lemma WorkerAndServerAgree(cfg: Config, w: Forge, keys: seq<string>, m: Store)
    requires Distinct(keys) && AllExclusive(m, keys)
    requires AllFinished(DeliverAll(cfg, w, keys, m).1, keys) && NoneStopped(DeliverAll(cfg, w, keys, m).1, keys)
    requires DeliverAll(cfg, w, keys, m).0 in {Waiting, Completed, Aborted}
    ensures Completion(DeliverAll(cfg, w, keys, m).1, keys) == Some(DeliverAll(cfg, w, keys, m).0)
  {
    hide Run;
    ExclusiveIsKept(cfg, w, keys, m);
    SweepOutcome(cfg, w, keys, ReconcileTerminals(w, false, keys, m));
    var t := DeliverAll(cfg, w, keys, m).1;
    VerdictsAgreeIff(t, keys);
    assert !AnyUnchangedRequest(t, keys, true) && !AnyUnchangedRequest(t, keys, false);
  }

  // ---------------------------------------------------------------- as it runs

  method ObserveTerminals(w: Forge, again: bool, keys: seq<string>, m: Store) returns (state: Store)
    ensures state == ReconcileTerminals(w, again, keys, m)
  {
    state := m;
    for i := 0 to |keys|
      invariant ReconcileTerminals(w, again, keys[i..], state) == ReconcileTerminals(w, again, keys, m)
    {
      var key := keys[i];
      assert keys[i..][1..] == keys[i + 1..];
      var current := Read(state, key);
      if !Finished(current) {
        var terminal := w.terminal(again, key);
        if terminal.Some? {
          state := state[key := current.(pr := Some(Link(terminal.value.number, terminal.value.url)), terminal := terminal)];
        }
      }
    }
  }

  method DeliverRepositories(cfg: Config, w: Forge, keys: seq<string>, m: Store) returns (outcome: Outcome, state: Store)
    ensures (outcome, state) == DeliverAll(cfg, w, keys, m)
  {
    hide Run;
    if keys == [] {
      return Threw, m;
    }
    state := ObserveTerminals(w, false, keys, m);
    ghost var observed := state;
    var cancelled := false;
    for i := 0 to |keys|
      invariant !cancelled
      invariant SweepFrom(cfg, w, keys[i..], state) == SweepFrom(cfg, w, keys, observed)
    {
      var key := keys[i];
      assert keys[i..][1..] == keys[i + 1..];
      if !Finished(Read(state, key)) {
        if w.cancelled(key) {
          assert SweepFrom(cfg, w, keys, observed) == SourceCancelled(state);
          state := ObserveTerminals(w, true, keys, state);
          cancelled := !AllFinished(state, keys);
          outcome := Verdict(state, keys, cancelled);
          return;
        }
        var end := RunRepository(cfg, w.answers(key), Read(state, key));
        if end.outcome == Threw {
          return Threw, m;
        }
        state := state[key := end.s];
        if end.outcome !in {Waiting, Completed, Aborted} {
          return end.outcome, state;
        }
      }
    }
    outcome := if AllFinished(state, keys) then Verdict(state, keys, false) else Waiting;
  }
}
