/**
 The end of a maintenance poll as it runs: answer every discussion of the finished batch,
 then settle it. `others` lists what commenters, workers and operators do at each await.
 */
module FeedbackDesks {
  import opened Git
  import opened Delivery
  import opened Policy
  import opened FeedbackRuns

  predicate ByPoller(a: Action) {
    a.Look? || a.Skim? || a.Fire? || a.Refuse? || a.Begin? || a.Answer? || a.Settle? || a.Drop?
  }

  class Poller {
    const setting: Setting
    var world: World
    ghost const origin: World
    ghost var log: seq<Action>

    ghost predicate Valid()
      reads this
    {
      Legal(setting, origin, log) && After(setting, origin, log) == world
    }

    constructor (setting: Setting, w: World)
      ensures Valid() && this.setting == setting && world == w && log == []
    {
      this.setting, world, origin, log := setting, w, w, [];
    }

    method Step(a: Action)
      requires Valid() && Enabled(setting, world, a)
      modifies this
      ensures Valid() && world == Do(setting, old(world), a) && log == old(log) + [a]
    {
      hide Enabled, Do;
      Extend(setting, origin, log, a);
      world, log := Do(setting, world, a), log + [a];
    }

    method Meanwhile(others: seq<Action>)
      requires Valid()
      modifies this
      ensures Valid() && old(log) <= log
      ensures world.desk == old(world).desk && old(world).replies <= world.replies && world.batches == old(world).batches
      ensures others == [] ==> world == old(world)
    {
      hide Valid, Enabled, Do;
      for i := 0 to |others|
        invariant Valid() && old(log) <= log
        invariant world.desk == old(world).desk && old(world).replies <= world.replies && world.batches == old(world).batches
        invariant i == 0 ==> world == old(world)
      {
        if Enabled(setting, world, others[i]) && !ByPoller(others[i]) {
          OthersLeaveTheDesk(setting, world, others[i]);
          Step(others[i]);
        }
      }
    }

    /** Make every reply of the batch durable. */
    method AnswerAll(others: seq<Action>)
      requires Valid() && world.desk.Answering?
      modifies this
      ensures Valid() && old(log) <= log
      ensures world.desk == old(world).desk && world.batches == old(world).batches
      ensures Messages(world.desk.work.s) <= world.replies
      ensures others == [] ==> world.Now() == old(world).Now()
    {
      hide Valid, Enabled, Do, Messages;
      var left := Messages(world.desk.work.s);
      while left != {}
        invariant Valid() && old(log) <= log
        invariant world.desk == old(world).desk && world.batches == old(world).batches
        invariant left <= Messages(old(world).desk.work.s) && Messages(old(world).desk.work.s) <= world.replies + left
        invariant others == [] ==> world.Now() == old(world).Now()
        decreases |left|
      {
        var message :| message in left;
        Meanwhile(others);
        StepFacts(setting, world, Answer(message));
        Step(Answer(message));
        left := left - {message};
      }
    }

    /** The batch is settled exactly when the process is still what was answered. */
    method AnswerAndSettle(others: seq<Action>) returns (settled: bool)
      requires Valid() && world.desk.Routed?
      modifies this
      ensures Valid() && old(log) <= log && world.desk == Resting
      ensures Messages(old(world).s) <= world.replies
      ensures world.batches == if settled then old(world).batches + [old(world).s.notes] else old(world).batches
      ensures settled ==> world.s == Settled(old(world).s) && old(world).s.result.Some?
      ensures settled ==> Handled(old(world).s, world.s)
      ensures others == [] && !old(world).executing && old(world).s.result.Some? ==> settled
    {
      hide Valid, Enabled, Do, Messages, Settled, Handled;
      var snapshot := world.Now();
      StepFacts(setting, world, Begin);
      Step(Begin);
      AnswerAll(others);
      settled := world.Now() == snapshot && !world.executing && world.s.result.Some?;
      StepFacts(setting, world, Settle);
      if settled {
        SettlingHandles(world.s);
      }
      Step(Settle);
    }
  }

  /** The cursor has passed the batch, nothing is left to answer, and Deliver waits for new evidence. */
  predicate Handled(s: Pub, t: Pub) {
    && t.notes == [] && t.result.None? && t.adjustment.None? && t.stage == Awaiting && Messages(t) == {}
    && t.head == s.head && t.pr == s.pr && t.conflict == s.conflict && t.ciCycles == s.ciCycles && t.pipeline == s.pipeline
    && t.cursor >= s.cursor && (forall n :: n in s.notes ==> n.id <= t.cursor)
    && (t.cursor == s.cursor || exists n :: n in s.notes && n.id == t.cursor)
  }

  lemma SettlingHandles(s: Pub)
    requires s.result.Some?
    ensures Handled(s, Settled(s))
  {
    if MaxId(s.cursor, s.notes) != s.cursor {
      var i :| 0 <= i < |s.notes| && MaxId(s.cursor, s.notes) == s.notes[i].id;
      assert s.notes[i] in s.notes;
    }
  }

  lemma OthersLeaveTheDesk(st: Setting, w: World, a: Action)
    requires Enabled(st, w, a) && !ByPoller(a)
    ensures var t := Do(st, w, a); t.desk == w.desk && w.replies <= t.replies && t.batches == w.batches
  {
    hide Run;
  }

  lemma StepFacts(st: Setting, w: World, a: Action)
    requires (a == Begin && w.desk.Routed?) || (a.Answer? && w.desk.Answering? && a.comment in Messages(w.desk.work.s))
             || (a == Settle && w.desk.Answering? && Messages(w.desk.work.s) <= w.replies)
    ensures Enabled(st, w, a)
    ensures a == Begin ==> Do(st, w, a) == w.(desk := Answering(w.Now()))
    ensures a.Answer? ==> Do(st, w, a) == w.(replies := w.replies + {a.comment})
    ensures a == Settle ==> Do(st, w, a) == SettledBy(w)
  {
  }
}
