/**
 The part of Git that reconciliation and publication rely on.

 A commit is a value: it is identified by its parents, its tree and its message, which is
 what content addressing gives Git. History is therefore acyclic by construction, and two
 refs name the same commit exactly when the values are equal.
 */
module Git {

  datatype Option<+T> = None | Some(value: T)

  /** A tree maps each path to the contents of its file. */
  type Tree = map<string, string>

  /** `stamp` stands for author, committer and date. */
  datatype Commit = Commit(parents: seq<Commit>, tree: Tree, subject: string, stamp: nat)

  /** `git merge-base --is-ancestor a b` */
  predicate Ancestor(a: Commit, b: Commit)
    decreases b
  {
    a == b || exists i :: 0 <= i < |b.parents| && Ancestor(a, b.parents[i])
  }

  lemma {:induction false} AncestorTransitive(a: Commit, b: Commit, c: Commit)
    requires Ancestor(a, b) && Ancestor(b, c)
    ensures Ancestor(a, c)
    decreases c
  {
    if b != c {
      var i :| 0 <= i < |c.parents| && Ancestor(b, c.parents[i]);
      AncestorTransitive(a, b, c.parents[i]);
    }
  }

  lemma ParentIsAncestor(c: Commit, i: nat)
    requires i < |c.parents|
    ensures Ancestor(c.parents[i], c)
  {
    assert Ancestor(c.parents[i], c.parents[i]);
  }

  /** History has no cycles: nothing descends from its own child. */
  lemma {:induction false} NoCycle(c: Commit, i: nat)
    requires i < |c.parents|
    ensures !Ancestor(c, c.parents[i])
    decreases c
  {
    var p := c.parents[i];
    if Ancestor(c, p) {
      AncestorIsSmaller(c, p);
      assert false;
    }
  }

  lemma {:induction false} AncestorIsSmaller(a: Commit, b: Commit)
    requires Ancestor(a, b)
    ensures a == b || (b decreases to a)
    decreases b
  {
    if a != b {
      var i :| 0 <= i < |b.parents| && Ancestor(a, b.parents[i]);
      AncestorIsSmaller(a, b.parents[i]);
    }
  }

  /** No commit reachable from `c` carries the message `subject`. */
  predicate Lacks(c: Commit, subject: string)
    decreases c
  {
    && c.subject != subject
    && forall i :: 0 <= i < |c.parents| ==> Lacks(c.parents[i], subject)
  }

  lemma {:induction false} LacksIsUnreachable(a: Commit, c: Commit, subject: string)
    requires Lacks(c, subject) && Ancestor(a, c)
    ensures a.subject != subject
    decreases c
  {
    if a != c {
      var i :| 0 <= i < |c.parents| && Ancestor(a, c.parents[i]);
      LacksIsUnreachable(a, c.parents[i], subject);
    }
  }

  // ---------------------------------------------------------------- replaying history

  /** A three-way merge of (base, ours, theirs), conflict resolutions included. */
  type Merge = (Tree, Tree, Tree) -> Tree

  /** `git cherry-pick`: redo the change of a single-parent commit on top of `onto`. */
  function Pick(c: Commit, onto: Commit, merge: Merge): Commit
    requires |c.parents| == 1
  {
    Commit([onto], merge(c.parents[0].tree, onto.tree, c.tree), c.subject, c.stamp)
  }

  /** `head` is reached from `base` through single-parent commits only. */
  predicate Linear(base: Commit, head: Commit)
    decreases head
  {
    head == base || (|head.parents| == 1 && Linear(base, head.parents[0]))
  }

  /** `base..head`, oldest first, on linear history. */
  function Range(base: Commit, head: Commit): seq<Commit>
    requires Linear(base, head)
    decreases head
  {
    if head == base then [] else Range(base, head.parents[0]) + [head]
  }

  /** `git rebase --onto onto base`, on linear history. */
  function Replay(base: Commit, head: Commit, onto: Commit, merge: Merge): Commit
    requires Linear(base, head)
    decreases head
  {
    if head == base then onto else Pick(head, Replay(base, head.parents[0], onto, merge), merge)
  }

  /** `r` redoes exactly the change of `c`, on top of `below`. */
  predicate Redoes(r: Commit, c: Commit, below: Commit, merge: Merge)
  {
    && |c.parents| == 1
    && r.parents == [below]
    && r.subject == c.subject
    && r.stamp == c.stamp
    && r.tree == merge(c.parents[0].tree, below.tree, c.tree)
  }

  predicate RedoesAt(rs: seq<Commit>, cs: seq<Commit>, onto: Commit, merge: Merge, i: nat)
    requires i < |rs| == |cs|
  {
    Redoes(rs[i], cs[i], if i == 0 then onto else rs[i - 1], merge)
  }

  /** The commits of `rs` are, in order, one replay of each commit of `cs` above `onto`. */
  predicate ReplaysOf(rs: seq<Commit>, cs: seq<Commit>, onto: Commit, merge: Merge)
  {
    && |rs| == |cs|
    && forall i: nat :: i < |rs| ==> RedoesAt(rs, cs, onto, merge, i)
  }

  /** Above `onto`, a replay holds one redone commit for each commit of the range, in order. */
  lemma {:induction false} ReplayIsExact(base: Commit, head: Commit, onto: Commit, merge: Merge)
    requires Linear(base, head)
    ensures var r := Replay(base, head, onto, merge);
            && Ancestor(onto, r)
            && Linear(onto, r)
            && ReplaysOf(Range(onto, r), Range(base, head), onto, merge)
            && (r != onto ==> Range(onto, r) != [] && Range(onto, r)[|Range(onto, r)| - 1] == r)
            && (r == onto <==> base == head)
    decreases head
  {
    if head != base {
      var below := Replay(base, head.parents[0], onto, merge);
      ReplayIsExact(base, head.parents[0], onto, merge);
      var r := Replay(base, head, onto, merge);
      assert r.parents == [below];
      ParentIsAncestor(r, 0);
      AncestorTransitive(onto, below, r);
      if r == onto {
        NoCycle(r, 0);
      }
      assert Range(onto, r) == Range(onto, below) + [r];
      var rs, cs := Range(onto, r), Range(base, head);
      forall i: nat | i < |rs|
        ensures RedoesAt(rs, cs, onto, merge, i)
      {
        if i < |rs| - 1 {
          assert RedoesAt(Range(onto, below), Range(base, head.parents[0]), onto, merge, i);
        }
      }
    }
  }

  /** A commit of `base..head` is never contained in `base`. */
  lemma {:induction false} RangeExcludesBase(base: Commit, head: Commit, i: nat)
    requires Linear(base, head) && i < |Range(base, head)|
    ensures !Ancestor(Range(base, head)[i], base)
    ensures Ancestor(base, Range(base, head)[i])
    ensures Ancestor(Range(base, head)[i], head)
    decreases head
  {
    var below := head.parents[0];
    ParentIsAncestor(head, 0);
    LinearIsDescent(base, below);
    if i < |Range(base, below)| {
      RangeExcludesBase(base, below, i);
      AncestorTransitive(Range(base, head)[i], below, head);
    } else {
      assert Range(base, head)[i] == head;
      AncestorTransitive(base, below, head);
      if Ancestor(head, base) {
        AncestorTransitive(head, base, below);
        NoCycle(head, 0);
      }
    }
  }

  lemma {:induction false} LinearIsDescent(base: Commit, head: Commit)
    requires Linear(base, head)
    ensures Ancestor(base, head)
    decreases head
  {
    if head != base {
      LinearIsDescent(base, head.parents[0]);
    }
  }

  /** The range is a chain: each commit is contained in every later one. */
  lemma {:induction false} RangeIsChain(base: Commit, head: Commit, i: nat, j: nat)
    requires Linear(base, head) && i <= j < |Range(base, head)|
    ensures Ancestor(Range(base, head)[i], Range(base, head)[j])
    decreases head
  {
    var below := head.parents[0];
    if j < |Range(base, below)| {
      RangeIsChain(base, below, i, j);
    } else {
      RangeExcludesBase(base, head, i);
    }
  }

  /** A replay carries a message exactly when the range or the commits below it carry it. */
  lemma {:induction false} ReplayLacks(base: Commit, head: Commit, onto: Commit, merge: Merge, subject: string)
    requires Linear(base, head) && Lacks(head, subject) && Lacks(onto, subject)
    ensures Lacks(Replay(base, head, onto, merge), subject)
    decreases head
  {
    if head != base {
      ReplayLacks(base, head.parents[0], onto, merge, subject);
    }
  }
}
