/**
 The release queue: every run derives the version sequence again from main, checks the
 reserved tags against it, and reserves or repairs exactly one release.
 */
module ReleaseQueues {
  import opened Git
  import opened Versions

  /** A first-parent commit of main, from the activation of the release policy on. */
  datatype MainCommit = MainCommit(source: string, intent: Intent)

  datatype Release = Release(source: string, version: string, previous: string)

  /** What the generator yields before it ends, and whether it ends by throwing. */
  datatype Derived = Derived(releases: seq<Release>, failed: bool)

  function Sequence(main: seq<MainCommit>, previous: string): Derived {
    if main == [] then Derived([], false)
    else match Calculate(previous, main[0].intent)
      case Throws => Derived([], true)
      case NoRelease => Sequence(main[1..], previous)
      case Next(version) =>
        var rest := Sequence(main[1..], version);
        Derived([Release(main[0].source, version, previous)] + rest.releases, rest.failed)
  }

  /** Appending to main only extends the derived sequence. */
  lemma {:induction false} AppendingExtends(main: seq<MainCommit>, more: seq<MainCommit>, previous: string)
    ensures Sequence(main, previous).releases <= Sequence(main + more, previous).releases
    ensures Sequence(main, previous).failed ==> Sequence(main + more, previous) == Sequence(main, previous)
  {
    if main == [] {
      assert main + more == more;
    } else {
      assert (main + more)[1..] == main[1..] + more;
      match Calculate(previous, main[0].intent)
      case Throws =>
      case NoRelease => AppendingExtends(main[1..], more, previous);
      case Next(version) => AppendingExtends(main[1..], more, version);
    }
  }

  function Key(s: string): Version {
    if Parse(s).Some? then Parse(s).value else Version(0, 0, 0)
  }

  predicate Readable(rs: seq<Release>) {
    forall i :: 0 <= i < |rs| ==> Parse(rs[i].version).Some?
  }

  lemma SequenceUnfolds(main: seq<MainCommit>, previous: string)
    ensures main == [] ==> Sequence(main, previous).releases == []
    ensures main != [] ==>
              var rs := Sequence(main, previous).releases;
              match Calculate(previous, main[0].intent)
              case Throws => rs == []
              case NoRelease => rs == Sequence(main[1..], previous).releases
              case Next(version) =>
                && |rs| == |Sequence(main[1..], version).releases| + 1
                && rs[0] == Release(main[0].source, version, previous)
                && forall n :: 1 <= n < |rs| ==> rs[n] == Sequence(main[1..], version).releases[n - 1]
  {
    hide Calculate;
    if main != [] {
      match Calculate(previous, main[0].intent)
      case Throws =>
      case NoRelease =>
      case Next(version) =>
        var first, rest := Release(main[0].source, version, previous), Sequence(main[1..], version).releases;
        assert Sequence(main, previous).releases == [first] + rest;
    }
  }

  /** Each release names its predecessor and is greater than it. */
  lemma {:induction false} SequenceIsAChain(main: seq<MainCommit>, previous: string, i: nat)
    requires Parse(previous).Some? && Readable(Sequence(main, previous).releases)
    requires i < |Sequence(main, previous).releases|
    ensures var rs := Sequence(main, previous).releases;
            && rs[i].previous == (if i == 0 then previous else rs[i - 1].version)
            && Less(Key(rs[i].previous), Key(rs[i].version))
    decreases |main|
  {
    SequenceUnfolds(main, previous);
    hide Parse, Print, Calculate, Compare, Covers, Sequence;
    match Calculate(previous, main[0].intent)
    case Throws => assert false;
    case NoRelease => SequenceIsAChain(main[1..], previous, i);
    case Next(version) =>
      var rs, rest := Sequence(main, previous).releases, Sequence(main[1..], version).releases;
      assert Parse(rs[0].version).Some?;
      if i > 0 {
        assert Readable(rest) by {
          assert forall n :: 0 <= n < |rest| ==> rest[n] == rs[n + 1];
        }
        assert rest[i - 1] == rs[i];
        if i > 1 {
          assert rest[i - 2] == rs[i - 1];
        }
        SequenceIsAChain(main[1..], version, i - 1);
      } else {
        var next := CalculatedVersionIncreases(previous, main[0].intent);
      }
  }

  /** Versions increase along the whole sequence, and all of them are above the baseline. */
  lemma {:induction false} SequenceIncreases(main: seq<MainCommit>, previous: string, i: nat, j: nat)
    requires Parse(previous).Some? && Readable(Sequence(main, previous).releases)
    requires i <= j < |Sequence(main, previous).releases|
    ensures var rs := Sequence(main, previous).releases;
            && Less(Parse(previous).value, Key(rs[i].version))
            && (i < j ==> Less(Key(rs[i].version), Key(rs[j].version)))
    decreases j
  {
    hide Parse, Sequence, Compare;
    var rs := Sequence(main, previous).releases;
    SequenceIsAChain(main, previous, i);
    if i > 0 {
      SequenceIncreases(main, previous, i - 1, i - 1);
      LessIsTransitive(Parse(previous).value, Key(rs[i - 1].version), Key(rs[i].version));
    }
    if i < j {
      SequenceIsAChain(main, previous, j);
      if i < j - 1 {
        SequenceIncreases(main, previous, i, j - 1);
        LessIsTransitive(Key(rs[i].version), Key(rs[j - 1].version), Key(rs[j].version));
      }
    }
  }

  lemma LessIsTransitive(a: Version, b: Version, c: Version)
    requires Less(a, b) && Less(b, c)
    ensures Less(a, c)
  {
  }

  /** The commit asks for a release. */
  predicate Asks(m: MainCommit) {
    m.intent.releaseAs.Some? || m.intent.breaking || m.intent.kind != Other
  }

  function AskingSources(main: seq<MainCommit>): seq<string> {
    if main == [] then []
    else if Asks(main[0]) then [main[0].source] + AskingSources(main[1..])
    else AskingSources(main[1..])
  }

  function SourcesOf(rs: seq<Release>): seq<string> {
    if rs == [] then [] else [rs[0].source] + SourcesOf(rs[1..])
  }

  /** No merge is skipped or counted twice: the releases are, in order, the merges that ask for one. */
  lemma {:induction false} EveryAskingMergeIsReleased(main: seq<MainCommit>, previous: string)
    requires !Sequence(main, previous).failed
    ensures SourcesOf(Sequence(main, previous).releases) == AskingSources(main)
  {
    if main != [] {
      match Calculate(previous, main[0].intent)
      case Throws => assert false;
      case NoRelease => EveryAskingMergeIsReleased(main[1..], previous);
      case Next(version) =>
        EveryAskingMergeIsReleased(main[1..], version);
        assert Sequence(main, previous).releases[1..] == Sequence(main[1..], version).releases;
    }
  }

  // ---------------------------------------------------------------- tags and releases

  /** The message of a reservation tag names the release; `commit` is what it points to. */
  datatype Tag = Tag(release: Release, parent: string, commit: string)

  /** `owned`: stable, and created by the automation account. */
  datatype GitHubRelease = GitHubRelease(draft: bool, owned: bool)

  datatype Queue = Queue(main: seq<MainCommit>, tags: map<string, Tag>, releases: map<string, GitHubRelease>)

  predicate Above(version: string, baseline: string) {
    Parse(version).Some? && Parse(baseline).Some? && Less(Parse(baseline).value, Parse(version).value)
  }

  /** Names of another form are ignored; a stable name whose counters are too large makes the run throw. */
  predicate Comparable(name: string) {
    Stable(name) ==> Parse(name).Some?
  }

  predicate Ascending(s: seq<string>) {
    && (forall i :: 0 <= i < |s| ==> Parse(s[i]).Some?)
    && (forall i, j :: 0 <= i < j < |s| ==> Less(Key(s[i]), Key(s[j])))
  }

  /** `sorted` lists the tags above the baseline in order of precedence. */
  ghost predicate SortedTags(sorted: seq<string>, q: Queue, baseline: string) {
    && Ascending(sorted)
    && forall v :: v in sorted <==> v in q.tags && Above(v, baseline)
  }

  /** Sorting has one result. */
  lemma {:induction false} AscendingIsUnique(a: seq<string>, b: seq<string>)
    requires Ascending(a) && Ascending(b) && forall v :: v in a <==> v in b
    ensures a == b
    decreases |a|
  {
    hide Parse;
    assert b != [] ==> b[0] in a;
    if a != [] {
      assert a[0] in b;
      var j :| 0 <= j < |b| && b[j] == a[0];
      var i :| 0 <= i < |a| && a[i] == b[0];
      assert i == 0 && j == 0;
      forall v
        ensures v in a[1..] <==> v in b[1..]
      {
        if v in a[1..] {
          assert v in b;
          assert v != b[0];
        }
        if v in b[1..] {
          assert v in a;
          assert v != a[0];
        }
      }
      AscendingIsUnique(a[1..], b[1..]);
    }
  }

  predicate Unfinished(q: Queue, version: string) {
    version !in q.releases || q.releases[version].draft
  }

  predicate Usable(r: map<string, GitHubRelease>, baseline: string) {
    && baseline in r && !r[baseline].draft && r[baseline].owned
    && forall v :: v in r ==> Comparable(v)
  }

  /** Tag number `i` is the reservation of release number `i`, and nothing foreign holds its name. */
  predicate Reserves(q: Queue, sorted: seq<string>, rs: seq<Release>, i: nat)
    requires i < |sorted|
  {
    && i < |rs| && sorted[i] == rs[i].version
    && sorted[i] in q.tags && q.tags[sorted[i]].release == rs[i] && q.tags[sorted[i]].parent == rs[i].source
    && (sorted[i] in q.releases ==> q.releases[sorted[i]].owned)
    && (Unfinished(q, sorted[i]) ==> i == |sorted| - 1)
  }

  predicate Consistent(q: Queue, baseline: string, sorted: seq<string>, rs: seq<Release>) {
    && (forall v :: v in q.tags ==> Comparable(v))
    && Usable(q.releases, baseline)
    && (forall v :: v in q.releases && Above(v, baseline) ==> v in q.tags)
    && forall i: nat :: i < |sorted| ==> Reserves(q, sorted, rs, i)
  }

  datatype Selection = Refuse | Nothing | Pick(release: Release)

  function Select(q: Queue, baseline: string, sorted: seq<string>): Selection {
    var d := Sequence(q.main, baseline);
    if Parse(baseline).None? || !Consistent(q, baseline, sorted, d.releases) then Refuse
    else
      assert sorted != [] ==> Reserves(q, sorted, d.releases, |sorted| - 1);
      if sorted != [] && Unfinished(q, sorted[|sorted| - 1]) then Pick(d.releases[|sorted| - 1])
      else if |sorted| < |d.releases| then Pick(d.releases[|sorted|])
      else if d.failed then Refuse
      else Nothing
  }

  /**
   From any tags and releases, also foreign ones: a picked release is the oldest derived one
   that is not published. Every older one has its own reservation and is published by the
   automation, every tag above the baseline is the reservation of one of these or of the
   picked one, and every release above the baseline has a tag.
   */
  lemma PickIsTheOldestUnpublished(q: Queue, baseline: string, sorted: seq<string>) returns (n: nat)
    requires SortedTags(sorted, q, baseline) && Select(q, baseline, sorted).Pick?
    ensures var rs := Sequence(q.main, baseline).releases;
            && n < |rs| && Select(q, baseline, sorted).release == rs[n]
            && (n == |sorted| || (n == |sorted| - 1 && sorted[n] == rs[n].version
                                  && (rs[n].version in q.releases ==> q.releases[rs[n].version].draft)))
            && (forall i :: 0 <= i < n ==>
                  var v := rs[i].version;
                  && v in q.tags && q.tags[v].release == rs[i] && q.tags[v].parent == rs[i].source
                  && v in q.releases && !q.releases[v].draft && q.releases[v].owned)
            && (forall v :: v in q.tags && Above(v, baseline) ==>
                  exists i :: 0 <= i <= n && rs[i].version == v && q.tags[v].release == rs[i] && q.tags[v].parent == rs[i].source)
            && baseline in q.releases && !q.releases[baseline].draft && q.releases[baseline].owned
            && (forall v :: v in q.releases && Above(v, baseline) ==> v in q.tags && q.releases[v].owned)
  {
    hide Parse, Sequence, Ascending, Comparable;
    var rs := Sequence(q.main, baseline).releases;
    assert sorted != [] ==> Reserves(q, sorted, rs, |sorted| - 1);
    n := if sorted != [] && Unfinished(q, sorted[|sorted| - 1]) then |sorted| - 1 else |sorted|;
    forall i | 0 <= i < n
      ensures var v := rs[i].version;
              && v in q.tags && q.tags[v].release == rs[i] && q.tags[v].parent == rs[i].source
              && v in q.releases && !q.releases[v].draft && q.releases[v].owned
    {
      assert Reserves(q, sorted, rs, i);
    }
    forall v | v in q.tags && Above(v, baseline)
      ensures exists i :: 0 <= i <= n && rs[i].version == v && q.tags[v].release == rs[i] && q.tags[v].parent == rs[i].source
    {
      var i :| 0 <= i < |sorted| && sorted[i] == v;
      assert Reserves(q, sorted, rs, i);
    }
    forall v | v in q.releases && Above(v, baseline)
      ensures v in q.tags && q.releases[v].owned
    {
      var i :| 0 <= i < |sorted| && sorted[i] == v;
      assert Reserves(q, sorted, rs, i);
    }
  }

  datatype Fate = Survives | DiesBeforeTag | DiesBeforeDraft

  datatype Outcome = Rejected | NothingPending | Died | Chosen(release: Release, commit: string)

  /** `prepareReleaseCommit` is reproducible; None where the contents do not validate. */
  type Prepare = Release -> Option<string>

  type Validated = string -> bool

  function Reserve(q: Queue, r: Release, commit: string): Queue {
    if r.version in q.tags then q else q.(tags := q.tags[r.version := Tag(r, r.source, commit)])
  }

  function CreateDraft(q: Queue, r: Release): Queue {
    if r.version in q.releases then q else q.(releases := q.releases[r.version := GitHubRelease(true, true)])
  }

  /** What one run of `resolveMainRelease` returns and leaves behind. */
  function Attempt(q: Queue, baseline: string, sorted: seq<string>, prepare: Prepare, validated: Validated, tooling: string, fate: Fate):
    (Outcome, Queue)
  {
    match Select(q, baseline, sorted)
    case Refuse => (Rejected, q)
    case Nothing => (NothingPending, q)
    case Pick(r) =>
      if !validated(r.source) || !validated(tooling) || prepare(r).None? then (Rejected, q)
      else
        var commit := prepare(r).value;
        if r.version in q.tags && q.tags[r.version].commit != commit then (Rejected, q)
        else if fate == DiesBeforeTag then (Died, q)
        else if fate == DiesBeforeDraft then (Died, Reserve(q, r, commit))
        else (Chosen(r, commit), CreateDraft(Reserve(q, r, commit), r))
  }

  /** Tags and releases that were there stay as they were. */
  predicate Grows(q: Queue, t: Queue) {
    && t.main == q.main
    && (forall v :: v in q.tags ==> v in t.tags && t.tags[v] == q.tags[v])
    && (forall v :: v in q.releases ==> v in t.releases && t.releases[v] == q.releases[v])
  }

  /**
   What an attempt needs and leaves. Without main CI for the source of the picked release and
   for the tooling, or without contents that validate, it is rejected and nothing is written.
   With both, an attempt that survives chooses the release exactly when an earlier
   reservation points to the same commit. It writes at most the reservation of the picked
   release, at the prepared commit above its source, and then a draft owned by the automation.
   */
  lemma AttemptIsGated(
    q: Queue, baseline: string, sorted: seq<string>, prepare: Prepare, validated: Validated, tooling: string, fate: Fate)
    ensures var (o, t) := Attempt(q, baseline, sorted, prepare, validated, tooling, fate);
            && Grows(q, t)
            && (Select(q, baseline, sorted).Nothing? <==> o == NothingPending)
            && (!Select(q, baseline, sorted).Pick? ==> t == q && o in {Rejected, NothingPending})
            && (Select(q, baseline, sorted).Pick? ==>
                  var r := Select(q, baseline, sorted).release;
                  && (!(validated(r.source) && validated(tooling) && prepare(r).Some?) ==> o == Rejected && t == q)
                  && (o.Chosen? <==> && fate == Survives && validated(r.source) && validated(tooling) && prepare(r).Some?
                                     && (r.version in q.tags ==> q.tags[r.version].commit == prepare(r).value))
                  && (o.Chosen? ==> o.release == r && Some(o.commit) == prepare(r) && r.version in t.releases
                                    && r.version in t.tags && t.tags[r.version].commit == o.commit)
                  && (forall v :: v in t.tags && v !in q.tags ==>
                        v == r.version && prepare(r) == Some(t.tags[v].commit) && t.tags[v] == Tag(r, r.source, t.tags[v].commit))
                  && (forall v :: v in t.releases && v !in q.releases ==>
                        v == r.version && v in t.tags && t.releases[v] == GitHubRelease(true, true)))
  {
    hide Select;
  }

  // ---------------------------------------------------------------- the queue over time

  datatype Event =
    | Merged(merge: MainCommit)
    | Attempted(sorted: seq<string>, validated: Validated, tooling: string, fate: Fate)
    | Finalized(version: string)

  ghost predicate Enabled(q: Queue, baseline: string, e: Event) {
    match e
    case Merged(_) => true
    case Attempted(sorted, _, _, _) => SortedTags(sorted, q, baseline)
    case Finalized(version) => version in q.tags && Above(version, baseline) && version in q.releases
  }

  ghost function Happen(q: Queue, baseline: string, prepare: Prepare, e: Event): Queue
    requires Enabled(q, baseline, e)
  {
    match e
    case Merged(m) => q.(main := q.main + [m])
    case Attempted(sorted, validated, tooling, fate) =>
      Attempt(q, baseline, sorted, prepare, validated, tooling, fate).1
    case Finalized(version) => q.(releases := q.releases[version := q.releases[version].(draft := false)])
  }

  ghost predicate Legal(q: Queue, baseline: string, prepare: Prepare, es: seq<Event>)
    decreases |es|, 0
  {
    es == [] ||
    var before := es[..|es| - 1];
    Legal(q, baseline, prepare, before) && Enabled(After(q, baseline, prepare, before), baseline, es[|es| - 1])
  }

  ghost function After(q: Queue, baseline: string, prepare: Prepare, es: seq<Event>): Queue
    requires Legal(q, baseline, prepare, es)
    decreases |es|, 1
  {
    if es == [] then q else
      var before := es[..|es| - 1];
      Happen(After(q, baseline, prepare, before), baseline, prepare, es[|es| - 1])
  }

  /** The first `k` derived releases are exactly the reserved ones, and all but the last of them are published. */
  ghost predicate Reserved(q: Queue, baseline: string, prepare: Prepare, k: nat) {
    var rs := Sequence(q.main, baseline).releases;
    && k <= |rs|
    && Usable(q.releases, baseline)
    && (forall v :: v in q.tags ==> Comparable(v))
    && (forall v :: v in q.tags && Above(v, baseline) ==> exists i :: 0 <= i < k && rs[i].version == v)
    && (forall i :: 0 <= i < k ==> rs[i].version in q.tags && Some(q.tags[rs[i].version].commit) == prepare(rs[i])
                                   && q.tags[rs[i].version] == Tag(rs[i], rs[i].source, q.tags[rs[i].version].commit))
    && (forall v :: v in q.releases && Above(v, baseline) ==> v in q.tags && q.releases[v].owned)
    && (forall i :: 0 <= i < k - 1 ==> !Unfinished(q, rs[i].version))
  }

  /** Every Release-As increases, no counter reaches the safe-integer bound, and every release validates. */
  ghost predicate Healthy(main: seq<MainCommit>, baseline: string, prepare: Prepare) {
    var d := Sequence(main, baseline);
    && Parse(baseline).Some? && !d.failed && Readable(d.releases)
    && forall i :: 0 <= i < |d.releases| ==> prepare(d.releases[i]).Some?
  }

  lemma HealthyPrefix(main: seq<MainCommit>, more: seq<MainCommit>, baseline: string, prepare: Prepare)
    requires Healthy(main + more, baseline, prepare)
    ensures Healthy(main, baseline, prepare)
  {
    AppendingExtends(main, more, baseline);
    var a, b := Sequence(main, baseline).releases, Sequence(main + more, baseline).releases;
    assert forall i :: 0 <= i < |a| ==> a[i] == b[i];
  }

  function VersionsOf(rs: seq<Release>): (vs: seq<string>)
    ensures |vs| == |rs| && forall i :: 0 <= i < |rs| ==> vs[i] == rs[i].version
  {
    seq(|rs|, i requires 0 <= i < |rs| => rs[i].version)
  }

  lemma DerivedVersionsAscend(main: seq<MainCommit>, baseline: string, k: nat)
    requires Parse(baseline).Some? && Readable(Sequence(main, baseline).releases)
    requires k <= |Sequence(main, baseline).releases|
    ensures Ascending(VersionsOf(Sequence(main, baseline).releases[..k]))
    ensures forall i :: 0 <= i < k ==> Above(Sequence(main, baseline).releases[i].version, baseline)
  {
    var rs := Sequence(main, baseline).releases;
    var vs := VersionsOf(rs[..k]);
    forall i | 0 <= i < k
      ensures Above(rs[i].version, baseline)
    {
      SequenceIncreases(main, baseline, i, i);
    }
    forall i, j | 0 <= i < j < |vs|
      ensures Less(Key(vs[i]), Key(vs[j]))
    {
      SequenceIncreases(main, baseline, i, j);
    }
  }

  /** The tags above the baseline, sorted by version, are a prefix of the derived sequence. */
  lemma TagsAreAPrefix(q: Queue, baseline: string, prepare: Prepare, k: nat, sorted: seq<string>)
    requires Reserved(q, baseline, prepare, k) && Healthy(q.main, baseline, prepare)
    requires SortedTags(sorted, q, baseline)
    ensures sorted == VersionsOf(Sequence(q.main, baseline).releases[..k])
  {
    var rs := Sequence(q.main, baseline).releases;
    var vs := VersionsOf(rs[..k]);
    DerivedVersionsAscend(q.main, baseline, k);
    forall v
      ensures v in sorted <==> v in vs
    {
      if v in sorted {
        var i :| 0 <= i < k && rs[i].version == v;
        assert vs[i] == v;
      }
      if v in vs {
        var i :| 0 <= i < |vs| && vs[i] == v;
      }
    }
    AscendingIsUnique(sorted, vs);
  }

  /** A run never rejects a state that earlier runs, merges and crashes produced. */
  lemma ReservedIsAccepted(q: Queue, baseline: string, prepare: Prepare, k: nat, sorted: seq<string>)
    requires Reserved(q, baseline, prepare, k) && Healthy(q.main, baseline, prepare)
    requires SortedTags(sorted, q, baseline)
    ensures var rs := Sequence(q.main, baseline).releases;
            Select(q, baseline, sorted) ==
              if k > 0 && Unfinished(q, rs[k - 1].version) then Pick(rs[k - 1])
              else if k < |rs| then Pick(rs[k]) else Nothing
  {
    TagsAreAPrefix(q, baseline, prepare, k, sorted);
    DerivedVersionsAscend(q.main, baseline, k);
    var rs := Sequence(q.main, baseline).releases;
    assert |sorted| == k;
    forall i: nat | i < |sorted|
      ensures Reserves(q, sorted, rs, i)
    {
      assert sorted[i] == rs[i].version;
    }
  }

  lemma ReservingKeepsReserved(q: Queue, baseline: string, prepare: Prepare, k: nat)
    requires Reserved(q, baseline, prepare, k) && Healthy(q.main, baseline, prepare)
    requires k < |Sequence(q.main, baseline).releases|
    requires k > 0 ==> !Unfinished(q, Sequence(q.main, baseline).releases[k - 1].version)
    ensures var r := Sequence(q.main, baseline).releases[k];
            && r.version !in q.tags && r.version !in q.releases
            && Reserved(Reserve(q, r, prepare(r).value), baseline, prepare, k + 1)
  {
    hide Parse, Calculate, Sequence, Compare;
    var rs := Sequence(q.main, baseline).releases;
    DerivedVersionsAscend(q.main, baseline, k + 1);
    FreshVersion(q.main, baseline, k);
    assert Above(rs[k].version, baseline);
  }

  lemma DraftKeepsReserved(q: Queue, baseline: string, prepare: Prepare, k: nat)
    requires Reserved(q, baseline, prepare, k) && Healthy(q.main, baseline, prepare) && k > 0
    ensures Reserved(CreateDraft(q, Sequence(q.main, baseline).releases[k - 1]), baseline, prepare, k)
  {
    hide Parse, Calculate, Sequence, Compare;
    DerivedVersionsAscend(q.main, baseline, k);
    FreshVersion(q.main, baseline, k - 1);
  }

  lemma FinalizingKeepsReserved(q: Queue, baseline: string, prepare: Prepare, k: nat, version: string)
    requires Reserved(q, baseline, prepare, k) && version in q.tags && Above(version, baseline) && version in q.releases
    ensures Reserved(q.(releases := q.releases[version := q.releases[version].(draft := false)]), baseline, prepare, k)
  {
    hide Parse, Calculate, Sequence, Compare;
  }

  lemma AttemptKeepsReserved(q: Queue, baseline: string, prepare: Prepare, k: nat, e: Event) returns (k': nat)
    requires Reserved(q, baseline, prepare, k) && Healthy(q.main, baseline, prepare)
    requires e.Attempted? && Enabled(q, baseline, e)
    ensures Reserved(Happen(q, baseline, prepare, e), baseline, prepare, k')
    ensures k <= k' <= k + 1
  {
    hide Parse, Calculate, Sequence, Compare, Select, Reserved, Unfinished;
    var rs := Sequence(q.main, baseline).releases;
    ReservedIsAccepted(q, baseline, prepare, k, e.sorted);
    ReservedTags(q, baseline, prepare, k);
    k' := k;
    if Attempt(q, baseline, e.sorted, prepare, e.validated, e.tooling, e.fate).1 != q {
      if k > 0 && Unfinished(q, rs[k - 1].version) {
        DraftKeepsReserved(q, baseline, prepare, k);
      } else {
        k' := k + 1;
        ReservingKeepsReserved(q, baseline, prepare, k);
        DraftKeepsReserved(Reserve(q, rs[k], prepare(rs[k]).value), baseline, prepare, k + 1);
      }
    }
  }

  lemma ReservedTags(q: Queue, baseline: string, prepare: Prepare, k: nat)
    requires Reserved(q, baseline, prepare, k)
    ensures k <= |Sequence(q.main, baseline).releases|
    ensures k > 0 ==> Sequence(q.main, baseline).releases[k - 1].version in q.tags
  {
  }

  /** No version is given to two merges. */
  lemma FreshVersion(main: seq<MainCommit>, baseline: string, k: nat)
    requires Parse(baseline).Some? && Readable(Sequence(main, baseline).releases)
    requires k < |Sequence(main, baseline).releases|
    ensures var rs := Sequence(main, baseline).releases;
            forall i :: 0 <= i < |rs| && i != k ==> rs[i].version != rs[k].version
    ensures Sequence(main, baseline).releases[k].version != baseline
  {
    var rs := Sequence(main, baseline).releases;
    SequenceIncreases(main, baseline, k, k);
    forall i | 0 <= i < |rs| && i != k
      ensures rs[i].version != rs[k].version
    {
      if i < k {
        SequenceIncreases(main, baseline, i, k);
      } else {
        SequenceIncreases(main, baseline, k, i);
      }
    }
  }

  lemma MergeKeepsReserved(q: Queue, baseline: string, prepare: Prepare, k: nat, m: MainCommit)
    requires Reserved(q, baseline, prepare, k)
    ensures Reserved(q.(main := q.main + [m]), baseline, prepare, k)
  {
    hide Parse, Calculate, Compare, Sequence;
    AppendingExtends(q.main, [m], baseline);
    var a, b := Sequence(q.main, baseline).releases, Sequence(q.main + [m], baseline).releases;
    assert forall i :: 0 <= i < |a| ==> a[i] == b[i];
  }

  lemma AttemptLeavesMain(q: Queue, baseline: string, prepare: Prepare, e: Event)
    requires e.Attempted? && Enabled(q, baseline, e)
    ensures Happen(q, baseline, prepare, e).main == q.main
  {
    hide Parse, Calculate, Compare, Sequence, Select;
  }

  /** Main CI has passed for every commit. */
  ghost predicate Passes(e: Event) {
    e.Attempted? && forall source :: e.validated(source)
  }

  /** The attempt found main CI passed for the source of a release and for its own tooling. */
  predicate Validates(e: Event, source: string) {
    e.Attempted? && e.validated(source) && e.validated(e.tooling)
  }

  lemma StepNeedsCi(q: Queue, baseline: string, prepare: Prepare, e: Event)
    requires Enabled(q, baseline, e)
    ensures var t := Happen(q, baseline, prepare, e);
            && (forall v :: v in q.tags ==> v in t.tags && t.tags[v] == q.tags[v])
            && (forall v :: v in q.releases ==> v in t.releases)
            && (forall v :: v in t.tags && v !in q.tags ==>
                  && Validates(e, t.tags[v].release.source)
                  && t.tags[v].parent == t.tags[v].release.source && prepare(t.tags[v].release) == Some(t.tags[v].commit))
            && (forall v :: v in t.releases && v !in q.releases ==> v in t.tags && e.Attempted? && Select(q, baseline, e.sorted).Pick?
                                                                    && Validates(e, Select(q, baseline, e.sorted).release.source)
                                                                    && Select(q, baseline, e.sorted).release.version == v)
  {
    hide Select, Attempt;
    if e.Attempted? {
      AttemptIsGated(q, baseline, e.sorted, prepare, e.validated, e.tooling, e.fate);
    }
  }

  /**
   Over every run, a tag is never moved or removed, and every tag that was not there at the
   start was added by an attempt that found main CI passed for its source and for its own
   tooling: event `n` of the run.
   */
  lemma {:induction false} ReservationsNeedCi(q: Queue, baseline: string, prepare: Prepare, es: seq<Event>, v: string) returns (n: nat)
    requires Legal(q, baseline, prepare, es)
    ensures var t := After(q, baseline, prepare, es);
            && (v in q.tags ==> v in t.tags && t.tags[v] == q.tags[v])
            && (v in t.tags && v !in q.tags ==>
                  && n < |es| && Validates(es[n], t.tags[v].release.source)
                  && t.tags[v].parent == t.tags[v].release.source && prepare(t.tags[v].release) == Some(t.tags[v].commit))
  {
    hide Enabled, Happen;
    n := 0;
    if es != [] {
      var before := es[..|es| - 1];
      var mid := After(q, baseline, prepare, before);
      n := ReservationsNeedCi(q, baseline, prepare, before, v);
      StepNeedsCi(mid, baseline, prepare, es[|es| - 1]);
      if v !in mid.tags {
        n := |es| - 1;
      }
    }
  }

  /** With CI green, the chosen release can always be reserved or repaired. */
  lemma ReservedIsNotRejected(q: Queue, baseline: string, prepare: Prepare, k: nat, e: Event)
    requires Reserved(q, baseline, prepare, k) && Healthy(q.main, baseline, prepare)
    requires e.Attempted? && Enabled(q, baseline, e) && Passes(e)
    ensures Attempt(q, baseline, e.sorted, prepare, e.validated, e.tooling, e.fate).0 != Rejected
  {
    hide Parse, Calculate, Sequence, Compare, Select;
    ReservedIsAccepted(q, baseline, prepare, k, e.sorted);
    var rs := Sequence(q.main, baseline).releases;
    if k < |rs| && !(k > 0 && Unfinished(q, rs[k - 1].version)) {
      ReservingKeepsReserved(q, baseline, prepare, k);
    }
  }

  /**
   Over every run of merges, attempts (finished, refused or killed between any two writes)
   and publications, the reserved tags are the first `k` derived releases in order, only
   the last may be unfinished, and with CI green the next attempt is not rejected.
   */
  lemma {:induction false} QueueStaysConsistent(q: Queue, baseline: string, prepare: Prepare, es: seq<Event>) returns (k: nat)
    requires Reserved(q, baseline, prepare, 0)
    requires Legal(q, baseline, prepare, es)
    requires Healthy(After(q, baseline, prepare, es).main, baseline, prepare)
    ensures Reserved(After(q, baseline, prepare, es), baseline, prepare, k)
    ensures forall sorted :: SortedTags(sorted, After(q, baseline, prepare, es), baseline) ==>
              && sorted == VersionsOf(Sequence(After(q, baseline, prepare, es).main, baseline).releases[..k])
              && Select(After(q, baseline, prepare, es), baseline, sorted) != Refuse
    ensures forall e :: Enabled(After(q, baseline, prepare, es), baseline, e) && e.Attempted? && Passes(e) ==>
              Attempt(After(q, baseline, prepare, es), baseline, e.sorted, prepare, e.validated, e.tooling, e.fate).0 != Rejected
  {
    hide Parse, Calculate, Compare, Sequence, Reserved, Select, Attempt;
    if es == [] {
      k := 0;
    } else {
      var before, e := es[..|es| - 1], es[|es| - 1];
      var mid := After(q, baseline, prepare, before);
      match e {
        case Merged(m) => HealthyPrefix(mid.main, [m], baseline, prepare);
        case Attempted(_, _, _, _) => AttemptLeavesMain(mid, baseline, prepare, e);
        case Finalized(_) =>
      }
      k := QueueStaysConsistent(q, baseline, prepare, before);
      match e
      case Merged(m) => MergeKeepsReserved(mid, baseline, prepare, k, m);
      case Attempted(_, _, _, _) => k := AttemptKeepsReserved(mid, baseline, prepare, k, e);
      case Finalized(version) => FinalizingKeepsReserved(mid, baseline, prepare, k, version);
    }
    var t := After(q, baseline, prepare, es);
    ReservedTags(t, baseline, prepare, k);
    forall sorted | SortedTags(sorted, t, baseline)
      ensures sorted == VersionsOf(Sequence(t.main, baseline).releases[..k]) && Select(t, baseline, sorted) != Refuse
    {
      TagsAreAPrefix(t, baseline, prepare, k, sorted);
      ReservedIsAccepted(t, baseline, prepare, k, sorted);
    }
    forall e | Enabled(t, baseline, e) && e.Attempted? && Passes(e)
      ensures Attempt(t, baseline, e.sorted, prepare, e.validated, e.tooling, e.fate).0 != Rejected
    {
      ReservedIsNotRejected(t, baseline, prepare, k, e);
    }
  }
}
