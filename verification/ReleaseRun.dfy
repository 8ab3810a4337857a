/**
 `releaseSequence` and `resolveMainRelease` as they run: a lazy generator over main, a loop
 over the sorted tags, and at most one reservation and one draft.
 */
module ReleaseRuns {
  import opened Git
  import opened Versions
  import opened ReleaseQueues

  datatype Yield = Yielded(release: Release) | Done | Threw

  /** The generator: `previous` is the tag it assigned last. */
  class Releases {
    const main: seq<MainCommit>
    var position: nat
    var previous: string

    ghost predicate Valid()
      reads this
    {
      position <= |main|
    }

    /** What is still to come. */
    ghost function Remaining(): Derived
      requires Valid()
      reads this
    {
      Sequence(main[position..], previous)
    }

    constructor (main: seq<MainCommit>, baseline: string)
      ensures Valid() && Remaining() == Sequence(main, baseline)
    {
      this.main, position, previous := main, 0, baseline;
      new;
      assert main[0..] == main;
    }

    method Next() returns (y: Yield)
      requires Valid()
      modifies this
      ensures Valid()
      ensures match y
              case Yielded(r) => old(Remaining()) == Derived([r] + Remaining().releases, Remaining().failed)
              case Done => old(Remaining()) == Derived([], false) && Remaining() == old(Remaining())
              case Threw => old(Remaining()) == Derived([], true)
    {
      hide Calculate;
      while position < |main|
        invariant Valid() && Remaining() == old(Remaining())
        decreases |main| - position
      {
        var merge := main[position];
        assert main[position..][1..] == main[position + 1..];
        position := position + 1;
        match Calculate(previous, merge.intent) {
          case Throws =>
            return Threw;
          case NoRelease =>
          case Next(version) =>
            y := Yielded(Release(merge.source, version, previous));
            previous := version;
            return;
        }
      }
      y := Done;
    }
  }

  /** Insert a version into a sorted list that does not hold it. */
  function Insert(v: string, s: seq<string>): (r: seq<string>)
    requires Parse(v).Some? && Ascending(s) && v !in s
    ensures Ascending(r)
    ensures forall x :: x in r <==> x == v || x in s
  {
    if s == [] then [v]
    else if Less(Key(v), Key(s[0])) then [v] + s
    else
      var rest := Insert(v, s[1..]);
      TextOrderIsTotal(v, s[0], s[0]);
      LeastGoesFirst(s[0], rest);
      [s[0]] + rest
  }

  lemma LeastGoesFirst(v: string, s: seq<string>)
    requires Parse(v).Some? && Ascending(s) && forall x :: x in s ==> Less(Key(v), Key(x))
    ensures Ascending([v] + s)
  {
    hide Parse, Less;
    forall i, j | 0 <= i < j < |[v] + s|
      ensures Less(Key(([v] + s)[i]), Key(([v] + s)[j]))
    {
      assert s[j - 1] in s;
    }
  }

  /** `listing` names every tag once. */
  ghost predicate Lists(listing: seq<string>, q: Queue) {
    && (forall v :: v in listing <==> v in q.tags)
    && forall i, j :: 0 <= i < j < |listing| ==> listing[i] != listing[j]
  }

  class Repository {
    var main: seq<MainCommit>
    var tags: map<string, Tag>
    var releases: map<string, GitHubRelease>

    ghost function State(): Queue
      reads this
    {
      Queue(main, tags, releases)
    }

    /** The tags above the baseline, in order of precedence; throws on a tag it cannot compare. */
    method SortTags(baseline: string, listing: seq<string>) returns (ok: bool, sorted: seq<string>)
      requires Lists(listing, State()) && Parse(baseline).Some?
      ensures ok <==> forall v :: v in tags ==> Comparable(v)
      ensures ok ==> SortedTags(sorted, State(), baseline)
    {
      hide Parse;
      sorted := [];
      for i := 0 to |listing|
        invariant forall j :: 0 <= j < i ==> Comparable(listing[j])
        invariant Ascending(sorted)
        invariant forall v :: v in sorted <==> v in listing[..i] && Above(v, baseline)
      {
        var v := listing[i];
        assert listing[..i + 1] == listing[..i] + [v];
        if Stable(v) && Parse(v).None? {
          assert v in tags;
          return false, [];
        }
        if Parse(v).Some? && Less(Parse(baseline).value, Parse(v).value) {
          sorted := Insert(v, sorted);
        }
      }
      ok := true;
      assert listing[..|listing|] == listing;
    }

    /** The registry holds the published baseline and no release without a reservation. */
    method CheckRegistry(baseline: string) returns (ok: bool)
      requires Parse(baseline).Some?
      ensures ok <==> Usable(releases, baseline) && forall v :: v in releases && Above(v, baseline) ==> v in tags
    {
      hide Parse;
      if baseline !in releases || releases[baseline].draft || !releases[baseline].owned {
        return false;
      }
      var left := releases.Keys;
      while left != {}
        invariant left <= releases.Keys
        invariant forall v :: v in releases && v !in left ==> Comparable(v) && (Above(v, baseline) ==> v in tags)
        decreases |left|
      {
        var v :| v in left;
        if (Stable(v) && Parse(v).None?) || (Above(v, baseline) && v !in tags) {
          assert v in releases;
          return false;
        }
        left := left - {v};
      }
      ok := true;
    }

    /** Walk the sorted tags against the derived sequence and choose the oldest unfinished release. */
    method Choose(baseline: string, sorted: seq<string>) returns (s: Selection)
      requires Parse(baseline).Some? && SortedTags(sorted, State(), baseline)
      requires Usable(releases, baseline) && forall v :: v in releases && Above(v, baseline) ==> v in tags
      requires forall v :: v in tags ==> Comparable(v)
      ensures s == Select(State(), baseline, sorted)
    {
      hide Parse, Sequence, Ascending;
      var sequence := new Releases(main, baseline);
      ghost var d := Sequence(main, baseline);
      var pending: Option<Release> := None;
      for i := 0 to |sorted|
        invariant sequence.Valid() && i <= |d.releases|
        invariant sequence.Remaining() == Derived(d.releases[i..], d.failed)
        invariant forall j: nat :: j < i ==> Reserves(State(), sorted, d.releases, j)
        invariant pending == if i == |sorted| && i > 0 && Unfinished(State(), sorted[i - 1]) then Some(d.releases[i - 1]) else None
      {
        var tag := sorted[i];
        var y := sequence.Next();
        if !y.Yielded? {
          assert |d.releases[i..]| == 0;
          assert !Reserves(State(), sorted, d.releases, i);
          return Refuse;
        }
        Shift(d.releases, i, y.release, sequence.Remaining().releases);
        if y.release.version != tag {
          assert !Reserves(State(), sorted, d.releases, i);
          return Refuse;
        }
        assert tag in sorted;
        if tags[tag].release != y.release || tags[tag].parent != y.release.source {
          assert !Reserves(State(), sorted, d.releases, i);
          return Refuse;
        }
        if tag in releases && !releases[tag].owned {
          assert !Reserves(State(), sorted, d.releases, i);
          return Refuse;
        }
        if tag !in releases || releases[tag].draft {
          if i != |sorted| - 1 {
            assert !Reserves(State(), sorted, d.releases, i);
            return Refuse;
          }
          pending := Some(y.release);
        }
      }
      if pending.Some? {
        return Pick(pending.value);
      }
      var y := sequence.Next();
      match y
      case Yielded(r) =>
        Shift(d.releases, |sorted|, r, sequence.Remaining().releases);
        s := Pick(r);
      case Done => s := Nothing;
      case Threw => s := Refuse;
    }

    /** One run. `fate` says whether the worker dies between two of its writes. */
    method Resolve(baseline: string, listing: seq<string>, prepare: Prepare, validated: Validated, tooling: string, fate: Fate)
      returns (r: Outcome, ghost sorted: seq<string>)
      requires Lists(listing, State())
      modifies `tags, `releases
      ensures SortedTags(sorted, old(State()), baseline) ==>
                (r, State()) == Attempt(old(State()), baseline, sorted, prepare, validated, tooling, fate)
      ensures Parse(baseline).Some? && (forall v :: v in old(tags) ==> Comparable(v)) ==>
                SortedTags(sorted, old(State()), baseline)
      ensures !SortedTags(sorted, old(State()), baseline) ==> r == Rejected && State() == old(State())
      ensures r.Chosen? ==> validated(r.release.source) && validated(tooling) && prepare(r.release) == Some(r.commit)
                            && r.release.version in tags && tags[r.release.version].commit == r.commit && r.release.version in releases
      ensures Grows(old(State()), State()) && (!validated(tooling) ==> State() == old(State()))
      ensures forall v :: v in tags && v !in old(tags) ==> validated(tags[v].release.source) && tags[v].parent == tags[v].release.source
    {
      hide Parse, Sequence, Ascending, Select;
      sorted := [""];
      if Parse(baseline).None? {
        UnsortedMarker(State(), baseline);
        return Rejected, sorted;
      }
      var ok, order := SortTags(baseline, listing);
      if !ok {
        UnsortedMarker(State(), baseline);
        return Rejected, sorted;
      }
      sorted := order;
      ok := CheckRegistry(baseline);
      if !ok {
        BadRegistryIsRefused(State(), baseline, order);
        return Rejected, sorted;
      }
      var s := Choose(baseline, order);
      if s.Refuse? {
        return Rejected, sorted;
      }
      if s.Nothing? {
        return NothingPending, sorted;
      }
      var release := s.release;
      if !validated(release.source) || !validated(tooling) {
        return Rejected, sorted;
      }
      var prepared := prepare(release);
      if prepared.None? {
        return Rejected, sorted;
      }
      var commit := prepared.value;
      if release.version in tags {
        if tags[release.version].commit != commit {
          return Rejected, sorted;
        }
        if fate != Survives {
          return Died, sorted;
        }
      } else {
        if fate == DiesBeforeTag {
          return Died, sorted;
        }
        tags := tags[release.version := Tag(release, release.source, commit)];
        if fate == DiesBeforeDraft {
          return Died, sorted;
        }
      }
      if release.version !in releases {
        releases := releases[release.version := GitHubRelease(true, true)];
      }
      r := Chosen(release, commit);
    }
  }

  lemma Shift(rs: seq<Release>, i: nat, r: Release, rest: seq<Release>)
    requires i <= |rs| && rs[i..] == [r] + rest
    ensures i < |rs| && rs[i] == r && rs[i + 1..] == rest
  {
    assert |rs[i..]| == |rest| + 1;
    assert rs[i..][0] == r;
    assert rs[i + 1..] == rs[i..][1..];
  }

  lemma EmptyTextIsNoVersion()
    ensures Parse("").None?
  {
    assert Split("") == [[]];
  }

  lemma UnsortedMarker(q: Queue, baseline: string)
    ensures !SortedTags([""], q, baseline)
  {
    EmptyTextIsNoVersion();
    assert [""][0] == "";
  }

  lemma BadRegistryIsRefused(q: Queue, baseline: string, sorted: seq<string>)
    requires !(Usable(q.releases, baseline) && forall v :: v in q.releases && Above(v, baseline) ==> v in q.tags)
    ensures Select(q, baseline, sorted) == Refuse
  {
    hide Parse, Sequence;
  }
}
