/**
 The latest scan of an installation, and when the catalog answers from it. A profile that
 is used while it points elsewhere loses its cache entry; scans in flight for the old entry
 still end, but nobody sees their result.
 */
module CatalogOrigins {
  import opened Git
  import opened Catalog

  /** The event is the success of a scan made for `p` at `origin`. */
  predicate Scans(e: Event, jobs: seq<Job>, p: string, origin: string) {
    e.EndScan? && e.result.Some? && e.job < |jobs| && jobs[e.job].profile == p && jobs[e.job].origin == origin
  }

  /** Where the latest successful scan of the installation ended. */
  function LatestOf(es: seq<Event>, jobs: seq<Job>, p: string, origin: string): (k: Option<nat>)
    ensures k.Some? ==> k.value < |es| && Scans(es[k.value], jobs, p, origin)
    ensures k.Some? ==> forall i :: k.value < i < |es| ==> !Scans(es[i], jobs, p, origin)
    ensures k.None? ==> forall i :: 0 <= i < |es| ==> !Scans(es[i], jobs, p, origin)
  {
    if es == [] then None
    else if Scans(es[|es| - 1], jobs, p, origin) then Some(|es| - 1)
    else LatestOf(es[..|es| - 1], jobs, p, origin)
  }

  predicate ScansEntry(e: Event, n: nat) {
    e.EndScan? && e.result.Some? && e.entry == n
  }

  /** Where the latest successful scan of the entry ended. */
  function LatestAt(es: seq<Event>, n: nat): (k: Option<nat>)
    ensures k.Some? ==> k.value < |es| && ScansEntry(es[k.value], n)
    ensures k.Some? ==> forall i :: k.value < i < |es| ==> !ScansEntry(es[i], n)
    ensures k.None? ==> forall i :: 0 <= i < |es| ==> !ScansEntry(es[i], n)
    ensures Latest(es, n) == if k.Some? then es[k.value].result else None
  {
    if es == [] then None
    else if ScansEntry(es[|es| - 1], n) then Some(|es| - 1)
    else LatestAt(es[..|es| - 1], n)
  }

  /** A call that looks up the entry of `p`. */
  predicate Uses(e: Event, p: string) {
    match e
    case Touch(q) => p == q
    case StartSearch(q, query) => p == q && |query| >= 2
    case StartScan(q) => p == q
    case _ => false
  }

  /** Since job `j` was started, `p` was used while it pointed to another installation. */
  predicate UsedElsewhere(es: seq<Event>, p: string, j: nat)
    requires Legal(es)
  {
    && es != []
    && var before := es[..|es| - 1];
    && j < |After(before).jobs|
    && (|| UsedElsewhere(before, p, j)
        || (Uses(es[|es| - 1], p) && After(before).jobs[j].origin != After(before).origins[p]))
  }

  // ---------------------------------------------------------------- entries belong to profiles

  /** Entries are not shared, and a job works for the profile of its entry. */
  predicate Owned(c: Cache) {
    && WellFormed(c)
    && (forall p, q :: p in c.current && q in c.current && c.current[p] == c.current[q] ==> p == q)
    && (forall j :: 0 <= j < |c.jobs| ==>
          var p := c.jobs[j].profile; p in c.current && c.jobs[j].entry <= c.current[p])
    && (forall j, p :: 0 <= j < |c.jobs| && p in c.current && c.jobs[j].entry == c.current[p] ==> c.jobs[j].profile == p)
  }

  lemma EnteringKeepsOwned(c: Cache, p: string)
    requires Owned(c) && p in c.origins
    ensures Owned(Entered(c, p)) && Serves(Entered(c, p), p)
    ensures Entered(c, p).jobs == c.jobs && c.entries <= Entered(c, p).entries
    ensures forall q :: q != p && q in c.current ==> q in Entered(c, p).current && Entered(c, p).current[q] == c.current[q]
    ensures Entered(c, p).current[p] == (if Serves(c, p) then c.current[p] else |c.entries|)
  {
  }

  lemma StartingKeepsOwned(c: Cache, d: Cache, p: string, job: Job)
    requires Owned(c) && p in c.current && job.entry == c.current[p] && job.profile == p
    requires d.current == c.current && d.jobs == c.jobs + [job] && |d.entries| == |c.entries|
    ensures Owned(d)
  {
  }

  lemma StepKeepsOwned(c: Cache, e: Event)
    requires Owned(c) && Enabled(c, e)
    ensures Owned(Do(c, e))
  {
    hide Learn, Owned;
    match e
    case Touch(p) => EnteringKeepsOwned(c, p);
    case StartSearch(p, query) =>
      EnteringKeepsOwned(c, p);
      if Searching(c, p, query).jobs != c.jobs {
        var n := Entered(c, p).current[p];
        StartingKeepsOwned(Entered(c, p), Searching(c, p, query), p, Search(n, p, Entered(c, p).entries[n].origin, query));
      }
    case StartScan(p) =>
      EnteringKeepsOwned(c, p);
      if Scanning(c, p).jobs != c.jobs {
        var n := Entered(c, p).current[p];
        StartingKeepsOwned(Entered(c, p), Scanning(c, p), p, Scan(n, p, Entered(c, p).entries[n].origin));
      }
    case _ => OwnedIgnoresContents(c, Do(c, e));
  }

  lemma OwnedIgnoresContents(c: Cache, d: Cache)
    requires Owned(c) && d.current == c.current && d.jobs == c.jobs && |d.entries| == |c.entries|
    ensures Owned(d)
  {
  }

  lemma {:induction false} OwnedHolds(es: seq<Event>)
    requires Legal(es)
    ensures Owned(After(es))
  {
    if es != [] {
      hide Enabled, Do, Owned;
      OwnedHolds(es[..|es| - 1]);
      StepKeepsOwned(After(es[..|es| - 1]), es[|es| - 1]);
    }
  }

  // ---------------------------------------------------------------- given up entries

  /** Calls that look up an entry are the only ones that replace it. */
  lemma UseEnters(c: Cache, e: Event, p: string)
    requires Enabled(c, e)
    ensures Uses(e, p) ==> p in c.origins && Do(c, e).current == Entered(c, p).current
    ensures (forall q :: !Uses(e, q)) ==> Do(c, e).current == c.current
  {
    hide Learn;
    assert match e
      case Touch(q) => Uses(e, q)
      case StartSearch(q, query) => |query| >= 2 ==> Uses(e, q)
      case StartScan(q) => Uses(e, q)
      case _ => true;
  }

  /** The entry of `p` changes exactly when `p` is used at another origin, and never back. */
  lemma StepMovesIff(c: Cache, e: Event, j: nat)
    requires Owned(c) && Enabled(c, e) && j < |c.jobs|
    requires c.jobs[j].origin == c.entries[c.jobs[j].entry].origin
    ensures var p, d := c.jobs[j].profile, Do(c, e);
            && j < |d.jobs| && d.jobs[j] == c.jobs[j] && p in d.current
            && (d.current[p] == c.jobs[j].entry <==>
                  c.current[p] == c.jobs[j].entry && !(Uses(e, p) && c.jobs[j].origin != c.origins[p]))
  {
    var p := c.jobs[j].profile;
    StepIsTame(c, e);
    UseEnters(c, e, p);
    hide Do;
    if q :| Uses(e, q) {
      UseEnters(c, e, q);
      EnteringKeepsOwned(c, q);
    }
  }

  lemma NewJobIsCurrent(c: Cache, e: Event, j: nat)
    requires Owned(c) && Enabled(c, e) && |c.jobs| <= j < |Do(c, e).jobs|
    ensures var d := Do(c, e); d.jobs[j].profile in d.current && d.current[d.jobs[j].profile] == d.jobs[j].entry
  {
    hide Learn;
  }

  lemma {:induction false} GivenUpIff(es: seq<Event>, j: nat)
    requires Legal(es) && j < |After(es).jobs|
    ensures var c := After(es);
            && c.jobs[j].profile in c.current
            && (c.current[c.jobs[j].profile] == c.jobs[j].entry <==> !UsedElsewhere(es, c.jobs[j].profile, j))
  {
    var before, e := es[..|es| - 1], es[|es| - 1];
    var c := After(before);
    InvHolds(before);
    OwnedHolds(before);
    hide Enabled, Do, Owned;
    if j < |c.jobs| {
      GivenUpIff(before, j);
      StepMovesIff(c, e, j);
    } else {
      NewJobIsCurrent(c, e, j);
    }
  }

  // ---------------------------------------------------------------- what the events name

  lemma {:induction false} EndedJobs(es: seq<Event>, k: nat)
    requires Legal(es) && k < |es| && es[k].EndScan?
    ensures es[k].job < |After(es).jobs| && After(es).jobs[es[k].job].entry == es[k].entry
  {
    var before := es[..|es| - 1];
    StepIsTame(After(before), es[|es| - 1]);
    if k < |before| {
      EndedJobs(before, k);
    }
    hide Do;
  }

  /** Where the latest successful scan of the installation that `p` points to ended. */
  function LatestScan(es: seq<Event>, p: string): Option<nat>
    requires Legal(es) && p in After(es).origins
  {
    LatestOf(es, After(es).jobs, p, After(es).origins[p])
  }

  /** Where the scan ended that `p` is answered from; None before there is one, or while no entry serves `p`. */
  function AnsweringScan(es: seq<Event>, p: string): Option<nat>
    requires Legal(es)
  {
    if Serves(After(es), p) then LatestAt(es, After(es).current[p]) else None
  }

  lemma ServingScansAreOfTheOrigin(es: seq<Event>, p: string, k: nat)
    requires Legal(es) && Serves(After(es), p) && k < |es| && es[k].EndScan? && es[k].result.Some?
    ensures ScansEntry(es[k], After(es).current[p]) ==> Scans(es[k], After(es).jobs, p, After(es).origins[p])
  {
    EndedJobs(es, k);
    InvHolds(es);
    OwnedHolds(es);
    hide After, Legal;
  }

  /** A profile that was not used elsewhere is still served by the entry of the job. */
  lemma UnusedElsewhereIsServed(es: seq<Event>, p: string, k: nat)
    requires Legal(es) && p in After(es).origins && k < |es| && Scans(es[k], After(es).jobs, p, After(es).origins[p])
    ensures var c, n := After(es), es[k].entry;
            !UsedElsewhere(es, p, es[k].job) <==> Serves(c, p) && c.current[p] == n
  {
    EndedJobs(es, k);
    InvHolds(es);
    OwnedHolds(es);
    GivenUpIff(es, es[k].job);
    hide After, Legal, UsedElsewhere;
  }

  /**
   The catalog answers from the latest successful scan of the installation a profile
   points to exactly when the profile was not used elsewhere since that scan was started.
   Otherwise it answers from an older scan of the new entry, or, before there is one, from
   no scan at all.
   */
  lemma LatestScanAnswersIff(es: seq<Event>, p: string)
    requires Legal(es) && p in After(es).origins && LatestScan(es, p).Some?
    ensures var k, own := LatestScan(es, p).value, AnsweringScan(es, p);
            && (own == Some(k) <==> !UsedElsewhere(es, p, es[k].job))
            && (own.None? || own.value <= k)
  {
    var k, c := LatestScan(es, p).value, After(es);
    UnusedElsewhereIsServed(es, p, k);
    if Serves(c, p) {
      forall i | 0 <= i < |es| && ScansEntry(es[i], c.current[p])
        ensures Scans(es[i], c.jobs, p, c.origins[p])
      {
        ServingScansAreOfTheOrigin(es, p, i);
      }
      hide After, Legal, UsedElsewhere, Scans;
      EntryScansAreScans(es, c.jobs, p, c.origins[p], c.current[p]);
    }
  }

  /** Where all scans of an entry are scans of the installation, its latest one is the latest or an older one. */
  lemma EntryScansAreScans(es: seq<Event>, jobs: seq<Job>, p: string, origin: string, n: nat)
    requires LatestOf(es, jobs, p, origin).Some?
    requires forall i :: 0 <= i < |es| && ScansEntry(es[i], n) ==> Scans(es[i], jobs, p, origin)
    ensures var k, own := LatestOf(es, jobs, p, origin).value, LatestAt(es, n);
            (own == Some(k) <==> es[k].entry == n) && (own.None? || own.value <= k)
  {
    var k := LatestOf(es, jobs, p, origin).value;
    assert es[k].entry == n ==> ScansEntry(es[k], n);
  }

  /** What answering from a scan means for `peek` and `search`. */
  predicate AnswersFrom(c: Cache, p: string, scan: seq<Project>, id: nat, query: string) {
    && Peek(c, p, id) == Find(scan, id)
    && (|query| >= 2 && WellFormed(c) && p in c.origins ==> SearchAnswer(c, p, query) == Now(Page(Matching(scan, query))))
  }

  /** Without a scan, `peek` knows at most what searches taught the serving entry, and nothing without one. */
  predicate AnswersWithoutScan(c: Cache, p: string, id: nat) {
    if Serves(c, p) then
      c.entries[c.current[p]].projects.None? && (id !in c.entries[c.current[p]].known ==> Peek(c, p, id) == None)
    else Peek(c, p, id) == None
  }

  /**
   Every answer is that of the latest scan of the installation while the profile was not
   used elsewhere, and of the serving entry's own latest scan in any case. The snapshots
   agree otherwise only when an older scan returned the same list.
   */
  lemma AnswersAreTheLatestScanOfTheOrigin(es: seq<Event>, p: string, id: nat, query: string)
    requires Legal(es) && p in After(es).origins && LatestScan(es, p).Some?
    ensures var k := LatestScan(es, p).value;
            !UsedElsewhere(es, p, es[k].job) ==> AnswersFrom(After(es), p, es[k].result.value, id, query)
    ensures var own := AnsweringScan(es, p);
            if own.Some? then AnswersFrom(After(es), p, es[own.value].result.value, id, query)
            else AnswersWithoutScan(After(es), p, id)
    ensures var k, own := LatestScan(es, p).value, AnsweringScan(es, p);
            Serves(After(es), p) ==>
              (After(es).entries[After(es).current[p]].projects == es[k].result <==>
                 !UsedElsewhere(es, p, es[k].job) || (own.Some? && es[own.value].result == es[k].result))
  {
    LatestScanAnswersIff(es, p);
    InvHolds(es);
    if AnsweringScan(es, p).Some? {
      AnswersAreTheLatestScan(es, p, id, query);
    }
    hide After, Legal, UsedElsewhere;
  }

  // ---------------------------------------------------------------- the failing family is not empty

  lemma Extend(es: seq<Event>, e: Event)
    requires Legal(es) && Enabled(After(es), e)
    ensures Legal(es + [e]) && After(es + [e]) == Do(After(es), e)
  {
    hide Enabled, Do;
    assert (es + [e])[..|es|] == es;
  }

  /**
   A switch away and back while a scan is in flight: the scan of the first entry ends last
   and finds a project, yet `peek` does not know it.
   */
  lemma SwitchingBackHidesTheLatestScan(p: string, a: string, b: string, found: Project) returns (es: seq<Event>)
    requires a != b
    ensures Legal(es) && Serves(After(es), p) && After(es).origins[p] == a
    ensures LatestScan(es, p).Some? && es[LatestScan(es, p).value].result == Some([found])
    ensures Peek(After(es), p, found.id) == None
  {
    es := Switched(p, a, b);
    var e := EndScan(0, 0, Some([found]));
    Extend(es, e);
    hide Legal, After;
    es := es + [e];
    assert es[|es| - 1] == e;
  }

  lemma SwitchedAway(p: string, a: string, b: string) returns (es: seq<Event>)
    requires a != b
    ensures Legal(es)
    ensures var c := After(es);
            && WellFormed(c) && c.jobs == [Scan(0, p, a)] && |c.entries| == 2
            && p in c.origins && p in c.current && c.current[p] == 1 && c.entries[1].origin == b
  {
    es := [];
    assert Legal(es) && After(es) == Empty;
    hide Legal, After;
    Extend(es, Configure(p, a));
    es := es + [Configure(p, a)];
    Extend(es, StartScan(p));
    es := es + [StartScan(p)];
    Extend(es, Configure(p, b));
    es := es + [Configure(p, b)];
    Extend(es, Touch(p));
    es := es + [Touch(p)];
  }

  lemma Switched(p: string, a: string, b: string) returns (es: seq<Event>)
    requires a != b
    ensures Legal(es)
    ensures var c := After(es);
            && WellFormed(c) && |c.jobs| == 2 && c.jobs[0] == Scan(0, p, a) && |c.entries| == 3
            && p in c.origins && c.origins[p] == a && p in c.current && c.current[p] == 2
            && c.entries[2].origin == a && c.entries[2].projects == Some([])
  {
    es := SwitchedAway(p, a, b);
    hide Legal, After;
    Extend(es, Configure(p, a));
    es := es + [Configure(p, a)];
    Extend(es, StartScan(p));
    es := es + [StartScan(p)];
    Extend(es, EndScan(2, 1, Some([])));
    es := es + [EndScan(2, 1, Some([]))];
  }
}
