/**
 The repository catalog as an event-driven cache. Searches and scans end at any later time,
 in any order, and write into the cache entry they were started for; an entry is replaced
 when its profile points to another installation.
 */
module Catalog {
  import opened Git

  datatype Project = Project(id: nat, path: string)

  /** `searches` holds the search job that owns each query. */
  datatype Entry = Entry(
    origin: string, projects: Option<seq<Project>>, pending: Option<nat>, known: map<nat, Project>,
    searches: map<string, nat>)

  /** A remote call in flight, made for `profile` by a client of `origin`. */
  datatype Job =
    | Scan(entry: nat, profile: string, origin: string)
    | Search(entry: nat, profile: string, origin: string, query: string)

  datatype Cache = Cache(origins: map<string, string>, current: map<string, nat>, entries: seq<Entry>, jobs: seq<Job>)

  // ---------------------------------------------------------------- queries

  function LowerChar(c: char): char {
    if 'A' <= c <= 'Z' then (c as int + 32) as char else c
  }

  function Lower(s: string): string {
    seq(|s|, i requires 0 <= i < |s| => LowerChar(s[i]))
  }

  function TrimLeft(s: string): string {
    if s != [] && s[0] in " \t\r\n" then TrimLeft(s[1..]) else s
  }

  function TrimRight(s: string): string {
    if s != [] && s[|s| - 1] in " \t\r\n" then TrimRight(s[..|s| - 1]) else s
  }

  function Query(text: string): string {
    Lower(TrimRight(TrimLeft(text)))
  }

  predicate Includes(s: string, q: string) {
    q <= s || (s != [] && Includes(s[1..], q))
  }

  function Matching(ps: seq<Project>, q: string): seq<Project> {
    if ps == [] then []
    else if Includes(Lower(ps[0].path), q) then [ps[0]] + Matching(ps[1..], q)
    else Matching(ps[1..], q)
  }

  function Page(ps: seq<Project>): seq<Project> {
    if |ps| > 100 then ps[..100] else ps
  }

  function Find(ps: seq<Project>, id: nat): Option<Project> {
    if ps == [] then None else if ps[0].id == id then Some(ps[0]) else Find(ps[1..], id)
  }

  // ---------------------------------------------------------------- what an answer holds

  /** `q` stands somewhere in `s`. */
  predicate Occurs(s: string, q: string) {
    exists i {:trigger s[i..]} :: 0 <= i <= |s| && q <= s[i..]
  }

  predicate SameLetter(a: char, b: char) {
    if 'A' <= b <= 'Z' then a as int - 'a' as int == b as int - 'A' as int else a == b
  }

  /** `a` is `b` in lower case. */
  predicate Lowered(a: string, b: string) {
    |a| == |b| && forall i :: 0 <= i < |b| ==> SameLetter(a[i], b[i])
  }

  predicate Blank(s: string) {
    forall i :: 0 <= i < |s| ==> s[i] in " \t\r\n"
  }

  /** `q` is the text in lower case, without the blanks around it. */
  ghost predicate Queries(q: string, text: string) {
    exists left, core, right ::
      && text == left + core + right && Blank(left) && Blank(right) && Lowered(q, core)
      && (core != [] ==> core[0] !in " \t\r\n" && core[|core| - 1] !in " \t\r\n")
  }

  /** The path of the project, in lower case, holds the query. */
  ghost predicate Hits(project: Project, q: string) {
    exists path :: Lowered(path, project.path) && Occurs(path, q)
  }

  /** `at` are the places of the hits, in order. */
  ghost predicate Places(at: seq<nat>, ps: seq<Project>, q: string) {
    && (forall i :: 0 <= i < |at| ==> at[i] < |ps|)
    && (forall i, j :: 0 <= i < j < |at| ==> at[i] < at[j])
    && forall n: nat :: n < |ps| ==> (n in at <==> Hits(ps[n], q))
  }

  /** The answer is, in order, the first hundred hits. */
  ghost predicate FirstHits(answer: seq<Project>, ps: seq<Project>, q: string) {
    exists at: seq<nat> ::
      && Places(at, ps, q)
      && |answer| == (if |at| > 100 then 100 else |at|)
      && forall i :: 0 <= i < |answer| ==> answer[i] == ps[at[i]]
  }

  /** The first project with the id, when there is one. */
  predicate FirstWithId(answer: Option<Project>, ps: seq<Project>, id: nat) {
    match answer
    case None => forall i :: 0 <= i < |ps| ==> ps[i].id != id
    case Some(project) =>
      exists i :: 0 <= i < |ps| && ps[i] == project && project.id == id && forall j :: 0 <= j < i ==> ps[j].id != id
  }

  lemma {:induction false} IncludesIsOccurs(s: string, q: string)
    ensures Includes(s, q) <==> Occurs(s, q)
  {
    if Includes(s, q) {
      if q <= s {
        assert q <= s[0..];
      } else {
        IncludesIsOccurs(s[1..], q);
        var i :| 0 <= i <= |s[1..]| && q <= s[1..][i..];
        assert s[1..][i..] == s[i + 1..];
      }
    }
    if i :| 0 <= i <= |s| && q <= s[i..] {
      if i > 0 {
        assert s[1..][i - 1..] == s[i..];
        IncludesIsOccurs(s[1..], q);
      } else {
        assert s[0..] == s;
      }
    }
  }

  lemma LoweredIsUnique(a: string, b: string, s: string)
    requires Lowered(a, s) && Lowered(b, s)
    ensures a == b
  {
    forall i | 0 <= i < |s|
      ensures a[i] == b[i]
    {
      assert SameLetter(a[i], s[i]) && SameLetter(b[i], s[i]);
    }
  }

  lemma HitsIff(project: Project, q: string)
    ensures Includes(Lower(project.path), q) <==> Hits(project, q)
  {
    IncludesIsOccurs(Lower(project.path), q);
    assert Lowered(Lower(project.path), project.path);
    if Hits(project, q) {
      var path :| Lowered(path, project.path) && Occurs(path, q);
      LoweredIsUnique(path, Lower(project.path), project.path);
    }
  }

  /** One project in front moves every place by one. */
  lemma PlacesShift(later: seq<nat>, ps: seq<Project>, q: string) returns (at: seq<nat>)
    requires ps != [] && Places(later, ps[1..], q)
    ensures Places(at, ps, q)
    ensures var k := if Hits(ps[0], q) then 1 else 0;
            |at| == |later| + k && (forall i :: 0 <= i < |at| ==> at[i] < |ps|) && (k == 1 ==> at[0] == 0) && forall i :: k <= i < |at| ==> at[i] == later[i - k] + 1
  {
    hide Hits;
    var k := if Hits(ps[0], q) then 1 else 0;
    at := seq(|later| + k, i requires 0 <= i < |later| + k => if i < k then 0 else later[i - k] + 1);
    forall n: nat | n < |ps|
      ensures n in at <==> Hits(ps[n], q)
    {
      if n > 0 {
        assert n - 1 in later <==> Hits(ps[1..][n - 1], q);
        if n in at {
          var i :| 0 <= i < |at| && at[i] == n;
          assert later[i - k] == n - 1;
        }
        if n - 1 in later {
          var i :| 0 <= i < |later| && later[i] == n - 1;
          assert at[k + i] == n;
        }
      } else if k == 1 {
        assert at[0] == 0;
      }
    }
  }

  lemma {:induction false} MatchingPlaces(ps: seq<Project>, q: string) returns (at: seq<nat>)
    ensures Places(at, ps, q) && |at| == |Matching(ps, q)|
    ensures forall i :: 0 <= i < |at| ==> at[i] < |ps| && Matching(ps, q)[i] == ps[at[i]]
  {
    hide Matching, Places, Hits, Includes;
    at := [];
    if ps != [] {
      MatchingUnfolds(ps, q);
      var later := MatchingPlaces(ps[1..], q);
      at := PlacesShift(later, ps, q);
      var k := if Hits(ps[0], q) then 1 else 0;
      forall i | 0 <= i < |at|
        ensures Matching(ps, q)[i] == ps[at[i]]
      {
        if k <= i {
          assert at[i] == later[i - k] + 1;
          assert Matching(ps, q)[i] == Matching(ps[1..], q)[i - k];
        }
      }
    } else {
      NoPlaces(q);
    }
  }

  lemma NoPlaces(q: string)
    ensures Places([], [], q) && Matching([], q) == []
  {
  }

  lemma MatchingUnfolds(ps: seq<Project>, q: string)
    requires ps != []
    ensures Matching(ps, q) == (if Hits(ps[0], q) then [ps[0]] else []) + Matching(ps[1..], q)
  {
    HitsIff(ps[0], q);
  }

  /** A search in a scan answers with the first hundred hits in the order of the scan. */
  lemma PageIsFirstHits(ps: seq<Project>, q: string)
    ensures FirstHits(Page(Matching(ps, q)), ps, q)
  {
    var at := MatchingPlaces(ps, q);
    hide Matching, Places;
  }

  lemma {:induction false} FindIsFirst(ps: seq<Project>, id: nat)
    ensures FirstWithId(Find(ps, id), ps, id)
  {
    if ps != [] && ps[0].id != id {
      FindIsFirst(ps[1..], id);
      if Find(ps, id).Some? {
        var i :| 0 <= i < |ps[1..]| && ps[1..][i] == Find(ps, id).value && forall j :: 0 <= j < i ==> ps[1..][j].id != id;
        assert ps[i + 1] == Find(ps, id).value;
      }
    }
  }

  lemma {:induction false} TrimmedLeft(s: string) returns (left: string)
    ensures s == left + TrimLeft(s) && Blank(left)
    ensures TrimLeft(s) != [] ==> TrimLeft(s)[0] !in " \t\r\n"
  {
    left := [];
    if s != [] && s[0] in " \t\r\n" {
      var rest := TrimmedLeft(s[1..]);
      left := [s[0]] + rest;
    }
  }

  lemma {:induction false} TrimmedRight(s: string) returns (right: string)
    ensures s == TrimRight(s) + right && Blank(right)
    ensures TrimRight(s) != [] ==> TrimRight(s)[|TrimRight(s)| - 1] !in " \t\r\n"
  {
    right := [];
    if s != [] && s[|s| - 1] in " \t\r\n" {
      var rest := TrimmedRight(s[..|s| - 1]);
      right := rest + [s[|s| - 1]];
    }
  }

  lemma QueryIsTrimmed(text: string)
    ensures Queries(Query(text), text)
  {
    var left := TrimmedLeft(text);
    var right := TrimmedRight(TrimLeft(text));
    var core := TrimRight(TrimLeft(text));
    assert text == left + core + right;
    assert Lowered(Query(text), core);
    if core != [] {
      assert core[0] == TrimLeft(text)[0];
    }
  }

  // ---------------------------------------------------------------- events

  datatype Event =
    | Configure(profile: string, origin: string)
    | Touch(profile: string)
    | StartSearch(profile: string, query: string)
    | EndSearch(entry: nat, job: nat, result: Option<seq<Project>>)
    | StartScan(profile: string)
    | EndScan(entry: nat, job: nat, result: Option<seq<Project>>)
    | Release(entry: nat, job: nat)

  predicate WellFormed(c: Cache) {
    && (forall p :: p in c.current ==> c.current[p] < |c.entries|)
    && forall j :: 0 <= j < |c.jobs| ==> c.jobs[j].entry < |c.entries|
  }

  predicate Enabled(c: Cache, e: Event) {
    WellFormed(c) &&
    match e
    case Configure(_, _) => true
    case Touch(p) => p in c.origins
    case StartSearch(p, _) => p in c.origins
    case EndSearch(n, j, _) => j < |c.jobs| && c.jobs[j].Search? && c.jobs[j].entry == n
    case StartScan(p) => p in c.origins
    case EndScan(n, j, _) => j < |c.jobs| && c.jobs[j].Scan? && c.jobs[j].entry == n
    case Release(n, j) => j < |c.jobs| && c.jobs[j].Scan? && c.jobs[j].entry == n
  }

  /** The cached entry serves the installation the profile points to now. */
  predicate Serves(c: Cache, p: string) {
    p in c.origins && p in c.current && c.current[p] < |c.entries| && c.entries[c.current[p]].origin == c.origins[p]
  }

  /** `entry`: replace the entry of another installation by an empty one. */
  function Entered(c: Cache, p: string): Cache
    requires p in c.origins
  {
    if Serves(c, p) then c
    else c.(current := c.current[p := |c.entries|], entries := c.entries + [Entry(c.origins[p], None, None, map[], map[])])
  }

  function Searching(c: Cache, p: string, query: string): Cache
    requires p in c.origins && WellFormed(c)
  {
    if |query| < 2 then c
    else
      var c := Entered(c, p);
      var n := c.current[p];
      var x := c.entries[n];
      if x.projects.Some? || query in x.searches then c
      else
        c.(jobs := c.jobs + [Search(n, p, x.origin, query)],
        entries := c.entries[n := x.(searches := x.searches[query := |c.jobs|])])
  }

  function Learn(known: map<nat, Project>, ps: seq<Project>): map<nat, Project>
    decreases |ps|
  {
    if ps == [] then known else Learn(known[ps[0].id := ps[0]], ps[1..])
  }

  /** A search result counts only while its job still owns the query. */
  function Searched(c: Cache, n: nat, j: nat, result: Option<seq<Project>>): Cache
    requires n < |c.entries| && j < |c.jobs| && c.jobs[j].Search?
  {
    var x, q := c.entries[n], c.jobs[j].query;
    if q !in x.searches || x.searches[q] != j then c
    else match result
      case Some(ps) => c.(entries := c.entries[n := x.(known := Learn(x.known, ps))])
      case None => c.(entries := c.entries[n := x.(searches := x.searches - {q})])
  }

  function Scanning(c: Cache, p: string): Cache
    requires p in c.origins && WellFormed(c)
  {
    var c := Entered(c, p);
    var n := c.current[p];
    var x := c.entries[n];
    if x.pending.Some? then c
    else c.(jobs := c.jobs + [Scan(n, p, x.origin)], entries := c.entries[n := x.(pending := Some(|c.jobs|))])
  }

  function Scanned(c: Cache, n: nat, result: Option<seq<Project>>): Cache
    requires n < |c.entries|
  {
    if result.None? then c
    else c.(entries := c.entries[n := c.entries[n].(projects := result, known := map[], searches := map[])])
  }

  function Do(c: Cache, e: Event): Cache
    requires Enabled(c, e)
  {
    match e
    case Configure(p, origin) => c.(origins := c.origins[p := origin])
    case Touch(p) => Entered(c, p)
    case StartSearch(p, query) => Searching(c, p, query)
    case EndSearch(n, j, result) => Searched(c, n, j, result)
    case StartScan(p) => Scanning(c, p)
    case EndScan(n, _, result) => Scanned(c, n, result)
    case Release(n, _) => c.(entries := c.entries[n := c.entries[n].(pending := None)])
  }

  const Empty := Cache(map[], map[], [], [])

  predicate Legal(es: seq<Event>)
    decreases |es|, 0
  {
    es == [] || (Legal(es[..|es| - 1]) && Enabled(After(es[..|es| - 1]), es[|es| - 1]))
  }

  function After(es: seq<Event>): Cache
    requires Legal(es)
    decreases |es|, 1
  {
    if es == [] then Empty else Do(After(es[..|es| - 1]), es[|es| - 1])
  }

  // ---------------------------------------------------------------- answers

  /** `peek`; an entry that would be replaced knows nothing. */
  function Peek(c: Cache, p: string, id: nat): Option<Project> {
    if !Serves(c, p) then None
    else
      var x := c.entries[c.current[p]];
      if x.projects.Some? then Find(x.projects.value, id) else if id in x.known then Some(x.known[id]) else None
  }

  datatype Answer = Now(projects: seq<Project>) | Later(job: nat)

  /** What `search` returns: a list, or the job whose result it will be. */
  function SearchAnswer(c: Cache, p: string, query: string): Answer
    requires p in c.origins && WellFormed(c)
  {
    if |query| < 2 then Now([])
    else if Serves(c, p) && c.entries[c.current[p]].projects.Some?
    then Now(Page(Matching(c.entries[c.current[p]].projects.value, query)))
    else if Serves(c, p) && query in c.entries[c.current[p]].searches then Later(c.entries[c.current[p]].searches[query])
    else Later(|c.jobs|)
  }

  // ---------------------------------------------------------------- main results

  /** The latest successful scan of an entry, read off the events alone. */
  function Latest(es: seq<Event>, n: nat): Option<seq<Project>> {
    if es == [] then None
    else
      var e := es[|es| - 1];
      if e.EndScan? && e.entry == n && e.result.Some? then e.result else Latest(es[..|es| - 1], n)
  }

  /** Every snapshot is the latest scan, every job wrote for the installation of its entry. */
  ghost predicate Inv(c: Cache, es: seq<Event>) {
    && WellFormed(c)
    && (forall n :: 0 <= n < |c.entries| ==> c.entries[n].projects == Latest(es, n))
    && (forall j :: 0 <= j < |c.jobs| ==> c.jobs[j].origin == c.entries[c.jobs[j].entry].origin)
    && (forall n :: n >= |c.entries| ==> Latest(es, n).None?)
  }

  /** Only the end of a scan changes a snapshot; entries and jobs are only added and keep their origin. */
  lemma StepIsTame(c: Cache, e: Event)
    requires Enabled(c, e)
    ensures var d := Do(c, e);
            && |c.entries| <= |d.entries| && |c.jobs| <= |d.jobs|
            && (forall j :: 0 <= j < |c.jobs| ==> d.jobs[j] == c.jobs[j])
            && (forall n :: 0 <= n < |c.entries| ==>
                  && d.entries[n].origin == c.entries[n].origin
                  && d.entries[n].projects ==
                     if e.EndScan? && e.entry == n && e.result.Some? then e.result else c.entries[n].projects)
            && (forall n :: |c.entries| <= n < |d.entries| ==> d.entries[n].projects.None?)
  {
    hide Learn;
  }

  lemma StepIsWellFormed(c: Cache, e: Event)
    requires Enabled(c, e)
    ensures WellFormed(Do(c, e))
    ensures forall j :: |c.jobs| <= j < |Do(c, e).jobs| ==>
              Do(c, e).jobs[j].origin == Do(c, e).entries[Do(c, e).jobs[j].entry].origin
  {
    hide Learn;
  }

  lemma StepKeepsInv(c: Cache, es: seq<Event>, e: Event)
    requires Inv(c, es) && Enabled(c, e)
    ensures Inv(Do(c, e), es + [e])
  {
    StepIsTame(c, e);
    StepIsWellFormed(c, e);
    forall n: nat
      ensures Latest(es + [e], n) == if e.EndScan? && e.entry == n && e.result.Some? then e.result else Latest(es, n)
    {
      LatestStep(es, e, n);
    }
    assert e.EndScan? ==> e.entry < |c.entries|;
    hide Latest, Do, Enabled;
  }

  lemma LatestStep(es: seq<Event>, e: Event, n: nat)
    ensures Latest(es + [e], n) == if e.EndScan? && e.entry == n && e.result.Some? then e.result else Latest(es, n)
  {
    assert (es + [e])[..|es|] == es;
  }

  lemma {:induction false} InvHolds(es: seq<Event>)
    requires Legal(es)
    ensures Inv(After(es), es)
  {
    if es != [] {
      hide Enabled, Do, Inv;
      var before := es[..|es| - 1];
      InvHolds(before);
      StepKeepsInv(After(before), before, es[|es| - 1]);
      assert before + [es[|es| - 1]] == es;
    }
  }

  /**
   For every interleaving: once a scan of the entry that serves a profile has completed,
   `peek` and `search` answer from the latest successful one, whatever searches, failures
   and other installations did before or since.
   */
  lemma AnswersAreTheLatestScan(es: seq<Event>, p: string, id: nat, query: string)
    requires Legal(es) && Serves(After(es), p) && Latest(es, After(es).current[p]).Some?
    ensures var scan := Latest(es, After(es).current[p]).value;
            && Peek(After(es), p, id) == Find(scan, id)
            && (|query| >= 2 ==> WellFormed(After(es)) && SearchAnswer(After(es), p, query) == Now(Page(Matching(scan, query))))
  {
    InvHolds(es);
    hide After, Legal, Latest;
  }

  /** No answer comes from another installation: an entry is only ever written by calls to its own origin. */
  lemma AnswersAreOfTheOrigin(es: seq<Event>, e: Event)
    requires Legal(es) && Enabled(After(es), e) && (e.EndScan? || e.EndSearch?)
    ensures e.entry < |After(es).entries| && After(es).jobs[e.job].origin == After(es).entries[e.entry].origin
    ensures forall p :: Serves(After(es), p) && After(es).jobs[e.job].origin != After(es).origins[p] ==>
              Do(After(es), e).entries[After(es).current[p]] == After(es).entries[After(es).current[p]]
  {
    InvHolds(es);
    hide After, Legal, Latest, Learn;
  }

  /** A search that ends after a scan of its entry has completed changes no entry at all. */
  lemma LateSearchChangesNothing(es: seq<Event>, e: Event)
    requires Legal(es) && e.EndSearch? && Enabled(After(es), e) && Latest(es, e.entry).Some?
    ensures Do(After(es), e) == After(es)
  {
    InvHolds(es);
    ScannedEntriesForgetSearches(es, e.entry);
    hide After, Legal, Latest, Learn;
  }

  lemma {:induction false} ScannedEntriesForgetSearches(es: seq<Event>, n: nat)
    requires Legal(es) && Latest(es, n).Some?
    ensures n < |After(es).entries| && After(es).entries[n].searches == map[] && After(es).entries[n].known == map[]
  {
    InvHolds(es);
    var before, e := es[..|es| - 1], es[|es| - 1];
    InvHolds(before);
    if Latest(before, n).Some? {
      ScannedEntriesForgetSearches(before, n);
    }
    ForgetStep(After(before), e, n);
  }

  lemma ForgetStep(c: Cache, e: Event, n: nat)
    requires Enabled(c, e) && n < |c.entries|
    requires c.entries[n].projects.Some? ==> c.entries[n].searches == map[] && c.entries[n].known == map[]
    ensures n < |Do(c, e).entries|
    ensures Do(c, e).entries[n].projects.Some? ==> Do(c, e).entries[n].searches == map[] && Do(c, e).entries[n].known == map[]
  {
    hide Learn;
  }

  /** A failed scan leaves the previous snapshot, and everything else, as it was. */
  lemma FailedScanChangesNothing(es: seq<Event>, e: Event)
    requires Legal(es) && e.EndScan? && e.result.None? && Enabled(After(es), e)
    ensures Do(After(es), e) == After(es)
  {
  }
}
