/** The catalog as it runs: a map of mutable entries that asynchronous completions write to. */
module CatalogServices {
  import opened Git
  import opened Catalog

  /** The search still owns its query in the entry. */
  predicate Owns(c: Cache, n: nat, j: nat)
    requires n < |c.entries| && j < |c.jobs| && c.jobs[j].Search?
  {
    c.jobs[j].query in c.entries[n].searches && c.entries[n].searches[c.jobs[j].query] == j
  }

  predicate Shows(ps: seq<Project>, id: nat) {
    exists i :: 0 <= i < |ps| && ps[i].id == id
  }

  /** What is not among the results is as known as before. */
  lemma {:induction false} UnshownIsKept(known: map<nat, Project>, ps: seq<Project>, id: nat)
    requires !Shows(ps, id)
    ensures id in Learn(known, ps) <==> id in known
    ensures id in known ==> Learn(known, ps)[id] == known[id]
    decreases |ps|
  {
    if ps != [] {
      assert ps[0].id != id;
      UnshownIsKept(known[ps[0].id := ps[0]], ps[1..], id);
    }
  }

  /** Of several results with one id, the last one is learned. */
  lemma {:induction false} LastIsLearned(known: map<nat, Project>, ps: seq<Project>, i: nat)
    requires i < |ps| && !Shows(ps[i + 1..], ps[i].id)
    ensures ps[i].id in Learn(known, ps) && Learn(known, ps)[ps[i].id] == ps[i]
    decreases |ps|
  {
    if i == 0 {
      UnshownIsKept(known[ps[0].id := ps[0]], ps[1..], ps[0].id);
    } else {
      assert ps[1..][i - 1] == ps[i] && ps[1..][i..] == ps[i + 1..];
      LastIsLearned(known[ps[0].id := ps[0]], ps[1..], i - 1);
    }
  }

  class Service {
    var origins: map<string, string>
    var current: map<string, nat>
    var entries: seq<Entry>
    var jobs: seq<Job>

    function State(): Cache
      reads this
    {
      Cache(origins, current, entries, jobs)
    }

    constructor ()
      ensures State() == Empty
    {
      origins, current, entries, jobs := map[], map[], [], [];
    }

    /** `entry`: the index of the entry that serves the profile. */
    method EntryOf(p: string) returns (n: nat)
      requires p in origins && WellFormed(State())
      modifies `current, `entries
      ensures State() == Entered(old(State()), p)
      ensures n == current[p] && n < |entries| && WellFormed(State()) && Serves(State(), p)
    {
      if p !in current || entries[current[p]].origin != origins[p] {
        current := current[p := |entries|];
        entries := entries + [Entry(origins[p], None, None, map[], map[])];
      }
      n := current[p];
    }

    method PeekAt(p: string, id: nat) returns (r: Option<Project>)
      requires p in origins && WellFormed(State())
      modifies `current, `entries
      ensures State() == Do(old(State()), Touch(p)) && r == Peek(old(State()), p, id)
      // from a scan the first project with the id, before one what the searches have shown
      ensures Serves(State(), p)
      ensures entries[current[p]].projects.Some? ==> FirstWithId(r, entries[current[p]].projects.value, id)
      ensures entries[current[p]].projects.None? ==>
                r == if id in entries[current[p]].known then Some(entries[current[p]].known[id]) else None
    {
      var n := EntryOf(p);
      var x := entries[n];
      if x.projects.Some? {
        FindIsFirst(x.projects.value, id);
        r := None;
        var ps := x.projects.value;
        for i := 0 to |ps|
          invariant Find(ps, id) == Find(ps[i..], id)
        {
          if ps[i].id == id {
            return Some(ps[i]);
          }
        }
      } else {
        r := if id in x.known then Some(x.known[id]) else None;
      }
    }

    method SearchFor(p: string, text: string) returns (r: Answer)
      requires p in origins && WellFormed(State())
      modifies `current, `entries, `jobs
      ensures State() == Do(old(State()), StartSearch(p, Query(text))) && r == SearchAnswer(old(State()), p, Query(text))
      // a scan answers with its first hundred hits; before one, a query has one search that repeated calls share
      ensures Queries(Query(text), text)
      ensures |Query(text)| < 2 ==> r == Now([]) && State() == old(State())
      ensures |Query(text)| >= 2 ==> Serves(State(), p) && r.Now? == entries[current[p]].projects.Some?
      ensures |Query(text)| >= 2 && r.Now? ==> FirstHits(r.projects, entries[current[p]].projects.value, Query(text)) && jobs == old(jobs)
      ensures |Query(text)| >= 2 && r.Later? ==>
                && Query(text) in entries[current[p]].searches && entries[current[p]].searches[Query(text)] == r.job
                && (jobs == old(jobs) || (r.job == |old(jobs)| && jobs == old(jobs) + [Search(current[p], p, origins[p], Query(text))]))
                && (jobs == old(jobs) <==> old(Serves(State(), p) && Query(text) in entries[current[p]].searches))
    {
      hide Query, Matching, Queries, FirstHits;
      QueryIsTrimmed(text);
      var query := Query(text);
      if |query| < 2 {
        return Now([]);
      }
      var n := EntryOf(p);
      var x := entries[n];
      if x.projects.Some? {
        PageIsFirstHits(x.projects.value, query);
        return Now(Page(Matching(x.projects.value, query)));
      }
      if query in x.searches {
        return Later(x.searches[query]);
      }
      r := Later(|jobs|);
      jobs := jobs + [Search(n, p, x.origin, query)];
      entries := entries[n := x.(searches := x.searches[query := |jobs| - 1])];
    }

    method SearchSucceeded(n: nat, j: nat, result: seq<Project>)
      requires Enabled(State(), EndSearch(n, j, Some(result)))
      modifies `entries
      ensures State() == Do(old(State()), EndSearch(n, j, Some(result)))
      // a result whose search still owns its query is known from now on, wherever there is no scan
      ensures forall p, q :: p in origins ==> SearchAnswer(State(), p, q) == SearchAnswer(old(State()), p, q)
      ensures forall p, i :: p in origins && Serves(old(State()), p) && current[p] == n && Owns(old(State()), n, j) && old(entries)[n].projects.None?
                             && 0 <= i < |result| && !Shows(result[i + 1..], result[i].id) ==>
                Peek(State(), p, result[i].id) == Some(result[i])
      ensures forall p, id :: p in origins
                              && (!Serves(old(State()), p) || current[p] != n || !Owns(old(State()), n, j) || !Shows(result, id)) ==>
                Peek(State(), p, id) == Peek(old(State()), p, id)
    {
      var x, query := entries[n], jobs[j].query;
      forall id: nat | !Shows(result, id) {
        UnshownIsKept(x.known, result, id);
      }
      forall i: nat | i < |result| && !Shows(result[i + 1..], result[i].id) {
        LastIsLearned(x.known, result, i);
      }
      if query in x.searches && x.searches[query] == j {
        var known: map<nat, Project> := x.known;
        for i := 0 to |result|
          invariant Learn(x.known, result) == Learn(known, result[i..])
        {
          known := known[result[i].id := result[i]];
          assert result[i..][1..] == result[i + 1..];
        }
        entries := entries[n := x.(known := known)];
      }
    }

    method SearchFailed(n: nat, j: nat)
      requires Enabled(State(), EndSearch(n, j, None))
      modifies `entries
      ensures State() == Do(old(State()), EndSearch(n, j, None))
      // nobody's answers change, except that the failed query, and no other, starts again
      ensures forall p, id :: Peek(State(), p, id) == Peek(old(State()), p, id)
      ensures forall p, q :: p in origins ==>
                SearchAnswer(State(), p, q) ==
                  if SearchAnswer(old(State()), p, q) == Later(j) && Serves(old(State()), p) && current[p] == n && q == jobs[j].query
                  then Later(|jobs|) else SearchAnswer(old(State()), p, q)
    {
      var x, query := entries[n], jobs[j].query;
      if query in x.searches && x.searches[query] == j {
        entries := entries[n := x.(searches := x.searches - {query})];
      }
    }

    /** `refresh`: join the scan in flight, or start one. */
    method Refresh(p: string) returns (job: nat)
      requires p in origins && WellFormed(State())
      modifies `current, `entries, `jobs
      ensures State() == Do(old(State()), StartScan(p))
      ensures Serves(State(), p) && entries[current[p]].pending == Some(job)
      ensures if old(Serves(State(), p) && entries[current[p]].pending.Some?) then State() == old(State())
              else job == |old(jobs)| && jobs == old(jobs) + [Scan(current[p], p, origins[p])]
    {
      var n := EntryOf(p);
      var x := entries[n];
      if x.pending.Some? {
        return x.pending.value;
      }
      job := |jobs|;
      jobs := jobs + [Scan(n, p, x.origin)];
      entries := entries[n := x.(pending := Some(job))];
    }

    method ScanSucceeded(n: nat, j: nat, projects: seq<Project>)
      requires Enabled(State(), EndScan(n, j, Some(projects)))
      modifies `entries
      ensures State() == Do(old(State()), EndScan(n, j, Some(projects)))
      // exactly the profiles that the entry serves are answered from this scan
      ensures forall p, id :: p in origins ==>
                Peek(State(), p, id) ==
                  if Serves(old(State()), p) && current[p] == n then Find(projects, id) else Peek(old(State()), p, id)
      ensures forall p, q :: p in origins && |q| >= 2 ==>
                SearchAnswer(State(), p, q) ==
                  if Serves(old(State()), p) && current[p] == n then Now(Page(Matching(projects, q))) else SearchAnswer(old(State()), p, q)
    {
      var x := entries[n];
      x := x.(projects := Some(projects));
      x := x.(searches := map[], known := map[]);
      entries := entries[n := x];
    }
  }
}
