/**
 One version across manifests, lock file, chart and values: the updater that writes it and
 the checker that release preparation runs on the result.
 */
module Lockstep {
  import opened Git
  import opened Versions

  datatype Field = Dependencies | DevDependencies | PeerDependencies | OptionalDependencies

  const FIELDS := [Dependencies, DevDependencies, PeerDependencies, OptionalDependencies]

  type Versioned = map<string, string>

  datatype Manifest = Manifest(name: string, version: Option<string>, fields: map<Field, Versioned>)

  datatype Workspace = Workspace(path: string, manifest: Manifest)

  datatype Lock = Lock(version: Option<string>, packages: map<string, Manifest>)

  datatype Chart = Chart(version: Option<string>, appVersion: Option<string>)

  datatype Values = Values(repository: string, tag: Option<string>, worker: Option<string>)

  datatype Files = Files(root: Manifest, workspaces: seq<Workspace>, lock: Lock, chart: Chart, values: Values)

  const SERVER_IMAGE := "ghcr.io/leitwerk-dev/leitwerk-server"
  const WORKER_IMAGE := "ghcr.io/leitwerk-dev/leitwerk-worker-generic:"

  // ---------------------------------------------------------------- what is checked

  predicate AllDigits(s: string) {
    s != [] && forall i :: 0 <= i < |s| ==> IsDigit(s[i])
  }

  predicate Tail(s: string) {
    s != [] && forall i :: 0 <= i < |s| ==> IsDigit(s[i]) || 'a' <= s[i] <= 'z' || 'A' <= s[i] <= 'Z' || s[i] in ".-"
  }

  /** Up to the first of the given characters. */
  function Until(s: string, stops: string): string {
    if s == [] || s[0] in stops then [] else [s[0]] + Until(s[1..], stops)
  }

  /** The optional pre-release and build parts. */
  predicate Extension(s: string) {
    if s == [] then true
    else if s[0] == '-' then
      var pre := Until(s[1..], "+");
      Tail(pre) && (|pre| + 1 >= |s| || (s[|pre| + 1] == '+' && Tail(s[|pre| + 2..])))
    else s[0] == '+' && Tail(s[1..])
  }

  /** `semverPattern` */
  predicate SemVer(s: string) {
    var core := Until(s, "-+");
    var parts := Split(core);
    |parts| == 3 && AllDigits(parts[0]) && AllDigits(parts[1]) && AllDigits(parts[2]) && |core| <= |s| && Extension(s[|core|..])
  }

  function Names(ws: seq<Workspace>): set<string> {
    set i | 0 <= i < |ws| :: ws[i].manifest.name
  }

  /** Every dependency on a workspace is exact. */
  predicate InternalExact(m: Manifest, names: set<string>, version: string) {
    forall f, n :: f in m.fields && n in m.fields[f] && n in names ==> m.fields[f][n] == version
  }

  predicate Carries(m: Manifest, names: set<string>, version: string) {
    m.version == Some(version) && InternalExact(m, names, version)
  }

  const NO_RECORD := Manifest("", None, map[])

  function LockRecord(l: Lock, path: string): Manifest {
    if path in l.packages then l.packages[path] else NO_RECORD
  }

  predicate WorkspaceCarries(f: Files, i: nat, version: string)
    requires i < |f.workspaces|
  {
    && Carries(f.workspaces[i].manifest, Names(f.workspaces), version)
    && Carries(LockRecord(f.lock, f.workspaces[i].path), Names(f.workspaces), version)
  }

  /** What a valid release contract means. */
  predicate InLockstep(f: Files) {
    && f.root.version.Some? && SemVer(f.root.version.value)
    && var v := f.root.version.value;
    && f.lock.version == Some(v) && LockRecord(f.lock, "").version == Some(v)
    && (forall i: nat :: i < |f.workspaces| ==> WorkspaceCarries(f, i, v))
    && f.chart == Chart(Some(v), Some(v))
    && f.values == Values(SERVER_IMAGE, Some(v), Some(WORKER_IMAGE + v))
  }

  // ---------------------------------------------------------------- the checker

  datatype Error = NotSemVer | LockVersion | LockRootVersion | WrongVersion(path: string, inLock: bool)
    | WrongDependency(path: string, inLock: bool, field: Field, name: string)
    | ChartVersion | ChartAppVersion | ServerRepository | ServerTag | WorkerImage

  /** `validateInternalDependencies` */
  method CheckDependencies(path: string, inLock: bool, m: Manifest, names: set<string>, version: string) returns (errors: seq<Error>)
    ensures errors == [] <==> InternalExact(m, names, version)
  {
    errors := [];
    for i := 0 to |FIELDS|
      invariant errors == [] <==> forall f, n :: f in FIELDS[..i] && f in m.fields && n in m.fields[f] && n in names ==> m.fields[f][n] == version
    {
      var field := FIELDS[i];
      if field in m.fields {
        var deps := m.fields[field];
        var left := deps.Keys;
        ghost var before := errors;
        while left != {}
          invariant left <= deps.Keys
          invariant errors == [] <==> before == [] && forall n :: n in deps && n !in left && n in names ==> deps[n] == version
          decreases |left|
        {
          var name :| name in left;
          if name in names && deps[name] != version {
            errors := errors + [WrongDependency(path, inLock, field, name)];
          }
          left := left - {name};
        }
      }
      assert FIELDS[..i + 1] == FIELDS[..i] + [field];
    }
    assert FIELDS[..|FIELDS|] == FIELDS;
    EveryField();
  }

  lemma EveryField()
    ensures forall f: Field :: f in FIELDS
  {
    forall f: Field
      ensures f in FIELDS
    {
      match f
      case Dependencies => assert f == FIELDS[0];
      case DevDependencies => assert f == FIELDS[1];
      case PeerDependencies => assert f == FIELDS[2];
      case OptionalDependencies => assert f == FIELDS[3];
    }
  }

  method CheckManifest(path: string, inLock: bool, m: Manifest, names: set<string>, version: string) returns (errors: seq<Error>)
    ensures errors == [] <==> Carries(m, names, version)
  {
    errors := if m.version != Some(version) then [WrongVersion(path, inLock)] else [];
    var more := CheckDependencies(path, inLock, m, names, version);
    errors := errors + more;
  }

  /** `validateLockstepVersions`: no errors exactly when everything carries the root version. */
  method CheckLockstep(f: Files) returns (errors: seq<Error>)
    ensures errors == [] <==> InLockstep(f)
  {
    hide SemVer;
    if f.root.version.None? || !SemVer(f.root.version.value) {
      return [NotSemVer];
    }
    var version, names := f.root.version.value, Names(f.workspaces);
    errors := [];
    if f.lock.version != Some(version) {
      errors := errors + [LockVersion];
    }
    if LockRecord(f.lock, "").version != Some(version) {
      errors := errors + [LockRootVersion];
    }
    ghost var before := errors;
    for i := 0 to |f.workspaces|
      invariant errors == [] <==> before == [] && forall j: nat :: j < i ==> WorkspaceCarries(f, j, version)
    {
      var w := f.workspaces[i];
      var first := CheckManifest(w.path, false, w.manifest, names, version);
      var second := CheckManifest(w.path, true, LockRecord(f.lock, w.path), names, version);
      assert errors + first + second == [] <==> errors == [] && first == [] && second == [];
      errors := errors + first + second;
      assert first == [] && second == [] <==> WorkspaceCarries(f, i, version);
    }
    var more := CheckImages(f, version);
    errors := errors + more;
  }

  method CheckImages(f: Files, version: string) returns (errors: seq<Error>)
    ensures errors == [] <==>
              f.chart == Chart(Some(version), Some(version)) && f.values == Values(SERVER_IMAGE, Some(version), Some(WORKER_IMAGE + version))
  {
    errors := [];
    if f.chart.version != Some(version) {
      errors := errors + [ChartVersion];
    }
    if f.chart.appVersion != Some(version) {
      errors := errors + [ChartAppVersion];
    }
    if f.values.repository != SERVER_IMAGE {
      errors := errors + [ServerRepository];
    }
    if f.values.tag != Some(version) {
      errors := errors + [ServerTag];
    }
    if f.values.worker != Some(WORKER_IMAGE + version) {
      errors := errors + [WorkerImage];
    }
  }

  // ---------------------------------------------------------------- the updater

  function UpdatedDeps(deps: Versioned, names: set<string>, version: string): Versioned {
    map n | n in deps :: if n in names then version else deps[n]
  }

  /** Only the version and the dependencies on workspaces change. */
  function Updated(m: Manifest, names: set<string>, version: string): Manifest {
    m.(version := Some(version), fields := map f | f in m.fields :: UpdatedDeps(m.fields[f], names, version))
  }

  lemma UpdatedCarries(m: Manifest, names: set<string>, version: string)
    ensures Carries(Updated(m, names, version), names, version)
    ensures Updated(Updated(m, names, version), names, version) == Updated(m, names, version)
  {
    var u := Updated(m, names, version);
    forall f | f in u.fields
      ensures UpdatedDeps(u.fields[f], names, version) == u.fields[f]
    {
    }
    assert Updated(u, names, version).fields == u.fields;
  }

  predicate AllLocked(f: Files) {
    "" in f.lock.packages && forall i :: 0 <= i < |f.workspaces| ==> f.workspaces[i].path in f.lock.packages
  }

  function UpdatedWorkspaces(ws: seq<Workspace>, names: set<string>, version: string): seq<Workspace> {
    seq(|ws|, i requires 0 <= i < |ws| => ws[i].(manifest := Updated(ws[i].manifest, names, version)))
  }

  function Paths(ws: seq<Workspace>): seq<string> {
    [""] + seq(|ws|, i requires 0 <= i < |ws| => ws[i].path)
  }

  function UpdatedPackages(packages: map<string, Manifest>, paths: seq<string>, names: set<string>, version: string): map<string, Manifest> {
    map p | p in packages :: if p in paths then Updated(packages[p], names, version) else packages[p]
  }

  function UpdatedFiles(f: Files, version: string): Files {
    var names := Names(f.workspaces);
    Files(
      Updated(f.root, names, version),
      UpdatedWorkspaces(f.workspaces, names, version),
      Lock(Some(version), UpdatedPackages(f.lock.packages, Paths(f.workspaces), names, version)),
      Chart(Some(version), Some(version)),
      f.values.(tag := Some(version), worker := Some(WORKER_IMAGE + version)))
  }

  lemma NamesAreKept(ws: seq<Workspace>, names: set<string>, version: string)
    ensures Names(UpdatedWorkspaces(ws, names, version)) == Names(ws)
  {
    var us := UpdatedWorkspaces(ws, names, version);
    forall n
      ensures n in Names(us) <==> n in Names(ws)
    {
      if n in Names(ws) {
        var i :| 0 <= i < |ws| && ws[i].manifest.name == n;
        assert us[i].manifest.name == n;
      }
      if n in Names(us) {
        var i :| 0 <= i < |us| && us[i].manifest.name == n;
        assert ws[i].manifest.name == n;
      }
    }
  }

  /**
   The updater establishes the checker: with every lock record present, the result is
   valid exactly for a semantic version and the public server image.
   */
  lemma UpdaterEstablishesChecker(f: Files, version: string)
    requires AllLocked(f)
    ensures InLockstep(UpdatedFiles(f, version)) <==> SemVer(version) && f.values.repository == SERVER_IMAGE
  {
    hide SemVer, Carries, Updated;
    var u, names := UpdatedFiles(f, version), Names(f.workspaces);
    NamesAreKept(f.workspaces, names, version);
    UpdatedVersion(f.root, names, version);
    assert Paths(f.workspaces)[0] == "";
    UpdatedVersion(f.lock.packages[""], names, version);
    forall i: nat | i < |u.workspaces|
      ensures WorkspaceCarries(u, i, version)
    {
      var path := f.workspaces[i].path;
      assert Paths(f.workspaces)[i + 1] == path;
      UpdatedCarries(f.workspaces[i].manifest, names, version);
      UpdatedCarries(f.lock.packages[path], names, version);
    }
  }

  lemma UpdatedVersion(m: Manifest, names: set<string>, version: string)
    ensures Updated(m, names, version).version == Some(version)
  {
  }

  // ---------------------------------------------------------------- released versions are accepted

  lemma {:induction false} UntilNone(s: string, stops: string)
    requires forall i :: 0 <= i < |s| ==> s[i] !in stops
    ensures Until(s, stops) == s
  {
    if s != [] {
      UntilNone(s[1..], stops);
      assert s == [s[0]] + s[1..];
    }
  }

  lemma {:induction false} SplitKeepsCharacters(s: string, c: char)
    requires c in s && c != '.'
    ensures exists k :: 0 <= k < |Split(s)| && c in Split(s)[k]
  {
    var rest := Split(s[1..]);
    if s[0] == c {
      assert c in Split(s)[0];
    } else {
      assert c in s[1..];
      SplitKeepsCharacters(s[1..], c);
      var k :| 0 <= k < |rest| && c in rest[k];
      if s[0] == '.' {
        assert Split(s)[k + 1] == rest[k];
      } else if k > 0 {
        assert Split(s)[k] == rest[k];
      } else {
        assert c in Split(s)[0];
      }
    }
  }

  /** Every X.Y.Z is a semantic version for the checker. */
  lemma StableIsSemVer(s: string)
    requires Stable(s)
    ensures SemVer(s)
  {
    forall i | 0 <= i < |s|
      ensures IsDigit(s[i]) || s[i] == '.'
    {
      if s[i] != '.' {
        SplitKeepsCharacters(s, s[i]);
        var k :| 0 <= k < |Split(s)| && s[i] in Split(s)[k];
        assert Numeral(Split(s)[k]);
      }
    }
    UntilNone(s, "-+");
  }

  /** Whatever version main asks for, preparing it from a complete checkout passes the checker. */
  lemma ReleasesAreInLockstep(current: string, intent: Intent, f: Files)
    requires Calculate(current, intent).Next? && AllLocked(f) && f.values.repository == SERVER_IMAGE
    ensures InLockstep(UpdatedFiles(f, Calculate(current, intent).version))
  {
    var next := CalculatedVersionIncreases(current, intent);
    hide Calculate, UpdatedFiles, InLockstep;
    PrintIsStable(next);
    StableIsSemVer(Print(next));
    UpdaterEstablishesChecker(f, Print(next));
  }

  lemma PrintIsStable(v: Version)
    ensures Stable(Print(v))
  {
    DigitsAreCanonical(v.major);
    DigitsAreCanonical(v.minor);
    DigitsAreCanonical(v.patch);
    SplitJoins(Digits(v.major), Digits(v.minor) + "." + Digits(v.patch));
    SplitJoins(Digits(v.minor), Digits(v.patch));
    SplitOne(Digits(v.patch));
    assert Print(v) == Digits(v.major) + "." + (Digits(v.minor) + "." + Digits(v.patch));
  }

  // ---------------------------------------------------------------- as it runs

  method UpdateDependencies(deps: Versioned, names: set<string>, version: string) returns (r: Versioned)
    ensures r == UpdatedDeps(deps, names, version)
  {
    r := deps;
    var left := deps.Keys;
    while left != {}
      invariant left <= deps.Keys && r.Keys == deps.Keys
      invariant forall n :: n in deps ==> r[n] == if n in names && n !in left then version else deps[n]
      decreases |left|
    {
      var name :| name in left;
      if name in names {
        r := r[name := version];
      }
      left := left - {name};
    }
  }

  /** The edit of one manifest, field by field and name by name. */
  method UpdateManifest(m: Manifest, names: set<string>, version: string) returns (r: Manifest)
    ensures r == Updated(m, names, version)
  {
    hide UpdatedDeps;
    var fields := m.fields;
    for i := 0 to |FIELDS|
      invariant fields.Keys == m.fields.Keys
      invariant forall f :: f in fields ==>
                  fields[f] == if f in FIELDS[..i] then UpdatedDeps(m.fields[f], names, version) else m.fields[f]
    {
      var field := FIELDS[i];
      assert FIELDS[..i + 1] == FIELDS[..i] + [field];
      if field in fields {
        FieldsAreDistinct(i);
        var deps := UpdateDependencies(m.fields[field], names, version);
        fields := fields[field := deps];
      }
    }
    assert FIELDS[..|FIELDS|] == FIELDS;
    EveryField();
    assert fields == map f | f in m.fields :: UpdatedDeps(m.fields[f], names, version);
    r := m.(version := Some(version), fields := fields);
  }

  lemma FieldsAreDistinct(i: nat)
    requires i < |FIELDS|
    ensures FIELDS[i] !in FIELDS[..i]
  {
  }

  class Checkout {
    var files: Files

    constructor (files: Files)
      ensures this.files == files
    {
      this.files := files;
    }

    method UpdateWorkspaces(names: set<string>, version: string)
      modifies this
      ensures files == old(files).(workspaces := UpdatedWorkspaces(old(files).workspaces, names, version))
    {
      hide Updated;
      var ws := files.workspaces;
      for i := 0 to |ws|
        invariant files == old(files).(workspaces := files.workspaces) && |files.workspaces| == |ws|
        invariant forall j :: 0 <= j < i ==> files.workspaces[j] == ws[j].(manifest := Updated(ws[j].manifest, names, version))
        invariant forall j :: i <= j < |ws| ==> files.workspaces[j] == ws[j]
      {
        var m := UpdateManifest(ws[i].manifest, names, version);
        files := files.(workspaces := files.workspaces[i := ws[i].(manifest := m)]);
      }
      assert files.workspaces == UpdatedWorkspaces(ws, names, version);
    }

    /** Fails on the first workspace without a lock record. */
    method UpdateLock(paths: seq<string>, names: set<string>, version: string) returns (ok: bool)
      modifies this
      ensures ok <==> forall i :: 0 <= i < |paths| ==> paths[i] in old(files).lock.packages
      ensures ok ==> files == old(files).(lock := Lock(Some(version), UpdatedPackages(old(files).lock.packages, paths, names, version)))
    {
      hide Updated;
      var packages := files.lock.packages;
      ghost var start := packages;
      for i := 0 to |paths|
        invariant files == old(files) && packages.Keys == start.Keys
        invariant forall j :: 0 <= j < i ==> paths[j] in start
        invariant forall p :: p in start ==> packages[p] == if p in paths[..i] then Updated(start[p], names, version) else start[p]
      {
        var path := paths[i];
        assert paths[..i + 1] == paths[..i] + [path];
        if path !in packages {
          return false;
        }
        UpdatedCarries(start[path], names, version);
        var m := UpdateManifest(packages[path], names, version);
        packages := packages[path := m];
      }
      assert paths[..|paths|] == paths;
      assert packages == UpdatedPackages(start, paths, names, version);
      files := files.(lock := Lock(Some(version), packages));
      ok := true;
    }

    /** `updateVersions` */
    method UpdateVersions(version: string) returns (ok: bool)
      modifies this
      ensures ok <==> AllLocked(old(files))
      ensures ok ==> files == UpdatedFiles(old(files), version)
    {
      hide Updated, UpdatedPackages, UpdatedWorkspaces;
      var names, paths := Names(files.workspaces), Paths(files.workspaces);
      ghost var start := files;
      var root := UpdateManifest(files.root, names, version);
      files := files.(root := root);
      UpdateWorkspaces(names, version);
      ok := UpdateLock(paths, names, version);
      assert (forall i :: 0 <= i < |paths| ==> paths[i] in start.lock.packages) <==> AllLocked(start) by {
        assert paths[0] == "";
        assert forall i :: 0 <= i < |start.workspaces| ==> paths[i + 1] == start.workspaces[i].path;
      }
      if ok {
        files := files.(chart := Chart(Some(version), Some(version)));
        files := files.(values := files.values.(tag := Some(version), worker := Some(WORKER_IMAGE + version)));
      }
    }
  }
}
