/** The release gate: reconciling the artifact on disk, the build receipt and the long-audit
    receipt into a release receipt, and checking that receipt again before installation.
    A file is what reading it gives; a SHA-256 is a string. */
module Certification {
  import opened Options

  // ---------- files ----------

  datatype Artifact = NoArtifact | Unhashable | Bytes(sha: string)

  datatype Build = Build(
    sha: string,
    strict: bool,
    status: string,
    gaps: seq<string>,
    runId: Option<string>,
    flatpakPath: Option<string>,
    flatpakSha: Option<string>)

  datatype BuildFile = NoBuild | UnreadableBuild | InvalidBuild | ParsedBuild(build: Build)

  /** One phase line of the audit.  A missing text field reads as the empty text. */
  datatype Entry = Entry(
    phase: string,
    status: string,
    gaps: seq<string>,
    sha: Option<string>,
    path: Option<string>,
    runId: Option<string>)

  datatype Line = Blank | NotJson | Phase(entry: Entry)

  datatype LongFile = NoLong | UnreadableLong | Lines(lines: seq<Line>)

  const PASSED: string := "PASSED"
  const ROSTER: seq<string> := ["phase1", "phase2", "phase3", "phase4", "phase5", "phase6", "overall"]

  // ---------- the declared artifact ----------

  datatype Declaration = Missing | Incomplete | Conflicting | Declared(path: Option<string>, sha: string)

  predicate Given(s: Option<string>) { s.Some? && s.value != "" }

  /** Every line names the same artifact. */
  predicate AllDeclare(es: seq<Entry>, sha: string) {
    es != [] && sha != "" && forall i :: 0 <= i < |es| ==> es[i].sha == Some(sha)
  }

  predicate OnePath(es: seq<Entry>) {
    forall i, j :: 0 <= i < |es| && 0 <= j < |es| && Given(es[i].path) && Given(es[j].path) ==>
      es[i].path == es[j].path
  }

  predicate IsDeclaration(es: seq<Entry>, d: Declaration) {
    match d
    case Missing => forall i :: 0 <= i < |es| ==> !Given(es[i].sha)
    case Incomplete =>
      (exists i :: 0 <= i < |es| && Given(es[i].sha)) && exists i :: 0 <= i < |es| && !Given(es[i].sha)
    case Declared(path, sha) =>
      AllDeclare(es, sha) && OnePath(es)
      && (if path.Some? then path.value != "" && exists i :: 0 <= i < |es| && es[i].path == path
          else forall i :: 0 <= i < |es| ==> !Given(es[i].path))
    case Conflicting =>
      es != [] && (forall i :: 0 <= i < |es| ==> Given(es[i].sha))
      && !(OnePath(es) && AllDeclare(es, es[0].sha.value))
  }

  /** The four answers exclude one another, so the loop below has no choice. */
  lemma DeclarationIsUnique(es: seq<Entry>, c: Declaration, d: Declaration)
    requires IsDeclaration(es, c) && IsDeclaration(es, d)
    ensures c == d
  {
    DeclaredIsGiven(es, c);
    DeclaredIsGiven(es, d);
    if c.Declared? && d.Declared? {
      var p, q := c.path, d.path;
      if p.Some? { var i :| 0 <= i < |es| && es[i].path == p; assert Given(es[i].path); }
      if q.Some? { var i :| 0 <= i < |es| && es[i].path == q; assert Given(es[i].path); }
    }
  }

  lemma DeclaredIsGiven(es: seq<Entry>, d: Declaration)
    requires IsDeclaration(es, d)
    ensures d.Declared? ==>
              es != [] && es[0].sha == Some(d.sha) && forall i :: 0 <= i < |es| ==> Given(es[i].sha)
    ensures d.Conflicting? ==> es != [] && Given(es[0].sha)
  {}

  lemma OneElement(s: set<string>, x: string)
    requires x in s
    ensures |s| == 1 <==> s == {x}
  {
    assert |s - {x}| == |s| - 1;
  }

  lemma AtMostOne(s: set<string>)
    ensures |s| <= 1 <==> forall x, y :: x in s && y in s ==> x == y
  {
    if s != {} {
      var x :| x in s;
      OneElement(s, x);
    }
  }

  datatype Field = ShaField | PathField

  function FieldOf(e: Entry, f: Field): Option<string> {
    match f case ShaField => e.sha case PathField => e.path
  }

  /** The values the lines give in one field. */
  function GivenIn(es: seq<Entry>, f: Field): set<string> {
    if es == [] then {}
    else
      var v := FieldOf(es[|es| - 1], f);
      GivenIn(es[..|es| - 1], f) + (if Given(v) then {v.value} else {})
  }

  lemma {:induction false} InGiven(es: seq<Entry>, f: Field)
    ensures forall i {:trigger es[i]} :: 0 <= i < |es| && Given(FieldOf(es[i], f)) ==>
              FieldOf(es[i], f).value in GivenIn(es, f)
    ensures forall x :: x in GivenIn(es, f) ==> exists i :: 0 <= i < |es| && Holds(es[i], f, x)
  {
    if es != [] {
      var n := |es| - 1;
      InGiven(es[..n], f);
      forall x | x in GivenIn(es, f) ensures exists i :: 0 <= i < |es| && Holds(es[i], f, x) {
        if x in GivenIn(es[..n], f) {
          var i :| 0 <= i < n && Holds(es[..n][i], f, x);
          assert es[i] == es[..n][i];
        } else {
          assert Holds(es[n], f, x);
        }
      }
    }
  }

  predicate Holds(e: Entry, f: Field, x: string) { x != "" && FieldOf(e, f) == Some(x) }

  lemma NextGiven(es: seq<Entry>, i: nat, f: Field)
    requires i < |es|
    ensures GivenIn(es[..i + 1], f)
            == GivenIn(es[..i], f) + (if Given(FieldOf(es[i], f)) then {FieldOf(es[i], f).value} else {})
  {
    assert es[..i + 1][..i] == es[..i];
  }

  lemma NothingGiven()
    ensures forall f :: GivenIn([], f) == {}
  {}

  method DeclaredArtifact(es: seq<Entry>) returns (r: Declaration)
    ensures IsDeclaration(es, r)
  {
    hide GivenIn, IsDeclaration;
    NothingGiven();
    var shas: set<string>, paths: set<string>, declared := {}, {}, 0;
    for i := 0 to |es|
      invariant 0 <= declared <= i
      invariant declared == i <==> forall k :: 0 <= k < i ==> Given(es[k].sha)
      invariant declared == 0 <==> forall k :: 0 <= k < i ==> !Given(es[k].sha)
      invariant shas == GivenIn(es[..i], ShaField) && paths == GivenIn(es[..i], PathField)
    {
      NextGiven(es, i, ShaField);
      NextGiven(es, i, PathField);
      if Given(es[i].sha) {
        declared := declared + 1;
        shas := shas + {es[i].sha.value};
      }
      if Given(es[i].path) {
        paths := paths + {es[i].path.value};
      }
    }
    assert es[..|es|] == es;
    hide Given;
    if declared == 0 {
      NoneDeclares(es);
      return Missing;
    }
    if declared != |es| {
      SomeDeclare(es);
      return Incomplete;
    }
    AllGiven(es);
    if |shas| != 1 { return Conflicting; }
    if |paths| > 1 { return Conflicting; }
    var path: Option<string> := None;
    if paths != {} {
      var p :| p in paths;
      path := Some(p);
    }
    OneDeclared(es, path);
    return Declared(path, es[0].sha.value);
  }

  lemma NoneDeclares(es: seq<Entry>)
    requires forall k :: 0 <= k < |es| ==> !Given(es[k].sha)
    ensures IsDeclaration(es, Missing)
  {}

  lemma SomeDeclare(es: seq<Entry>)
    requires !(forall k :: 0 <= k < |es| ==> !Given(es[k].sha)) && !(forall k :: 0 <= k < |es| ==> Given(es[k].sha))
    ensures IsDeclaration(es, Incomplete)
  {}

  lemma AllGiven(es: seq<Entry>)
    requires es != [] && forall k :: 0 <= k < |es| ==> Given(es[k].sha)
    ensures es[0].sha.Some?
    ensures |GivenIn(es, ShaField)| != 1 || |GivenIn(es, PathField)| > 1 ==> IsDeclaration(es, Conflicting)
  {
    hide GivenIn, OnePath, AllDeclare;
    assert Given(es[0].sha);
    OneShaMeans(es);
    OnePathMeans(es);
  }

  lemma OneDeclared(es: seq<Entry>, path: Option<string>)
    requires es != [] && (forall k :: 0 <= k < |es| ==> Given(es[k].sha)) && es[0].sha.Some?
    requires |GivenIn(es, ShaField)| == 1 && |GivenIn(es, PathField)| <= 1
    requires if path.Some? then path.value in GivenIn(es, PathField) else GivenIn(es, PathField) == {}
    ensures IsDeclaration(es, Declared(path, es[0].sha.value))
  {
    hide GivenIn, OnePath, AllDeclare;
    assert Given(es[0].sha);
    OneShaMeans(es);
    OnePathMeans(es);
  }

  lemma OnePathMeans(es: seq<Entry>)
    ensures |GivenIn(es, PathField)| <= 1 <==> OnePath(es)
    ensures forall p :: p in GivenIn(es, PathField) ==> p != "" && exists i :: 0 <= i < |es| && es[i].path == Some(p)
    ensures GivenIn(es, PathField) == {} ==> forall i :: 0 <= i < |es| ==> !Given(es[i].path)
  {
    InGiven(es, PathField);
    AtMostOne(GivenIn(es, PathField));
  }

  lemma OneShaMeans(es: seq<Entry>)
    requires es != [] && Given(es[0].sha) && forall i :: 0 <= i < |es| ==> Given(es[i].sha)
    ensures |GivenIn(es, ShaField)| == 1 <==> AllDeclare(es, es[0].sha.value)
  {
    InGiven(es, ShaField);
    OneElement(GivenIn(es, ShaField), es[0].sha.value);
  }

  // ---------- consistency of the audit receipt ----------

  datatype Consistency = Match(declared: string) | Mismatch | Absent | Partial

  function Entries(lines: seq<Line>): seq<Entry> {
    if lines == [] then []
    else
      var l := lines[|lines| - 1];
      Entries(lines[..|lines| - 1]) + (if l.Phase? then [l.entry] else [])
  }

  predicate AllJson(lines: seq<Line>) { forall i :: 0 <= i < |lines| ==> !lines[i].NotJson? }

  predicate Readable(f: LongFile) { f.Lines? && AllJson(f.lines) && Entries(f.lines) != [] }

  /** Reads the entries; the error cases are one `None`. */
  method ReadEntries(f: LongFile) returns (r: Option<seq<Entry>>)
    ensures r == if Readable(f) then Some(Entries(f.lines)) else None
  {
    if !f.Lines? { return None; }
    var es: seq<Entry> := [];
    var i := 0;
    while i < |f.lines|
      invariant 0 <= i <= |f.lines|
      invariant forall k :: 0 <= k < i ==> !f.lines[k].NotJson?
      invariant es == Entries(f.lines[..i])
    {
      assert f.lines[..i + 1][..i] == f.lines[..i];
      match f.lines[i] {
        case Blank =>
        case NotJson => return None;
        case Phase(e) => es := es + [e];
      }
      i := i + 1;
    }
    assert f.lines[..i] == f.lines;
    if es == [] { return None; }
    return Some(es);
  }

  ghost predicate IsConsistency(long: LongFile, artifact: Artifact, c: Consistency) {
    match c
    case Match(sha) =>
      Readable(long) && artifact == Bytes(sha) && exists p :: IsDeclaration(Entries(long.lines), Declared(p, sha))
    case Absent => long.NoLong? || (Readable(long) && IsDeclaration(Entries(long.lines), Missing))
    case Partial => Readable(long) && IsDeclaration(Entries(long.lines), Incomplete)
    case Mismatch =>
      !long.NoLong?
      && (!Readable(long) || IsDeclaration(Entries(long.lines), Conflicting)
          || exists p, s :: IsDeclaration(Entries(long.lines), Declared(p, s)) && artifact != Bytes(s))
  }

  method VerifyReceiptArtifact(long: LongFile, artifact: Artifact) returns (c: Consistency)
    ensures IsConsistency(long, artifact, c)
  {
    if long.NoLong? { return Absent; }
    var es := ReadEntries(long);
    if es.None? { return Mismatch; }
    var d := DeclaredArtifact(es.value);
    match d
    case Missing => return Absent;
    case Incomplete => return Partial;
    case Conflicting => return Mismatch;
    case Declared(p, s) =>
      if !artifact.Bytes? { return Mismatch; }
      if s == artifact.sha { return Match(s); }
      return Mismatch;
  }

  /** The audit matches exactly when every line declares the hash of the bytes on disk and at
      most one path. */
  lemma MatchMeans(long: LongFile, artifact: Artifact, c: Consistency)
    requires IsConsistency(long, artifact, c)
    ensures c.Match? <==> artifact.Bytes? && Readable(long) && AllDeclare(Entries(long.lines), artifact.sha)
                          && OnePath(Entries(long.lines))
    ensures c.Match? ==> artifact == Bytes(c.declared)
  {
    if artifact.Bytes? && Readable(long) && AllDeclare(Entries(long.lines), artifact.sha) && OnePath(Entries(long.lines)) {
      var es := Entries(long.lines);
      var p := APath(es);
      assert IsDeclaration(es, Declared(p, artifact.sha));
      if c.Absent? { DeclarationIsUnique(es, Missing, Declared(p, artifact.sha)); }
      if c.Partial? { DeclarationIsUnique(es, Incomplete, Declared(p, artifact.sha)); }
      if c.Mismatch? { NoOtherDeclaration(es, p, artifact.sha); }
    }
  }

  ghost function APath(es: seq<Entry>): (p: Option<string>)
    ensures if p.Some? then p.value != "" && exists i :: 0 <= i < |es| && es[i].path == p
            else forall i :: 0 <= i < |es| ==> !Given(es[i].path)
  {
    if exists i :: 0 <= i < |es| && Given(es[i].path)
    then var i :| 0 <= i < |es| && Given(es[i].path); es[i].path
    else None
  }

  lemma NoOtherDeclaration(es: seq<Entry>, p: Option<string>, sha: string)
    requires IsDeclaration(es, Declared(p, sha))
    ensures !IsDeclaration(es, Conflicting)
    ensures forall q, t :: IsDeclaration(es, Declared(q, t)) ==> t == sha
  {
    if IsDeclaration(es, Conflicting) { DeclarationIsUnique(es, Conflicting, Declared(p, sha)); }
    forall q, t | IsDeclaration(es, Declared(q, t)) ensures t == sha {
      DeclarationIsUnique(es, Declared(q, t), Declared(p, sha));
    }
  }

  // ---------- certification ----------

  datatype Fail =
    | ArtifactHashFailed | ArtifactMissing
    | ShaMismatchBuild | BuildNotStrict | BuildStatusNotPassed | RunIdMismatchBuild
    | BuildInvalidSchema | BuildReadFailed | BuildMissing
    | ShaMismatchLong | LongArtifactAbsent | LongArtifactIncomplete | RunIdMismatchLong
    | PhaseStatus(phase: string, status: string) | LineInvalid(line: nat) | PhaseMissing(phase: string)
    | LongReadFailed | LongMissing | RunIdMismatchCross

  /** The fails and the gaps are sorted and deduplicated in the end: sets. */
  datatype Receipt = Receipt(
    certified: bool,
    fails: set<Fail>,
    gaps: set<(string, string)>,
    artifactSha: string,
    consistent: bool,             // the consistency token is "match"
    buildRunId: Option<string>,
    longRunId: Option<string>,
    flatpakPath: Option<string>,
    flatpakSha: Option<string>)

  predicate Expected(expected: Option<string>, runId: Option<string>) {
    Given(expected) && runId.Some? ==> runId == expected
  }

  predicate BuildOk(b: Build, artifact: Artifact, expected: Option<string>) {
    (artifact.Bytes? ==> b.sha == artifact.sha) && b.strict && b.status == PASSED && b.gaps == []
    && Expected(expected, b.runId)
  }

  predicate EntryOk(e: Entry, expected: Option<string>) {
    e.status == PASSED && (forall i :: 0 <= i < |e.gaps| ==> e.gaps[i] == "")
    && (Given(e.runId) ==> Expected(expected, e.runId))
  }

  predicate LineOk(l: Line, expected: Option<string>) {
    !l.NotJson? && (l.Phase? ==> EntryOk(l.entry, expected))
  }

  predicate LinesOk(lines: seq<Line>, expected: Option<string>) {
    forall i :: 0 <= i < |lines| ==> LineOk(lines[i], expected)
  }

  predicate Seen(lines: seq<Line>, phase: string) {
    exists i :: 0 <= i < |lines| && lines[i].Phase? && lines[i].entry.phase == phase
  }

  function LastRunId(lines: seq<Line>): Option<string> {
    if lines == [] then None
    else
      var n := |lines| - 1;
      if lines[n].Phase? && Given(lines[n].entry.runId) then lines[n].entry.runId else LastRunId(lines[..n])
  }

  predicate RunIdsAgree(build: Option<string>, long: Option<string>) {
    Given(build) && Given(long) ==> build == long
  }

  /** What a certified release means. */
  predicate Certifiable(artifact: Artifact, build: BuildFile, long: LongFile, expected: Option<string>) {
    artifact.Bytes?
    && build.ParsedBuild? && BuildOk(build.build, artifact, expected)
    && Readable(long) && AllDeclare(Entries(long.lines), artifact.sha) && OnePath(Entries(long.lines))
    && LinesOk(long.lines, expected) && (forall i :: 0 <= i < |ROSTER| ==> Seen(long.lines, ROSTER[i]))
    && RunIdsAgree(build.build.runId, LastRunId(long.lines))
  }

  // ---------- the diagnosis ----------

  /** What the build receipt can be blamed for. */
  predicate BuildFail(x: Fail, b: Build, artifact: Artifact, expected: Option<string>) {
    match x
    case ShaMismatchBuild => (artifact.Bytes? && b.sha != artifact.sha) || (artifact.Unhashable? && b.sha != "unknown")
    case BuildNotStrict => !b.strict
    case BuildStatusNotPassed => b.status != PASSED
    case RunIdMismatchBuild => Given(expected) && b.runId.Some? && b.runId != expected
    case _ => false
  }

  predicate DiskFail(x: Fail, artifact: Artifact, build: BuildFile, expected: Option<string>) {
    match x
    case ArtifactMissing => artifact.NoArtifact?
    case ArtifactHashFailed => artifact.Unhashable?
    case BuildMissing => build.NoBuild?
    case BuildReadFailed => build.UnreadableBuild?
    case BuildInvalidSchema => build.InvalidBuild?
    case _ => build.ParsedBuild? && BuildFail(x, build.build, artifact, expected)
  }

  /** What line number `n` of the audit can be blamed for. */
  predicate LineFail(x: Fail, l: Line, n: nat, expected: Option<string>) {
    match x
    case LineInvalid(k) => k == n && l.NotJson?
    case PhaseStatus(phase, status) =>
      l.Phase? && l.entry.phase == phase && l.entry.status == status && status != PASSED
    case RunIdMismatchLong => l.Phase? && Given(expected) && Given(l.entry.runId) && l.entry.runId != expected
    case _ => false
  }

  predicate LinesFail(x: Fail, lines: seq<Line>, expected: Option<string>) {
    (exists i :: 0 <= i < |lines| && LineFail(x, lines[i], i + 1, expected))
    || (x.PhaseMissing? && x.phase in ROSTER && !Seen(lines, x.phase))
  }

  predicate AuditFail(x: Fail, artifact: Artifact, long: LongFile, expected: Option<string>) {
    match x
    case LongMissing => long.NoLong?
    case LongReadFailed => long.UnreadableLong?
    case LongArtifactAbsent => Readable(long) && forall i :: 0 <= i < |Entries(long.lines)| ==> !Given(Entries(long.lines)[i].sha)
    case LongArtifactIncomplete =>
      Readable(long)
      && (exists i :: 0 <= i < |Entries(long.lines)| && Given(Entries(long.lines)[i].sha))
      && exists i :: 0 <= i < |Entries(long.lines)| && !Given(Entries(long.lines)[i].sha)
    case ShaMismatchLong => !long.NoLong? && (Readable(long) ==> DeclaresOther(Entries(long.lines), artifact))
    case _ => long.Lines? && LinesFail(x, long.lines, expected)
  }

  /** Every line declares a hash, but not all the one on disk, or for more than one path. */
  predicate DeclaresOther(es: seq<Entry>, artifact: Artifact) {
    (forall i :: 0 <= i < |es| ==> Given(es[i].sha))
    && !(artifact.Bytes? && AllDeclare(es, artifact.sha) && OnePath(es))
  }

  predicate LineGap(g: (string, string), l: Line) {
    l.Phase? && g.0 == l.entry.phase && g.1 != "" && g.1 in l.entry.gaps
  }

  predicate LinesGap(g: (string, string), lines: seq<Line>) {
    exists i :: 0 <= i < |lines| && LineGap(g, lines[i])
  }

  method CheckBuild(b: Build, artifact: Artifact, expected: Option<string>)
    returns (fails: set<Fail>, gaps: set<(string, string)>)
    ensures forall x :: x in fails <==> BuildFail(x, b, artifact, expected)
    ensures forall g :: g in gaps <==> g.0 == "build" && g.1 in b.gaps
    ensures fails == {} && artifact.Bytes? ==> b.sha == artifact.sha
    ensures fails == {} && gaps == {}
            <==> BuildOk(b, artifact, expected) && (artifact.Unhashable? ==> b.sha == "unknown")
  {
    fails, gaps := {}, {};
    var actual := if artifact.Bytes? then artifact.sha else "unknown";
    if !artifact.NoArtifact? && b.sha != actual { fails := fails + {ShaMismatchBuild}; }
    if !b.strict { fails := fails + {BuildNotStrict}; }
    if b.status != PASSED { fails := fails + {BuildStatusNotPassed}; }
    for i := 0 to |b.gaps|
      invariant gaps == set k | 0 <= k < i :: ("build", b.gaps[k])
    {
      gaps := gaps + {("build", b.gaps[i])};
    }
    assert b.gaps != [] ==> ("build", b.gaps[0]) in gaps;
    if Given(expected) && b.runId.Some? && b.runId != expected { fails := fails + {RunIdMismatchBuild}; }
  }

  method CheckEntry(e: Entry, n: nat, expected: Option<string>) returns (fails: set<Fail>, gaps: set<(string, string)>)
    ensures forall x :: x in fails <==> LineFail(x, Phase(e), n, expected)
    ensures forall g :: g in gaps <==> LineGap(g, Phase(e))
    ensures fails == {} && gaps == {} <==> EntryOk(e, expected)
  {
    fails, gaps := {}, {};
    for i := 0 to |e.gaps|
      invariant gaps == set k | 0 <= k < i && e.gaps[k] != "" :: (e.phase, e.gaps[k])
    {
      if e.gaps[i] != "" { gaps := gaps + {(e.phase, e.gaps[i])}; }
    }
    assert forall k :: 0 <= k < |e.gaps| && e.gaps[k] != "" ==> (e.phase, e.gaps[k]) in gaps;
    if Given(e.runId) && Given(expected) && e.runId != expected { fails := fails + {RunIdMismatchLong}; }
    if e.status != PASSED { fails := fails + {PhaseStatus(e.phase, e.status)}; }
  }

  method CheckLine(l: Line, n: nat, expected: Option<string>) returns (fails: set<Fail>, gaps: set<(string, string)>)
    ensures forall x :: x in fails <==> LineFail(x, l, n, expected)
    ensures forall g :: g in gaps <==> LineGap(g, l)
    ensures fails == {} && gaps == {} <==> LineOk(l, expected)
  {
    fails, gaps := {}, {};
    match l
    case Blank =>
    case NotJson => fails := {LineInvalid(n)};
    case Phase(e) => fails, gaps := CheckEntry(e, n, expected);
  }

  method CheckLines(lines: seq<Line>, expected: Option<string>)
    returns (fails: set<Fail>, gaps: set<(string, string)>, runId: Option<string>)
    ensures forall x :: x in fails <==> LinesFail(x, lines, expected)
    ensures forall g :: g in gaps <==> LinesGap(g, lines)
    ensures fails == {} && gaps == {}
            <==> LinesOk(lines, expected) && forall i :: 0 <= i < |ROSTER| ==> Seen(lines, ROSTER[i])
    ensures runId == LastRunId(lines)
  {
    hide LineFail, LineGap, LineOk;
    fails, gaps, runId := {}, {}, None;
    var seen: set<string> := {};
    for i := 0 to |lines|
      invariant forall x :: x in fails <==> exists k :: 0 <= k < i && LineFail(x, lines[k], k + 1, expected)
      invariant forall g :: g in gaps <==> exists k :: 0 <= k < i && LineGap(g, lines[k])
      invariant fails == {} && gaps == {} <==> forall k :: 0 <= k < i ==> LineOk(lines[k], expected)
      invariant runId == LastRunId(lines[..i])
      invariant forall p :: p in seen <==> p != "" && exists k :: 0 <= k < i && lines[k].Phase? && lines[k].entry.phase == p
    {
      assert lines[..i + 1][..i] == lines[..i];
      var f, g := CheckLine(lines[i], i + 1, expected);
      fails, gaps := fails + f, gaps + g;
      if lines[i].Phase? {
        if Given(lines[i].entry.runId) { runId := lines[i].entry.runId; }
        if lines[i].entry.phase != "" { seen := seen + {lines[i].entry.phase}; }
      }
    }
    assert lines[..|lines|] == lines;
    var missing := CheckRoster(lines, seen);
    NothingMissing(lines, missing);
    fails := fails + missing;
  }

  /** The phases of the roster that no line carries. */
  method CheckRoster(lines: seq<Line>, seen: set<string>) returns (missing: set<Fail>)
    requires forall p :: p in seen <==> p != "" && exists k :: 0 <= k < |lines| && lines[k].Phase? && lines[k].entry.phase == p
    ensures forall x :: x in missing <==> x.PhaseMissing? && x.phase in ROSTER && !Seen(lines, x.phase)
  {
    missing := {};
    for i := 0 to |ROSTER|
      invariant forall x :: x in missing <==> exists k :: 0 <= k < i && x == PhaseMissing(ROSTER[k]) && !Seen(lines, ROSTER[k])
    {
      assert ROSTER[i] != "";
      if ROSTER[i] !in seen { missing := missing + {PhaseMissing(ROSTER[i])}; }
    }
  }

  lemma NothingMissing(lines: seq<Line>, missing: set<Fail>)
    requires forall x :: x in missing <==> x.PhaseMissing? && x.phase in ROSTER && !Seen(lines, x.phase)
    ensures missing == {} <==> forall i :: 0 <= i < |ROSTER| ==> Seen(lines, ROSTER[i])
  {
    hide Seen;
    if i :| 0 <= i < |ROSTER| && !Seen(lines, ROSTER[i]) { assert PhaseMissing(ROSTER[i]) in missing; }
  }

  /** The artifact on disk and the build receipt. */
  method CheckDisk(artifact: Artifact, build: BuildFile, expected: Option<string>)
    returns (fails: set<Fail>, gaps: set<(string, string)>)
    ensures forall x :: x in fails <==> DiskFail(x, artifact, build, expected)
    ensures forall g :: g in gaps <==> build.ParsedBuild? && g.0 == "build" && g.1 in build.build.gaps
    ensures fails == {} && gaps == {}
            <==> artifact.Bytes? && build.ParsedBuild? && BuildOk(build.build, artifact, expected)
    ensures fails == {} && artifact.Bytes? && build.ParsedBuild? ==> build.build.sha == artifact.sha
  {
    hide BuildOk;
    fails, gaps := {}, {};
    match artifact {
      case NoArtifact => fails := fails + {ArtifactMissing};
      case Unhashable => fails := fails + {ArtifactHashFailed};
      case Bytes(_) =>
    }
    match build {
      case NoBuild => fails := fails + {BuildMissing};
      case UnreadableBuild => fails := fails + {BuildReadFailed};
      case InvalidBuild => fails := fails + {BuildInvalidSchema};
      case ParsedBuild(b) =>
        var f, g := CheckBuild(b, artifact, expected);
        fails, gaps := fails + f, gaps + g;
    }
  }

  /** The answer on the audit's declared artifact as a set of fails. */
  lemma ConsistencyFails(long: LongFile, artifact: Artifact, c: Consistency, expected: Option<string>)
    requires IsConsistency(long, artifact, c) && !long.NoLong?
    ensures AuditFail(ShaMismatchLong, artifact, long, expected) <==> c.Mismatch?
    ensures AuditFail(LongArtifactAbsent, artifact, long, expected) <==> c.Absent?
    ensures AuditFail(LongArtifactIncomplete, artifact, long, expected) <==> c.Partial?
  {
    MatchMeans(long, artifact, c);
    if Readable(long) {
      var es := Entries(long.lines);
      assert es != [];
      hide Readable, Entries, Given, AllDeclare, OnePath, IsDeclaration;
      match c {
        case Match(sha) => MatchDeclares(es, sha);
        case Absent => assert IsDeclaration(es, Missing); MissingDeclares(es);
        case Partial => assert IsDeclaration(es, Incomplete); PartialDeclares(es);
        case Mismatch => MismatchDeclares(es, artifact);
      }
    }
  }

  lemma MatchDeclares(es: seq<Entry>, sha: string)
    requires AllDeclare(es, sha)
    ensures !(exists i :: 0 <= i < |es| && !Given(es[i].sha)) && exists i :: 0 <= i < |es| && Given(es[i].sha)
  {
    assert Given(es[0].sha);
  }

  lemma MissingDeclares(es: seq<Entry>)
    requires es != [] && IsDeclaration(es, Missing)
    ensures !(exists i :: 0 <= i < |es| && Given(es[i].sha)) && exists i :: 0 <= i < |es| && !Given(es[i].sha)
  {
    assert !Given(es[0].sha);
  }

  lemma PartialDeclares(es: seq<Entry>)
    requires IsDeclaration(es, Incomplete)
    ensures (exists i :: 0 <= i < |es| && Given(es[i].sha)) && exists i :: 0 <= i < |es| && !Given(es[i].sha)
  {}

  lemma MismatchDeclares(es: seq<Entry>, artifact: Artifact)
    requires es != []
    requires IsDeclaration(es, Conflicting) || exists p, s :: IsDeclaration(es, Declared(p, s)) && artifact != Bytes(s)
    ensures (forall i :: 0 <= i < |es| ==> Given(es[i].sha)) && exists i :: 0 <= i < |es| && Given(es[i].sha)
  {
    if !IsDeclaration(es, Conflicting) {
      var p, s :| IsDeclaration(es, Declared(p, s)) && artifact != Bytes(s);
      DeclaredIsGiven(es, Declared(p, s));
    }
    assert Given(es[0].sha);
  }

  lemma LinesFailKinds(lines: seq<Line>, expected: Option<string>)
    ensures forall x :: LinesFail(x, lines, expected)
              ==> x.LineInvalid? || x.PhaseStatus? || x.RunIdMismatchLong? || x.PhaseMissing?
  {}

  /** The audit receipt, against the artifact and line by line. */
  method CheckAudit(artifact: Artifact, long: LongFile, expected: Option<string>)
    returns (fails: set<Fail>, gaps: set<(string, string)>, consistent: bool, longRunId: Option<string>)
    ensures forall x :: x in fails <==> AuditFail(x, artifact, long, expected)
    ensures forall g :: g in gaps <==> long.Lines? && LinesGap(g, long.lines)
    ensures consistent <==> artifact.Bytes? && Readable(long) && AllDeclare(Entries(long.lines), artifact.sha)
                            && OnePath(Entries(long.lines))
    ensures artifact.Bytes? ==>
              (fails == {} && gaps == {}
               <==> Readable(long) && AllDeclare(Entries(long.lines), artifact.sha) && OnePath(Entries(long.lines))
                    && LinesOk(long.lines, expected) && forall i :: 0 <= i < |ROSTER| ==> Seen(long.lines, ROSTER[i]))
    ensures fails == {} ==> consistent
    ensures longRunId == if long.Lines? then LastRunId(long.lines) else None
  {
    hide LinesOk, Seen, AllDeclare, OnePath, IsConsistency, AllJson, Entries, LastRunId, LineFail, LineGap, Given, DeclaresOther;
    fails, gaps, consistent, longRunId := {}, {}, false, None;
    if long.NoLong? {
      fails := fails + {LongMissing};
    } else {
      var c := VerifyReceiptArtifact(long, artifact);
      MatchMeans(long, artifact, c);
      ConsistencyFails(long, artifact, c, expected);
      consistent := c.Match?;
      match c {
        case Match(declared) => if artifact.Bytes? && declared != artifact.sha { fails := fails + {ShaMismatchLong}; }
        case Mismatch => fails := fails + {ShaMismatchLong};
        case Absent => fails := fails + {LongArtifactAbsent};
        case Partial => fails := fails + {LongArtifactIncomplete};
      }
      if long.UnreadableLong? {
        fails := fails + {LongReadFailed};
      } else {
        var f, g, rid := CheckLines(long.lines, expected);
        LinesFailKinds(long.lines, expected);
        fails, gaps, longRunId := fails + f, gaps + g, rid;
      }
    }
  }

  method EvaluateCertification(artifact: Artifact, build: BuildFile, long: LongFile, expected: Option<string>)
    returns (r: Receipt)
    ensures r.certified <==> Certifiable(artifact, build, long, expected)
    ensures r.certified <==> r.fails == {} && r.gaps == {}
    ensures forall x :: x in r.fails <==>
              DiskFail(x, artifact, build, expected) || AuditFail(x, artifact, long, expected)
              || (x.RunIdMismatchCross? && build.ParsedBuild? && long.Lines?
                  && !RunIdsAgree(build.build.runId, LastRunId(long.lines)))
    ensures forall g :: g in r.gaps <==>
              (build.ParsedBuild? && g.0 == "build" && g.1 in build.build.gaps) || (long.Lines? && LinesGap(g, long.lines))
    ensures r.consistent <==> artifact.Bytes? && Readable(long) && AllDeclare(Entries(long.lines), artifact.sha)
                              && OnePath(Entries(long.lines))
    ensures r.certified ==> r.consistent && r.artifactSha == artifact.sha
    ensures !build.ParsedBuild? ==>
              r.artifactSha == match artifact case Bytes(sha) => sha case Unhashable => "unknown" case NoArtifact => "absent"
    ensures build.ParsedBuild? ==>
              r.artifactSha == build.build.sha && r.buildRunId == build.build.runId
              && r.flatpakPath == build.build.flatpakPath && r.flatpakSha == build.build.flatpakSha
    ensures long.Lines? ==> r.longRunId == LastRunId(long.lines)
    ensures !build.ParsedBuild? ==> r.buildRunId.None?
  {
    hide BuildOk, LinesOk, Seen, AllDeclare, OnePath, AllJson, Entries, LastRunId, DiskFail, AuditFail, LinesGap;
    var fails, gaps := CheckDisk(artifact, build, expected);
    var f, g, consistent, longRunId := CheckAudit(artifact, long, expected);
    fails, gaps := fails + f, gaps + g;
    if build.ParsedBuild? && longRunId.Some? && build.build.runId.Some? && build.build.runId.value != ""
       && longRunId.value != "" && build.build.runId != longRunId {
      fails := fails + {RunIdMismatchCross};
    }
    var certified := fails == {} && gaps == {};
    if build.ParsedBuild? {
      var b := build.build;
      r := Receipt(certified, fails, gaps, b.sha, consistent, b.runId, longRunId, b.flatpakPath, b.flatpakSha);
    } else {
      var sha := if artifact.Bytes? then artifact.sha else if artifact.Unhashable? then "unknown" else "absent";
      r := Receipt(certified, fails, gaps, sha, consistent, None, longRunId, None, None);
    }
  }

  // ---------- verification before installation ----------

  datatype Problem =
    | ArtifactUnhashable | NotCertified | HasFailsOrGaps | NotConsistent | ShaDiffers | AuditProvenance | AuditDeclaresOther
    | RunIdsDoNotReconcile | FlatpakMismatch | FlatpakUnhashable

  /** The run ids are present, not empty, and equal. */
  predicate RunIdsReconcile(r: Receipt) { Given(r.buildRunId) && r.buildRunId == r.longRunId }

  predicate FlatpakOk(r: Receipt, flatpak: Artifact) {
    r.flatpakPath.Some? && r.flatpakSha.Some? ==> flatpak == Bytes(r.flatpakSha.value)
  }

  /** What verification objects to.  An audit that matches the disk declares its hash, so
      `AuditDeclaresOther` never comes up. */
  predicate Objects(p: Problem, r: Receipt, artifact: Artifact, long: LongFile, flatpak: Artifact) {
    if !artifact.Bytes? then p.ArtifactUnhashable?
    else
      match p
      case ArtifactUnhashable => false
      case NotCertified => !r.certified
      case HasFailsOrGaps => r.fails != {} || r.gaps != {}
      case NotConsistent => !r.consistent
      case ShaDiffers => artifact.sha != r.artifactSha
      case AuditProvenance =>
        !(Readable(long) && AllDeclare(Entries(long.lines), artifact.sha) && OnePath(Entries(long.lines)))
      case AuditDeclaresOther => false
      case RunIdsDoNotReconcile => !RunIdsReconcile(r)
      case FlatpakMismatch =>
        r.flatpakPath.Some? && r.flatpakSha.Some? && flatpak.Bytes? && flatpak.sha != r.flatpakSha.value
      case FlatpakUnhashable => r.flatpakPath.Some? && r.flatpakSha.Some? && !flatpak.Bytes?
  }

  /** One objection noted if it is justified. */
  function Noted(problems: seq<Problem>, p: Problem, justified: bool): (r: seq<Problem>)
    ensures forall q :: q in r <==> q in problems || (q == p && justified)
    ensures r == [] <==> problems == [] && !justified
  {
    if justified then problems + [p] else problems
  }

  /** `flatpak` is what hashing the declared bundle gives. */
  method VerifyReleaseReceipt(r: Receipt, artifact: Artifact, long: LongFile, flatpak: Artifact)
    returns (sha: Option<string>, problems: seq<Problem>)
    ensures sha.Some? <==>
              artifact.Bytes? && r.certified && r.fails == {} && r.gaps == {} && r.consistent
              && artifact.sha == r.artifactSha
              && Readable(long) && AllDeclare(Entries(long.lines), artifact.sha) && OnePath(Entries(long.lines))
              && RunIdsReconcile(r) && FlatpakOk(r, flatpak)
    ensures sha.Some? ==> artifact == Bytes(sha.value)
    ensures problems == [] <==> sha.Some?
    ensures forall p :: p in problems <==> Objects(p, r, artifact, long, flatpak)
  {
    hide AllDeclare, OnePath, IsConsistency, Readable, Entries, RunIdsReconcile, FlatpakOk;
    if !artifact.Bytes? { return None, [ArtifactUnhashable]; }
    var own := ReceiptProblems(r, artifact.sha);
    var audit := AuditProblems(artifact, long);
    var bundle := BundleProblems(r, flatpak);
    problems := own + audit + bundle;
    sha := if problems == [] then Some(artifact.sha) else None;
  }

  /** What the receipt says of itself and of the bytes. */
  method ReceiptProblems(r: Receipt, sha: string) returns (problems: seq<Problem>)
    ensures problems == [] <==> r.certified && r.fails == {} && r.gaps == {} && r.consistent && sha == r.artifactSha
    ensures forall p :: p in problems <==>
              (p == NotCertified && !r.certified) || (p == HasFailsOrGaps && (r.fails != {} || r.gaps != {}))
              || (p == NotConsistent && !r.consistent) || (p == ShaDiffers && sha != r.artifactSha)
  {
    hide Noted;
    problems := Noted([], NotCertified, !r.certified);
    problems := Noted(problems, HasFailsOrGaps, r.fails != {} || r.gaps != {});
    problems := Noted(problems, NotConsistent, !r.consistent);
    problems := Noted(problems, ShaDiffers, sha != r.artifactSha);
  }

  /** The audit, read again. */
  method AuditProblems(artifact: Artifact, long: LongFile) returns (problems: seq<Problem>)
    requires artifact.Bytes?
    ensures var ok := Readable(long) && AllDeclare(Entries(long.lines), artifact.sha) && OnePath(Entries(long.lines));
            problems == if ok then [] else [AuditProvenance]
  {
    hide AllDeclare, OnePath, IsConsistency, Readable, Entries;
    var c := VerifyReceiptArtifact(long, artifact);
    MatchMeans(long, artifact, c);
    problems := [];
    if !c.Match? {
      problems := [AuditProvenance];
    } else if c.declared != artifact.sha {
      problems := [AuditDeclaresOther];
    }
  }

  /** The run ids of the receipt and the bundle it declares. */
  method BundleProblems(r: Receipt, flatpak: Artifact) returns (problems: seq<Problem>)
    ensures problems == [] <==> RunIdsReconcile(r) && FlatpakOk(r, flatpak)
    ensures forall p :: p in problems <==>
              (p == RunIdsDoNotReconcile && !RunIdsReconcile(r))
              || (r.flatpakPath.Some? && r.flatpakSha.Some?
                  && ((p == FlatpakUnhashable && !flatpak.Bytes?)
                      || (p == FlatpakMismatch && flatpak.Bytes? && flatpak.sha != r.flatpakSha.value)))
  {
    hide Noted;
    problems := Noted([], RunIdsDoNotReconcile,
                      !(r.buildRunId.Some? && r.longRunId.Some? && r.buildRunId.value != "" && r.buildRunId.value == r.longRunId.value));
    if r.flatpakPath.Some? && r.flatpakSha.Some? {
      problems := Noted(problems, FlatpakUnhashable, !flatpak.Bytes?);
      problems := Noted(problems, FlatpakMismatch, flatpak.Bytes? && flatpak.sha != r.flatpakSha.value);
    }
  }

  /** Certify, then verify with the same files: the second step succeeds exactly when the first
      certified, both receipts carry the same non-empty run id, and a declared bundle hashes to
      its recorded value. */
  method CertifyThenVerify(artifact: Artifact, build: BuildFile, long: LongFile, expected: Option<string>,
                           flatpak: Artifact) returns (r: Receipt, sha: Option<string>)
    ensures r.certified <==> Certifiable(artifact, build, long, expected)
    ensures sha.Some? <==>
              Certifiable(artifact, build, long, expected)
              && Given(build.build.runId) && build.build.runId == LastRunId(long.lines) && FlatpakOk(r, flatpak)
    ensures build.ParsedBuild? ==> r.flatpakPath == build.build.flatpakPath && r.flatpakSha == build.build.flatpakSha
  {
    r := EvaluateCertification(artifact, build, long, expected);
    var problems;
    sha, problems := VerifyReleaseReceipt(r, artifact, long, flatpak);
  }

  /** Whatever happened to the files in between, the bytes that pass verification are the bytes
      that were certified. */
  method CertifiedBytesOnly(artifact: Artifact, build: BuildFile, long: LongFile, expected: Option<string>,
                            later: Artifact, laterLong: LongFile, flatpak: Artifact) returns (sha: Option<string>)
    ensures sha.Some? ==> Certifiable(artifact, build, long, expected) && later == artifact == Bytes(sha.value)
    ensures sha.Some? ==> laterLong.Lines? && AllDeclare(Entries(laterLong.lines), sha.value)
  {
    var r := EvaluateCertification(artifact, build, long, expected);
    var problems;
    sha, problems := VerifyReleaseReceipt(r, later, laterLong, flatpak);
  }

  /** The gate lets a release through that verification then refuses: receipts without run ids
      are certified. */
  lemma CertifiedWithoutRunIds(sha: string)
    requires sha != ""
    ensures var long := Lines(seq(7, i requires 0 <= i < 7 => Phase(Entry(ROSTER[i], PASSED, [], Some(sha), None, None))));
            var build := ParsedBuild(Build(sha, true, PASSED, [], None, None, None));
            Certifiable(Bytes(sha), build, long, None) && LastRunId(long.lines).None?
  {
    var lines := seq(7, i requires 0 <= i < 7 => Phase(Entry(ROSTER[i], PASSED, [], Some(sha), None, None)));
    NoRunIds(lines);
    EntriesOfPhases(lines);
    forall i | 0 <= i < |ROSTER| ensures Seen(lines, ROSTER[i]) { assert lines[i].entry.phase == ROSTER[i]; }
  }

  lemma {:induction false} NoRunIds(lines: seq<Line>)
    requires forall i :: 0 <= i < |lines| ==> lines[i].Phase? && lines[i].entry.runId.None?
    ensures LastRunId(lines).None?
  {
    if lines != [] { NoRunIds(lines[..|lines| - 1]); }
  }

  lemma {:induction false} EntriesOfPhases(lines: seq<Line>)
    requires forall i :: 0 <= i < |lines| ==> lines[i].Phase?
    ensures |Entries(lines)| == |lines| && forall i :: 0 <= i < |lines| ==> Entries(lines)[i] == lines[i].entry
  {
    if lines != [] { EntriesOfPhases(lines[..|lines| - 1]); }
  }
}
