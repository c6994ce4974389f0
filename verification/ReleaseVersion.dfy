/** The release script (scripts/release_version.py): reading a version from the lines of a file,
    committing another one to them, and the versions a run of releases goes through. */
module ReleaseVersion {
  import opened VersionText

  datatype Version = Version(major: nat, minor: nat, patch: nat)
  {
    /** The name of the git tag. */
    function Tag(): string { Decimal(major) + ("." + (Decimal(minor) + ("." + Decimal(patch)))) }
  }

  datatype Library = Shmdata | Switcher

  /** The two regular expressions, each by the text it starts with: one finds a type and a number, the
      other a dotted pair. */
  datatype Pattern = Typed(lead: string) | Dotted(lead: string)
  {
    predicate Valid() { GoodLead(lead) }
  }

  function VersionPattern(lib: Library): Pattern {
    Typed(if lib.Shmdata? then "set(SHMDATA_VERSION_" else "set(SWITCHER_VERSION_")
  }

  const REQUIRE_PATTERN := Dotted("set(SHMDATA_REQUIRED_VERSION ")

  lemma {:induction false} VersionPatternIsValid(lib: Library)
    ensures VersionPattern(lib).Valid()
  {
  }

  lemma {:induction false} RequirePatternIsValid()
    ensures REQUIRE_PATTERN.Valid()
  {
    var name, rest := "set(SHMDATA", "_VERSION ";
    assert NoDigits(name) && NoDigits("_REQUIRED") && NoDigits(rest);
    NoDigitsInSum("_REQUIRED", rest);
    NoDigitsInSum(name, "_REQUIRED" + rest);
    assert REQUIRE_PATTERN.lead == name + ("_REQUIRED" + rest);
  }

  lemma {:induction false} NoDigitsInSum(a: string, b: string)
    requires NoDigits(a) && NoDigits(b)
    ensures NoDigits(a + b)
  {
  }

  /** What one line tells the parser. */
  datatype Finding = Nothing | Major(n: nat) | Minor(n: nat) | Patch(n: nat) | Both(a: nat, b: nat)

  function Find(line: string, p: Pattern): Finding {
    match p
    case Typed(lead) => (
      match SearchPair(lead, line)
      case None => Nothing
      case Some((word, number)) =>
        PairHasDigits(lead, line);
        if word == "MAJOR" then Major(ParseInt(number))
        else if word == "MINOR" then Minor(ParseInt(number))
        else if word == "PATCH" then Patch(ParseInt(number))
        else Nothing)
    case Dotted(lead) =>
      match SearchDotted(lead, line)
      case None => Nothing
      case Some((a, b)) => DottedHasDigits(lead, line); Both(ParseInt(a), ParseInt(b))
  }

  lemma {:induction false} PairHasDigits(lead: string, line: string)
    ensures var m := SearchPair(lead, line); m.Some? ==> AllDigits(m.value.1)
    decreases |line|
  {
    if MatchPairHere(lead, line).Some? {
      CutDigits(AfterSpaces(AfterWord(line[|lead|..])));
    } else if line != "" {
      PairHasDigits(lead, line[1..]);
    }
  }

  lemma {:induction false} DottedHasDigits(lead: string, line: string)
    ensures var m := SearchDotted(lead, line); m.Some? ==> AllDigits(m.value.0) && AllDigits(m.value.1)
    decreases |line|
  {
    if MatchDottedHere(lead, line).Some? {
      CutDigits(line[|lead|..]);
      CutDigits(AfterDigits(line[|lead|..])[1..]);
    } else if line != "" {
      DottedHasDigits(lead, line[1..]);
    }
  }

  /** major, minor and patch when the loop over the lines ends; -1 is what was not found. */
  function Scan(lines: seq<string>, p: Pattern, major: int, minor: int): (int, int, int) {
    if lines == [] then (major, minor, -1)
    else match Find(lines[0], p)
      case Nothing => Scan(lines[1..], p, major, minor)
      case Major(n) => Scan(lines[1..], p, n, minor)
      case Minor(n) => Scan(lines[1..], p, major, n)
      case Patch(n) => (major, minor, n)
      case Both(a, b) => (a, b, 0)
  }

  /** None is where the script gives up. */
  function Parse(lines: seq<string>, p: Pattern): Option<Version> {
    var (a, b, c) := Scan(lines, p, -1, -1);
    if a >= 0 && b >= 0 && c >= 0 then Some(Version(a, b, c)) else None
  }

  function CommitLine(line: string, p: Pattern, v: Version): string {
    match Find(line, p)
    case Nothing => line
    case Major(_) => SubDigits(line, Decimal(v.major))
    case Minor(_) => SubDigits(line, Decimal(v.minor))
    case Patch(_) => SubDigits(line, Decimal(v.patch))
    case Both(_, _) => SubDotted(line, Decimal(v.major), Decimal(v.minor))
  }

  function Commit(lines: seq<string>, p: Pattern, v: Version): (r: seq<string>)
    ensures |r| == |lines|
  {
    seq(|lines|, i requires 0 <= i < |lines| => CommitLine(lines[i], p, v))
  }

  /** A line says after a commit what it said before, with the numbers of v. */
  function Renumbered(f: Finding, v: Version): Finding {
    match f
    case Nothing => Nothing
    case Major(_) => Major(v.major)
    case Minor(_) => Minor(v.minor)
    case Patch(_) => Patch(v.patch)
    case Both(_, _) => Both(v.major, v.minor)
  }

  lemma {:induction false} FindAfterCommitLine(line: string, p: Pattern, v: Version)
    requires p.Valid()
    ensures Find(CommitLine(line, p, v), p) == Renumbered(Find(line, p), v)
  {
    ParseIntOfDecimal(v.major);
    ParseIntOfDecimal(v.minor);
    ParseIntOfDecimal(v.patch);
    match p
    case Typed(lead) =>
      var m := SearchPair(lead, line);
      if m.Some? && m.value.0 in {"MAJOR", "MINOR", "PATCH"} {
        var d := Decimal(if m.value.0 == "MAJOR" then v.major else if m.value.0 == "MINOR" then v.minor else v.patch);
        SearchPairOfSub(lead, line, d);
        SubDigitsIs(m.value.0, d, m.value.0);
      }
    case Dotted(lead) =>
      SearchDottedOfSub(lead, line, Decimal(v.major), Decimal(v.minor));
  }

  /** Lines without a version stay as they are, whatever is committed, and only they stay findless. */
  lemma {:induction false} UnmatchedLinesUnchanged(lines: seq<string>, p: Pattern, v: Version, i: nat)
    requires p.Valid() && i < |lines|
    ensures Find(lines[i], p).Nothing? ==> Commit(lines, p, v)[i] == lines[i]
    ensures Find(Commit(lines, p, v)[i], p) == Renumbered(Find(lines[i], p), v)
  {
    FindAfterCommitLine(lines[i], p, v);
  }

  /** The version a pattern can hold: a required version has no patch number of its own. */
  function Held(p: Pattern, v: Version): Version {
    if p.Typed? then v else v.(patch := 0)
  }

  lemma {:induction false} ScanAfterCommit(lines: seq<string>, p: Pattern, v: Version, major: int, minor: int)
    requires p.Valid()
    ensures var r := Scan(lines, p, major, minor);
      Scan(Commit(lines, p, v), p, if major == -1 then -1 else v.major, if minor == -1 then -1 else v.minor)
        == (if r.0 == -1 then -1 else v.major,
            if r.1 == -1 then -1 else v.minor,
            if r.2 == -1 then -1 else Held(p, v).patch)
  {
    if lines != [] {
      FindAfterCommitLine(lines[0], p, v);
      assert Commit(lines, p, v)[1..] == Commit(lines[1..], p, v);
      match Find(lines[0], p)
      case Nothing => ScanAfterCommit(lines[1..], p, v, major, minor);
      case Major(n) => ScanAfterCommit(lines[1..], p, v, n, minor);
      case Minor(n) => ScanAfterCommit(lines[1..], p, v, major, n);
      case _ =>
    }
  }

  lemma {:induction false} ScanRange(lines: seq<string>, p: Pattern, major: int, minor: int)
    requires major >= -1 && minor >= -1
    ensures var r := Scan(lines, p, major, minor); r.0 >= -1 && r.1 >= -1 && r.2 >= -1
  {
    if lines != [] {
      match Find(lines[0], p)
      case Nothing => ScanRange(lines[1..], p, major, minor);
      case Major(n) => ScanRange(lines[1..], p, n, minor);
      case Minor(n) => ScanRange(lines[1..], p, major, n);
      case _ =>
    }
  }

  /** Reading after committing gives back what was committed, exactly for the files that could be read
      before. */
  lemma {:induction false} ParseAfterCommit(lines: seq<string>, p: Pattern, v: Version)
    requires p.Valid()
    ensures Parse(Commit(lines, p, v), p) == if Parse(lines, p).Some? then Some(Held(p, v)) else None
  {
    ScanAfterCommit(lines, p, v, -1, -1);
    ScanRange(lines, p, -1, -1);
  }

  lemma {:induction false} CommitLineTwice(line: string, p: Pattern, v: Version, w: Version)
    requires p.Valid()
    ensures CommitLine(CommitLine(line, p, v), p, w) == CommitLine(line, p, w)
  {
    FindAfterCommitLine(line, p, v);
    match Find(line, p)
    case Nothing =>
    case Major(_) => SubDigitsTwice(line, Decimal(v.major), Decimal(w.major));
    case Minor(_) => SubDigitsTwice(line, Decimal(v.minor), Decimal(w.minor));
    case Patch(_) => SubDigitsTwice(line, Decimal(v.patch), Decimal(w.patch));
    case Both(_, _) =>
      SubDottedTwice(line, Decimal(v.major), Decimal(v.minor), Decimal(w.major), Decimal(w.minor));
  }

  /** Committing w over v leaves the file as committing w alone does. */
  lemma {:induction false} LastCommitWins(lines: seq<string>, p: Pattern, v: Version, w: Version)
    requires p.Valid()
    ensures Commit(Commit(lines, p, v), p, w) == Commit(lines, p, w)
  {
    forall i | 0 <= i < |lines| ensures Commit(Commit(lines, p, v), p, w)[i] == Commit(lines, p, w)[i] {
      CommitLineTwice(lines[i], p, v, w);
    }
  }

  // ---- Files as they are written

  /** Blanks, tabs and the like. */
  predicate IsGap(gap: string) {
    gap != "" && forall i :: 0 <= i < |gap| ==> gap[i] in {' ', '\t', '\n', '\r', '\U{0B}', '\U{0C}'}
  }

  /** A line of CMakeLists.txt that sets one number of the version, with anything after it. */
  function Line(lib: Library, word: string, gap: string, n: nat, rest: string): string {
    VersionPattern(lib).lead + (word + (gap + (Decimal(n) + (")" + rest))))
  }

  lemma {:induction false} FindsWritten(lib: Library, word: string, gap: string, n: nat, rest: string)
    requires NoSpaces(word) && IsGap(gap)
    ensures Find(Line(lib, word, gap, n, rest), VersionPattern(lib)) ==
      match word
      case "MAJOR" => Major(n)
      case "MINOR" => Minor(n)
      case "PATCH" => Patch(n)
      case _ => Nothing
  {
    var lead := VersionPattern(lib).lead;
    ReadTextMatches(lead, Line(lib, word, gap, n, rest), word, gap, Decimal(n), rest);
    ParseIntOfDecimal(n);
  }

  /** A line without digits but its number gets the new number and nothing else. */
  lemma {:induction false} CommitsWritten(lib: Library, word: string, gap: string, n: nat, rest: string, v: Version)
    requires IsGap(gap) && NoDigits(rest) && word in {"MAJOR", "MINOR", "PATCH"}
    ensures var number := if word == "MAJOR" then v.major else if word == "MINOR" then v.minor else v.patch;
      CommitLine(Line(lib, word, gap, n, rest), VersionPattern(lib), v) == Line(lib, word, gap, number, rest)
  {
    hide Find, SubDigits, Decimal;
    FindsWritten(lib, word, gap, n, rest);
    var number := if word == "MAJOR" then v.major else if word == "MINOR" then v.minor else v.patch;
    SubOfLine(lib, word, gap, n, rest, Decimal(number));
  }

  lemma {:induction false} SubOfLine(lib: Library, word: string, gap: string, n: nat, rest: string, d: string)
    requires IsGap(gap) && NoDigits(rest) && word in {"MAJOR", "MINOR", "PATCH"} && AllDigits(d)
    ensures SubDigits(Line(lib, word, gap, n, rest), d) ==
      VersionPattern(lib).lead + (word + (gap + (d + (")" + rest))))
  {
    hide SubDigits, Decimal, IsGap;
    var lead, end := VersionPattern(lib).lead, ")" + rest;
    VersionPatternIsValid(lib);
    GapHasNoDigits(gap);
    Regroup(lead, word, gap, Decimal(n) + end);
    Regroup(lead, word, gap, d + end);
    SubOfParts(lead + (word + gap), Decimal(n), end, d);
  }

  lemma {:induction false} GapHasNoDigits(gap: string)
    requires IsGap(gap)
    ensures NoDigits(gap)
  {
  }

  lemma {:induction false} Regroup(a: string, b: string, c: string, x: string)
    ensures a + (b + (c + x)) == (a + (b + c)) + x
  {
    assert b + (c + x) == (b + c) + x;
  }

  lemma {:induction false} SubOfParts(front: string, run: string, end: string, d: string)
    requires NoDigits(front) && AllDigits(run) && NoDigits(end) && AllDigits(d)
    ensures SubDigits(front + (run + end), d) == front + (d + end)
  {
    hide SubDigits;
    SubOfSum(front, run + end, d);
    SubOfText(front, d);
    SubDigitsOfRun(run, end, d);
    SubOfText(end, d);
  }

  lemma {:induction false} ScanSkips(before: seq<string>, lines: seq<string>, p: Pattern, major: int, minor: int)
    requires forall i :: 0 <= i < |before| ==> Find(before[i], p).Nothing?
    ensures Scan(before + lines, p, major, minor) == Scan(lines, p, major, minor)
  {
    hide Find;
    if before == [] {
      assert before + lines == lines;
    } else {
      assert (before + lines)[0] == before[0] && (before + lines)[1..] == before[1..] + lines;
      ScanSkips(before[1..], lines, p, major, minor);
    }
  }

  lemma {:induction false} ScanFinds(before: seq<string>, line: string, lines: seq<string>, p: Pattern, major: int,
      minor: int)
    requires forall i :: 0 <= i < |before| ==> Find(before[i], p).Nothing?
    ensures Scan(before + ([line] + lines), p, major, minor) == Scan([line] + lines, p, major, minor)
    ensures Find(line, p).Major? ==> Scan([line] + lines, p, major, minor) == Scan(lines, p, Find(line, p).n, minor)
    ensures Find(line, p).Minor? ==> Scan([line] + lines, p, major, minor) == Scan(lines, p, major, Find(line, p).n)
    ensures Find(line, p).Patch? ==> Scan([line] + lines, p, major, minor) == (major, minor, Find(line, p).n)
  {
    hide Find;
    ScanSkips(before, [line] + lines, p, major, minor);
    assert ([line] + lines)[1..] == lines;
  }

  /** A file that sets the three numbers in their order, among other lines, is read as that version. */
  lemma {:induction false} ReadsWrittenFile(lib: Library, v: Version, a: seq<string>, b: seq<string>, c: seq<string>,
      d: seq<string>, x: string, y: string, z: string)
    requires forall l :: l in a + b + c ==> Find(l, VersionPattern(lib)).Nothing?
    ensures var rest := c + ([Line(lib, "PATCH", " ", v.patch, z)] + d);
      var file := a + ([Line(lib, "MAJOR", " ", v.major, x)] + (b + ([Line(lib, "MINOR", " ", v.minor, y)] + rest)));
      Parse(file, VersionPattern(lib)) == Some(v)
  {
    hide Find, Line, Scan;
    var p := VersionPattern(lib);
    var major, minor, patch := Line(lib, "MAJOR", " ", v.major, x), Line(lib, "MINOR", " ", v.minor, y),
        Line(lib, "PATCH", " ", v.patch, z);
    FindsWritten(lib, "MAJOR", " ", v.major, x);
    FindsWritten(lib, "MINOR", " ", v.minor, y);
    FindsWritten(lib, "PATCH", " ", v.patch, z);
    NothingIn(a, a + b + c, p);
    NothingIn(b, a + b + c, p);
    NothingIn(c, a + b + c, p);
    ScanFinds(a, major, b + ([minor] + (c + ([patch] + d))), p, -1, -1);
    ScanFinds(b, minor, c + ([patch] + d), p, v.major, -1);
    ScanFinds(c, patch, d, p, v.major, v.minor);
  }

  lemma {:induction false} NothingIn(some: seq<string>, all: seq<string>, p: Pattern)
    requires (forall l :: l in all ==> Find(l, p).Nothing?) && forall l :: l in some ==> l in all
    ensures forall i :: 0 <= i < |some| ==> Find(some[i], p).Nothing?
  {
    hide Find;
    forall i | 0 <= i < |some| ensures Find(some[i], p).Nothing? {
      assert some[i] in some;
    }
  }

  /** A required version is read as it is written. */
  lemma {:induction false} FindsRequired(a: nat, b: nat, rest: string)
    ensures var line := REQUIRE_PATTERN.lead + (Decimal(a) + ("." + (Decimal(b) + (")" + rest))));
      Find(line, REQUIRE_PATTERN) == Both(a, b)
  {
    var line := REQUIRE_PATTERN.lead + (Decimal(a) + ("." + (Decimal(b) + (")" + rest))));
    assert ReadsDotted(REQUIRE_PATTERN.lead, line, Decimal(a), Decimal(b), rest);
    DottedHereIff(REQUIRE_PATTERN.lead, line, Decimal(a), Decimal(b));
    ParseIntOfDecimal(a);
    ParseIntOfDecimal(b);
  }

  // ---- The script's own loops

  method ParseVersionNumber(lines: seq<string>, p: Pattern) returns (r: Option<Version>)
    ensures r == Parse(lines, p)
  {
    var major, minor, patch := -1, -1, -1;
    var i := 0;
    while i < |lines|
      invariant i <= |lines| && major >= -1 && minor >= -1 && patch == -1
      invariant Scan(lines, p, -1, -1) == Scan(lines[i..], p, major, minor)
    {
      var found := Find(lines[i], p);
      match found {
        case Nothing =>
        case Major(n) => major := n;
        case Minor(n) => minor := n;
        case Patch(n) =>
          patch := n;
          break;
        case Both(a, b) =>
          major, minor, patch := a, b, 0;
          break;
      }
      i := i + 1;
    }
    if major != -1 && minor != -1 && patch != -1 {
      r := Some(Version(major, minor, patch));
    } else {
      r := None;
    }
  }

  method CommitVersionNumber(lines: seq<string>, p: Pattern, v: Version) returns (changed: seq<string>)
    ensures changed == Commit(lines, p, v)
  {
    changed := [];
    for i := 0 to |lines|
      invariant changed == Commit(lines, p, v)[..i]
    {
      var line := lines[i];
      match Find(line, p) {
        case Nothing =>
        case Major(_) => line := SubDigits(line, Decimal(v.major));
        case Minor(_) => line := SubDigits(line, Decimal(v.minor));
        case Patch(_) => line := SubDigits(line, Decimal(v.patch));
        case Both(_, _) => line := SubDotted(line, Decimal(v.major), Decimal(v.minor));
      }
      changed := changed + [line];
    }
  }

  // ---- Runs of releases

  datatype Increase = IncreaseNone | IncreaseMajor | IncreaseMinor | IncreasePatch

  function Increased(v: Version, kind: Increase): Version {
    match kind
    case IncreaseMajor => Version(v.major + 1, 0, 0)
    case IncreaseMinor => Version(v.major, v.minor + 1, 0)
    case IncreasePatch => v.(patch := v.patch + 1)
    case IncreaseNone => v.(patch := v.patch + 1)   // version[-1] is the last number
  }

  /** `increase_version_number`, on the list of three numbers it changes in place. */
  method IncreaseVersionNumber(version: array<nat>, kind: Increase)
    requires version.Length == 3
    modifies version
    ensures var r := Increased(old(Version(version[0], version[1], version[2])), kind);
      version[..] == [r.major, r.minor, r.patch]
    ensures kind.IncreaseNone? ==> version[..] == old(version[..])[2 := old(version[2]) + 1]
  {
    if kind.IncreaseMajor? {
      version[1] := 0;
      version[2] := 0;
    } else if kind.IncreaseMinor? {
      version[2] := 0;
    }
    var k := match kind case IncreaseMajor => 0 case IncreaseMinor => 1 case _ => 2;
    version[k] := version[k] + 1;
  }

  predicate Below(v: Version, w: Version) {
    v.major < w.major || (v.major == w.major && (v.minor < w.minor || (v.minor == w.minor && v.patch < w.patch)))
  }

  datatype Kind = MajorRelease | MinorRelease | BugfixRelease

  function IncreaseOf(kind: Kind): Increase {
    match kind
    case MajorRelease => IncreaseMajor
    case MinorRelease => IncreaseMinor
    case BugfixRelease => IncreasePatch
  }

  /** The next version of the develop branch. */
  function Reopened(release: Version, kind: Kind): Version {
    release.(patch := if kind.BugfixRelease? then release.patch + 1 else 1)
  }

  datatype Branches = Branches(develop: Version, master: Version, tags: seq<Version>)

  function Release(b: Branches, kind: Kind): Branches {
    var release := Increased(b.develop, IncreaseOf(kind));
    Branches(Reopened(release, kind), release, b.tags + [release, Reopened(release, kind)])
  }

  function Releases(b: Branches, kinds: seq<Kind>): Branches
    decreases kinds
  {
    if kinds == [] then b else Releases(Release(b, kinds[0]), kinds[1..])
  }

  /** Develop odd and above master and above every tag made, tags in increasing order. */
  ghost predicate Ordered(b: Branches) {
    && b.develop.patch % 2 == 1
    && Below(b.master, b.develop)
    && (forall i, j :: 0 <= i < j < |b.tags| ==> Below(b.tags[i], b.tags[j]))
    && (forall i :: 0 <= i < |b.tags| ==> b.tags[i] == b.develop || Below(b.tags[i], b.develop))
  }

  lemma {:induction false} ReleaseKeepsOrder(b: Branches, kind: Kind)
    requires Ordered(b)
    ensures var r := Release(b, kind);
      Ordered(r) && r.master.patch % 2 == 0 && Below(b.master, r.master) && Below(b.develop, r.master)
  {
  }

  /** Above a version in the part that the kind of release is about, and the same in the parts before it. */
  predicate Raises(v: Version, w: Version, kind: Kind) {
    match kind
    case MajorRelease => w.major > v.major
    case MinorRelease => w.major == v.major && w.minor > v.minor
    case BugfixRelease => w.major == v.major && w.minor == v.minor && w.patch > v.patch
  }

  /** A release makes the lowest version that raises its part, and develop goes on with the lowest version above that;
      both get a tag. */
  lemma {:induction false} ReleaseIsLowest(b: Branches, kind: Kind, w: Version)
    ensures var r := Release(b, kind);
      && Raises(b.develop, r.master, kind) && (Raises(b.develop, w, kind) ==> w == r.master || Below(r.master, w))
      && Below(r.master, r.develop) && (Below(r.master, w) ==> w == r.develop || Below(r.develop, w))
      && r.tags == b.tags + [r.master, r.develop]
  {
  }

  lemma {:induction false} TagParts(v: Version)
    ensures var dot := AfterDigits(v.Tag());
      Digits(v.Tag()) == Decimal(v.major) && "." <= dot && Digits(dot[1..]) == Decimal(v.minor)
      && AfterDigits(dot[1..]) == "." + Decimal(v.patch)
  {
    var rest := "." + Decimal(v.patch);
    FrontRun(Decimal(v.major), "." + (Decimal(v.minor) + rest));
    FrontRun(Decimal(v.minor), rest);
  }

  lemma {:induction false} TagNamesOneVersion(v: Version, w: Version)
    ensures v.Tag() == w.Tag() <==> v == w
  {
    if v.Tag() == w.Tag() {
      TagParts(v);
      TagParts(w);
      assert ("." + Decimal(v.patch))[1..] == Decimal(v.patch);
      assert ("." + Decimal(w.patch))[1..] == Decimal(w.patch);
      ParseIntOfDecimal(v.major);
      ParseIntOfDecimal(w.major);
      ParseIntOfDecimal(v.minor);
      ParseIntOfDecimal(w.minor);
      ParseIntOfDecimal(v.patch);
      ParseIntOfDecimal(w.patch);
    }
  }

  /** Over every run of releases: develop's patch number is odd and master's even, master stays below
      develop and rises strictly, and no tag is made twice. */
  lemma {:induction false} ReleasesKeepOrder(b: Branches, kinds: seq<Kind>)
    requires Ordered(b)
    ensures var r := Releases(b, kinds);
      && r.develop.patch % 2 == 1 && Below(r.master, r.develop)
      && (kinds != [] ==> r.master.patch % 2 == 0 && Below(b.master, r.master))
      && (forall i, j :: 0 <= i < j < |r.tags| ==> r.tags[i].Tag() != r.tags[j].Tag())
      && |r.tags| == |b.tags| + 2 * |kinds| && b.tags <= r.tags
    decreases kinds
  {
    if kinds != [] {
      ReleaseKeepsOrder(b, kinds[0]);
      ReleasesKeepOrder(Release(b, kinds[0]), kinds[1..]);
    } else {
      forall i, j | 0 <= i < j < |b.tags| ensures b.tags[i].Tag() != b.tags[j].Tag() {
        TagNamesOneVersion(b.tags[i], b.tags[j]);
      }
    }
  }

  // ---- One pattern under the commits of the other

  /** Committing a required version leaves what a line says of the library's own version. */
  lemma {:induction false} FindAfterRequired(line: string, lib: Library, v: Version)
    ensures Find(CommitLine(line, REQUIRE_PATTERN, v), VersionPattern(lib)) == Find(line, VersionPattern(lib))
  {
    var lead, a, b := VersionPattern(lib).lead, Decimal(v.major), Decimal(v.minor);
    VersionPatternIsValid(lib);
    SearchPairOfDotted(lead, line, a, b);
    hide SubDotted, SearchPair, SearchDotted, Decimal, ParseInt;
    var m := SearchPair(lead, line);
    if m.Some? {
      SubDottedIs(m.value.0, a, b, "MAJOR");
      SubDottedIs(m.value.0, a, b, "MINOR");
      SubDottedIs(m.value.0, a, b, "PATCH");
    }
  }

  /** Committing the library's own version leaves a requirement where there was one, and untouched
      unless the two share a line. */
  lemma {:induction false} RequiredAfterCommitLine(line: string, lib: Library, v: Version)
    ensures var after := CommitLine(line, VersionPattern(lib), v);
      && (Find(after, REQUIRE_PATTERN).Both? <==> Find(line, REQUIRE_PATTERN).Both?)
      && (Find(line, VersionPattern(lib)).Nothing? ==> after == line)
  {
    RequiredAfterDigits(line, Decimal(v.major));
    RequiredAfterDigits(line, Decimal(v.minor));
    RequiredAfterDigits(line, Decimal(v.patch));
    TypedFindsNoPair(line, lib);
    hide Find;
  }

  lemma {:induction false} TypedFindsNoPair(line: string, lib: Library)
    ensures !Find(line, VersionPattern(lib)).Both?
  {
    hide SearchPair, ParseInt;
  }

  lemma {:induction false} RequiredAfterDigits(line: string, d: string)
    requires AllDigits(d)
    ensures Find(SubDigits(line, d), REQUIRE_PATTERN).Both? <==> Find(line, REQUIRE_PATTERN).Both?
  {
    RequirePatternIsValid();
    SearchDottedOfDigits(REQUIRE_PATTERN.lead, line, d);
    hide SubDigits, SearchDotted, SearchPair, ParseInt;
  }

  /** No line holds both versions. */
  predicate OwnLines(lines: seq<string>, lib: Library) {
    forall i :: 0 <= i < |lines| ==>
      Find(lines[i], VersionPattern(lib)).Nothing? || !Find(lines[i], REQUIRE_PATTERN).Both?
  }

  lemma {:induction false} SameFindings(lines: seq<string>, after: seq<string>, p: Pattern, major: int, minor: int)
    requires |after| == |lines| && forall i :: 0 <= i < |lines| ==> Find(after[i], p) == Find(lines[i], p)
    ensures Scan(after, p, major, minor) == Scan(lines, p, major, minor)
    decreases |lines|
  {
    if lines != [] {
      assert Find(after[0], p) == Find(lines[0], p);
      forall i | 0 <= i < |lines| - 1 ensures Find(after[1..][i], p) == Find(lines[1..][i], p) {
        assert Find(after[i + 1], p) == Find(lines[i + 1], p);
      }
      match Find(lines[0], p)
      case Nothing => SameFindings(lines[1..], after[1..], p, major, minor);
      case Major(n) => SameFindings(lines[1..], after[1..], p, n, minor);
      case Minor(n) => SameFindings(lines[1..], after[1..], p, major, n);
      case _ =>
    }
  }

  /** A file still has its own version after the commit of a required one. */
  lemma {:induction false} VersionAfterRequired(lines: seq<string>, lib: Library, v: Version)
    ensures Parse(Commit(lines, REQUIRE_PATTERN, v), VersionPattern(lib)) == Parse(lines, VersionPattern(lib))
  {
    var after, p := Commit(lines, REQUIRE_PATTERN, v), VersionPattern(lib);
    forall i | 0 <= i < |lines| ensures Find(after[i], p) == Find(lines[i], p) {
      FindAfterRequired(lines[i], lib, v);
    }
    SameFindings(lines, after, p, -1, -1);
  }

  lemma {:induction false} RequiredIff(lines: seq<string>)
    ensures Parse(lines, REQUIRE_PATTERN).Some?
      <==> exists i :: 0 <= i < |lines| && Find(lines[i], REQUIRE_PATTERN).Both?
  {
    if lines != [] {
      RequiredIff(lines[1..]);
      assert forall i :: 0 <= i < |lines| - 1 ==> lines[1..][i] == lines[i + 1];
      if i :| 0 <= i < |lines| && Find(lines[i], REQUIRE_PATTERN).Both? {
        assert i == 0 || lines[1..][i - 1] == lines[i];
      }
    }
  }

  /** A file that names a required version names one after a commit of the library's own, and the same
      one when no line holds both. */
  lemma {:induction false} RequiredAfterVersion(lines: seq<string>, lib: Library, v: Version)
    ensures var after := Commit(lines, VersionPattern(lib), v);
      && (Parse(after, REQUIRE_PATTERN).Some? <==> Parse(lines, REQUIRE_PATTERN).Some?)
      && (OwnLines(lines, lib) ==> Parse(after, REQUIRE_PATTERN) == Parse(lines, REQUIRE_PATTERN))
      && (OwnLines(lines, lib) ==> OwnLines(after, lib))
  {
    var after := Commit(lines, VersionPattern(lib), v);
    VersionPatternIsValid(lib);
    forall i | 0 <= i < |lines|
      ensures var was, now := Find(lines[i], REQUIRE_PATTERN), Find(after[i], REQUIRE_PATTERN);
        && (now.Both? <==> was.Both?)
        && (Find(lines[i], VersionPattern(lib)).Nothing? ==> now == was)
        && (Find(after[i], VersionPattern(lib)).Nothing? <==> Find(lines[i], VersionPattern(lib)).Nothing?)
    {
      RequiredAfterCommitLine(lines[i], lib, v);
      FindAfterCommitLine(lines[i], VersionPattern(lib), v);
    }
    RequiredIff(lines);
    RequiredIff(after);
    if OwnLines(lines, lib) {
      SameFindings(lines, after, REQUIRE_PATTERN, -1, -1);
    }
  }

  // ---- The same runs on the files

  datatype Repository = Repository(develop: seq<string>, master: seq<string>, tags: seq<Version>)

  /** The answers a run of the script gets: the kind of release, the version of shmdata, and which of
      the two branches a new clone is on. */
  datatype Answers = Answers(kind: Kind, shmdata: Version, onMaster: bool)

  function Cloned(repo: Repository, on: Answers): seq<string> {
    if on.onMaster then repo.master else repo.develop
  }

  /** `update_switcher_shmdata_version`: develop gets the version of shmdata unless the clone requires it
      already. */
  function UpdateRequired(repo: Repository, on: Answers): Option<Repository> {
    match Parse(Cloned(repo, on), REQUIRE_PATTERN)
    case None => None
    case Some(v) =>
      if v.major != on.shmdata.major || v.minor != on.shmdata.minor
      then Some(repo.(develop := Commit(repo.develop, REQUIRE_PATTERN, on.shmdata)))
      else Some(repo)
  }

  /** The rest of a run on the version files of the two branches; the merge into master takes the
      release branch's side. */
  function ReleaseFiles(repo: Repository, lib: Library, kind: Kind): Option<Repository> {
    match Parse(repo.develop, VersionPattern(lib))
    case None => None
    case Some(v) =>
      var p := VersionPattern(lib);
      var release := Increased(v, IncreaseOf(kind));
      var next := Reopened(release, kind);
      Some(Repository(Commit(repo.develop, p, next), Commit(repo.develop, p, release), repo.tags + [release, next]))
  }

  function RunScript(repo: Repository, lib: Library, on: Answers): Option<Repository> {
    if lib.Shmdata? then ReleaseFiles(repo, lib, on.kind)
    else match UpdateRequired(repo, on)
      case None => None
      case Some(updated) => ReleaseFiles(updated, lib, on.kind)
  }

  function RunsOfScript(repo: Repository, lib: Library, runs: seq<Answers>): Option<Repository>
    decreases runs
  {
    if runs == [] then Some(repo)
    else match RunScript(repo, lib, runs[0])
      case None => None
      case Some(next) => RunsOfScript(next, lib, runs[1..])
  }

  function KindsOf(runs: seq<Answers>): seq<Kind> {
    seq(|runs|, i requires 0 <= i < |runs| => runs[i].kind)
  }

  ghost predicate Shows(repo: Repository, lib: Library, b: Branches) {
    && Parse(repo.develop, VersionPattern(lib)) == Some(b.develop)
    && Parse(repo.master, VersionPattern(lib)) == Some(b.master)
    && repo.tags == b.tags
  }

  predicate Requires(lines: seq<string>) { Parse(lines, REQUIRE_PATTERN).Some? }

  lemma {:induction false} UpdateRequiredShows(repo: Repository, lib: Library, b: Branches, on: Answers)
    requires Shows(repo, lib, b)
    ensures UpdateRequired(repo, on).Some? <==> Requires(Cloned(repo, on))
    ensures var r := UpdateRequired(repo, on);
      r.Some? ==> Shows(r.value, lib, b) && (Requires(r.value.develop) <==> Requires(repo.develop))
  {
    RequirePatternIsValid();
    VersionAfterRequired(repo.develop, lib, on.shmdata);
    ParseAfterCommit(repo.develop, REQUIRE_PATTERN, on.shmdata);
  }

  lemma {:induction false} ReleaseFilesShows(repo: Repository, lib: Library, b: Branches, kind: Kind)
    requires Shows(repo, lib, b)
    ensures var r := ReleaseFiles(repo, lib, kind);
      && r.Some? && Shows(r.value, lib, Release(b, kind))
      && (Requires(r.value.develop) <==> Requires(repo.develop))
      && (Requires(r.value.master) <==> Requires(repo.develop))
  {
    var release := Increased(b.develop, IncreaseOf(kind));
    VersionPatternIsValid(lib);
    ParseAfterCommit(repo.develop, VersionPattern(lib), release);
    ParseAfterCommit(repo.develop, VersionPattern(lib), Reopened(release, kind));
    RequiredAfterVersion(repo.develop, lib, release);
    RequiredAfterVersion(repo.develop, lib, Reopened(release, kind));
  }

  /** Whether runs of the script of the library get through: a release of switcher needs a required
      version in the clone, which is one of develop from the second run on. */
  predicate CanRun(repo: Repository, lib: Library, runs: seq<Answers>) {
    lib.Switcher? && runs != [] ==>
      Requires(Cloned(repo, runs[0])) && (|runs| > 1 ==> Requires(repo.develop))
  }

  /** Runs of the script on files that show their versions get through exactly when the required version
      can be read, and then the files go through exactly the versions of the runs above. */
  lemma {:induction false} FilesFollowVersions(repo: Repository, lib: Library, b: Branches, runs: seq<Answers>)
    requires Shows(repo, lib, b)
    ensures var r := RunsOfScript(repo, lib, runs);
      && (r.Some? <==> CanRun(repo, lib, runs))
      && (r.Some? ==> Shows(r.value, lib, Releases(b, KindsOf(runs))))
    decreases runs
  {
    if runs != [] {
      var on := runs[0];
      if lib.Switcher? {
        UpdateRequiredShows(repo, lib, b, on);
      }
      if lib.Shmdata? || UpdateRequired(repo, on).Some? {
        var updated := if lib.Shmdata? then repo else UpdateRequired(repo, on).value;
        ReleaseFilesShows(updated, lib, b, on.kind);
        FilesFollowVersions(ReleaseFiles(updated, lib, on.kind).value, lib, Release(b, on.kind), runs[1..]);
        assert KindsOf(runs)[1..] == KindsOf(runs[1..]);
      }
    }
  }

  /** A release of switcher cloned from develop, without lines that hold both versions, leaves develop
      and master with the major and minor numbers of shmdata as the version they require. */
  lemma {:induction false} ReleaseRequiresShmdata(repo: Repository, on: Answers)
    requires OwnLines(repo.develop, Switcher) && !on.onMaster
    ensures var r := RunScript(repo, Switcher, on);
      r.Some? ==>
        && Parse(r.value.develop, REQUIRE_PATTERN) == Some(on.shmdata.(patch := 0))
        && Parse(r.value.master, REQUIRE_PATTERN) == Some(on.shmdata.(patch := 0))
  {
    if RunScript(repo, Switcher, on).Some? {
      var updated := UpdateRequired(repo, on).value;
      UpdateRequires(repo, on);
      var v := Parse(updated.develop, VersionPattern(Switcher)).value;
      var release := Increased(v, IncreaseOf(on.kind));
      RequiredAfterVersion(updated.develop, Switcher, release);
      RequiredAfterVersion(updated.develop, Switcher, Reopened(release, on.kind));
      hide Parse, Commit, OwnLines;
    }
  }

  lemma {:induction false} UpdateRequires(repo: Repository, on: Answers)
    requires OwnLines(repo.develop, Switcher) && !on.onMaster && UpdateRequired(repo, on).Some?
    ensures var updated := UpdateRequired(repo, on).value;
      OwnLines(updated.develop, Switcher) && Parse(updated.develop, REQUIRE_PATTERN) == Some(on.shmdata.(patch := 0))
  {
    RequirePatternIsValid();
    ParseAfterCommit(repo.develop, REQUIRE_PATTERN, on.shmdata);
    RequiredHasNoPatch(repo.develop, -1, -1);
    OwnLinesAfterRequired(repo.develop, Switcher, on.shmdata);
    hide Scan, Commit, OwnLines;
  }

  lemma {:induction false} OwnLinesAfterRequired(lines: seq<string>, lib: Library, v: Version)
    requires OwnLines(lines, lib)
    ensures OwnLines(Commit(lines, REQUIRE_PATTERN, v), lib)
  {
    var after := Commit(lines, REQUIRE_PATTERN, v);
    RequirePatternIsValid();
    forall i | 0 <= i < |after|
      ensures Find(after[i], VersionPattern(lib)).Nothing? || !Find(after[i], REQUIRE_PATTERN).Both?
    {
      FindAfterCommitLine(lines[i], REQUIRE_PATTERN, v);
      FindAfterRequired(lines[i], lib, v);
      hide Find, CommitLine;
    }
  }

  lemma {:induction false} RequiredHasNoPatch(lines: seq<string>, major: int, minor: int)
    ensures Scan(lines, REQUIRE_PATTERN, major, minor).2 in {-1, 0}
  {
    if lines != [] {
      RequiredHasNoPatch(lines[1..], major, minor);
    }
  }
}
