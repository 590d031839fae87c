/** flows/release-support/input.ts: which texts are versions, and what a bump of one gives. */
module ReleaseVersion {
  import opened Wrappers
  import opened Strings
  import opened Decimal

  datatype Core = Core(major: nat, minor: nat, patch: nat)

  /** A version as section 2 and section 9 of Semantic Versioning 2.0.0 have it, without build metadata. */
  datatype Version = Version(core: Core, prerelease: Option<seq<string>>)

  predicate IdentifierChar(c: char) {
    '0' <= c <= '9' || 'A' <= c <= 'Z' || 'a' <= c <= 'z' || c == '-'
  }

  predicate Identifier(part: string) {
    part != "" && forall i :: 0 <= i < |part| ==> IdentifierChar(part[i])
  }

  /** `/^0\d+$/`. */
  predicate LeadingZero(part: string) {
    |part| > 1 && part[0] == '0' && AllDigits(part)
  }

  /** Exactly the numeric identifiers that a number would not be printed as. */
  lemma LeadingZeroExactly(part: string)
    ensures LeadingZero(part) <==> part != "" && AllDigits(part) && Digits(Number(part)) != part
  {
    if part != "" && AllDigits(part) && !LeadingZero(part) {
      DigitsOfNumber(part);
    }
  }

  /** What the pattern alone demands. */
  predicate Shaped(v: Version) {
    v.prerelease.Some? ==>
      v.prerelease.value != [] && forall k :: 0 <= k < |v.prerelease.value| ==> Identifier(v.prerelease.value[k])
  }

  predicate WellFormed(v: Version) {
    Shaped(v) &&
    (v.prerelease.Some? ==> forall k :: 0 <= k < |v.prerelease.value| ==> !LeadingZero(v.prerelease.value[k]))
  }

  function PrintCore(c: Core): string {
    Join(CoreParts(c), '.')
  }

  function Print(v: Version): string {
    if v.prerelease.None? then PrintCore(v.core) else PrintCore(v.core) + ("-" + Join(v.prerelease.value, '.'))
  }

  // ---- reading a version -------------------------------------------------------------------------

  /** `0|[1-9]\d*`. */
  predicate Numeral(s: string) {
    s != "" && AllDigits(s) && (|s| > 1 ==> s[0] != '0')
  }

  function ParseCore(text: string): Option<Core> {
    var parts := Split(text, '.');
    if |parts| == 3 && Numeral(parts[0]) && Numeral(parts[1]) && Numeral(parts[2]) then
      Some(Core(Number(parts[0]), Number(parts[1]), Number(parts[2])))
    else None
  }

  /** Everything before and after the first hyphen. */
  function Cut(text: string): (string, Option<string>) {
    var parts := Split(text, '-');
    if |parts| == 1 then (text, None) else (parts[0], Some(Join(parts[1..], '-')))
  }

  predicate Identifiers(parts: seq<string>) {
    forall k :: 0 <= k < |parts| ==> Identifier(parts[k])
  }

  function Parse(text: string): Option<Version> {
    var (base, suffix) := Cut(text);
    var core := ParseCore(base);
    if core.None? then None
    else if suffix.None? then Some(Version(core.value, None))
    else if Identifiers(Split(suffix.value, '.')) then Some(Version(core.value, Some(Split(suffix.value, '.'))))
    else None
  }

  function CoreParts(c: Core): (parts: seq<string>)
    ensures |parts| == 3 && forall k :: 0 <= k < 3 ==> Numeral(parts[k])
  {
    [Digits(c.major), Digits(c.minor), Digits(c.patch)]
  }

  lemma CorePlain(c: Core)
    ensures '-' !in PrintCore(c)
    ensures Split(PrintCore(c), '.') == CoreParts(c)
  {
    JoinAvoids(CoreParts(c), '.', '-');
    JoinSplits(CoreParts(c), '.');
  }

  lemma CoreRoundTrip(c: Core)
    ensures ParseCore(PrintCore(c)) == Some(c)
  {
    CorePlain(c);
    NumberOfDigits(c.major);
    NumberOfDigits(c.minor);
    NumberOfDigits(c.patch);
  }

  lemma CoreReads(text: string)
    requires ParseCore(text).Some?
    ensures PrintCore(ParseCore(text).value) == text
  {
    var parts := Split(text, '.');
    SplitJoins(text, '.');
    DigitsOfNumber(parts[0]);
    DigitsOfNumber(parts[1]);
    DigitsOfNumber(parts[2]);
    assert parts == [parts[0], parts[1], parts[2]];
  }

  /** The cut is at the first hyphen, wherever the rest has more of them. */
  lemma CutExactly(base: string, suffix: string)
    requires '-' !in base
    ensures Cut(base) == (base, None) && Cut(base + ("-" + suffix)) == (base, Some(suffix))
  {
    SplitPlain(base, '-');
    SplitFirst(base, suffix, '-');
    SplitJoins(suffix, '-');
    assert ([base] + Split(suffix, '-'))[1..] == Split(suffix, '-');
  }

  lemma CutRejoins(text: string)
    ensures var (base, suffix) := Cut(text);
      '-' !in base && text == if suffix.None? then base else base + ("-" + suffix.value)
  {
    SplitJoins(text, '-');
    var parts := Split(text, '-');
    assert '-' !in parts[0];
    if |parts| > 1 {
      assert parts[0] + "-" + Join(parts[1..], '-') == parts[0] + ("-" + Join(parts[1..], '-'));
    }
  }

  /** Printing then reading gives the version back. */
  lemma PrintParses(v: Version)
    requires Shaped(v)
    ensures Parse(Print(v)) == Some(v)
  {
    CorePlain(v.core);
    CoreRoundTrip(v.core);
    CutExactly(PrintCore(v.core), if v.prerelease.Some? then Join(v.prerelease.value, '.') else "");
    if v.prerelease.Some? {
      JoinSplits(v.prerelease.value, '.');
    }
  }

  /** Reading then printing gives the text back: the pattern matches exactly the printed versions. */
  lemma ParsePrints(text: string)
    requires Parse(text).Some?
    ensures Shaped(Parse(text).value) && Print(Parse(text).value) == text
  {
    CutRejoins(text);
    var (base, suffix) := Cut(text);
    CoreReads(base);
    if suffix.Some? {
      SplitJoins(suffix.value, '.');
    }
  }

  /** The texts that are versions: what some well-formed version prints as. */
  ghost predicate IsVersion(text: string) {
    exists v :: WellFormed(v) && Print(v) == text
  }

  predicate Versioned(text: string) {
    Parse(text).Some? && WellFormed(Parse(text).value)
  }

  lemma VersionedExactly(text: string)
    ensures IsVersion(text) <==> Versioned(text)
  {
    forall v | WellFormed(v) && Print(v) == text ensures Parse(text) == Some(v) {
      PrintParses(v);
    }
    if Parse(text).Some? {
      ParsePrints(text);
    }
  }

  /** Parts of what follows the first hyphen; one empty part when nothing does. */
  function SuffixParts(text: string): seq<string> {
    var suffix := Cut(text).1;
    Split(if suffix.Some? then suffix.value else "", '.')
  }

  lemma SuffixPartsExactly(text: string)
    requires Parse(text).Some?
    ensures Versioned(text) <==> NoLeadingZero(SuffixParts(text))
  {
    ParsePrints(text);
  }

  predicate NoLeadingZero(parts: seq<string>) {
    forall k :: 0 <= k < |parts| ==> !LeadingZero(parts[k])
  }

  /** `version`: the pattern, then the loop over what follows the first hyphen. Accepts exactly the versions. */
  method CheckVersion(text: string) returns (ok: bool)
    ensures ok <==> IsVersion(text)
    ensures ok <==> Versioned(text)
  {
    VersionedExactly(text);
    if Parse(text).None? { return false; }
    SuffixPartsExactly(text);
    var parts := SuffixParts(text);
    for i := 0 to |parts|
      invariant NoLeadingZero(parts[..i])
    {
      PrefixSnoc(parts, i);
      if LeadingZero(parts[i]) { return false; }
    }
    assert parts[..|parts|] == parts;
    ok := true;
  }

  // ---- bumps -------------------------------------------------------------------------------------

  datatype Bump = Major | Minor | Patch

  /** Precedence of releases, section 11: major, then minor, then patch. */
  predicate CoreBelow(a: Core, b: Core) {
    || a.major < b.major
    || (a.major == b.major && (a.minor < b.minor || (a.minor == b.minor && a.patch < b.patch)))
  }

  /** A prerelease precedes the release of the same core. */
  predicate BelowRelease(v: Version, release: Core) {
    CoreBelow(v.core, release) || (v.core == release && v.prerelease.Some?)
  }

  /** The components the bump resets. */
  predicate Fits(bump: Bump, c: Core) {
    match bump
    case Major => c.minor == 0 && c.patch == 0
    case Minor => c.patch == 0
    case Patch => true
  }

  ghost predicate LeastAbove(bump: Bump, v: Version, release: Core) {
    && Fits(bump, release) && BelowRelease(v, release)
    && forall other {:trigger BelowRelease(v, other)} ::
         Fits(bump, other) && BelowRelease(v, other) ==> other == release || CoreBelow(release, other)
  }

  /** A JSON field: absent, null, a text, or anything else with what `String` makes of it. */
  datatype Field = Absent | Null | Text(text: string) | Other(rendered: string)

  function Rendered(f: Field): string {
    match f
    case Absent => "undefined"
    case Null => "null"
    case Text(text) => text
    case Other(rendered) => rendered
  }

  function BumpNamed(name: string): Option<Bump> {
    if name == "major" then Some(Major) else if name == "minor" then Some(Minor)
    else if name == "patch" then Some(Patch) else None
  }

  /** Whether the second hyphen-separated piece is a non-empty string, which is what the code tests for a prerelease. */
  predicate SeenAsPrerelease(v: Version) {
    v.prerelease.Some? && Split(Join(v.prerelease.value, '.'), '-')[0] != ""
  }

  /** That test misses exactly the prereleases whose first character is a hyphen. */
  predicate HyphenFirst(v: Version) {
    v.prerelease.Some? && v.prerelease.value != [] && v.prerelease.value[0] != "" && v.prerelease.value[0][0] == '-'
  }

  lemma SeenUnlessHyphenFirst(v: Version)
    requires Shaped(v)
    ensures SeenAsPrerelease(v) <==> v.prerelease.Some? && !HyphenFirst(v)
  {
    if v.prerelease.Some? {
      var parts := v.prerelease.value;
      assert Identifier(parts[0]);
      assert Join(parts, '.')[0] == parts[0][0];
    }
  }

  function BumpCore(bump: Bump, c: Core, prerelease: bool): Core {
    match bump
    case Major => Core(if c.minor != 0 || c.patch != 0 || !prerelease then c.major + 1 else c.major, 0, 0)
    case Minor => Core(c.major, if c.patch != 0 || !prerelease then c.minor + 1 else c.minor, 0)
    case Patch => Core(c.major, c.minor, if !prerelease then c.patch + 1 else c.patch)
  }

  function Bumped(bump: Bump, v: Version): Core {
    BumpCore(bump, v.core, SeenAsPrerelease(v))
  }

  datatype Request = Chosen(version: string) | NotAVersion | BothGiven | UnknownBump

  /** Only a text bump is compared for equality; any other value that renders as a bump name falls to the patch branch. */
  function BumpApplied(field: Field): Bump {
    if field == Text("major") then Major else if field == Text("minor") then Minor else Patch
  }

  /** What `requestedVersion` answers, case by case. */
  ghost function Requested(version: Field, bump: Field, current: string): Request {
    if bump == Absent then
      var value := if version.Absent? || version.Null? then Text(current) else version;
      if value.Text? && Versioned(value.text) then Chosen(value.text) else NotAVersion
    else if version != Absent then BothGiven
    else if BumpNamed(Rendered(bump)).None? then UnknownBump
    else if !Versioned(current) then NotAVersion
    else Chosen(PrintCore(Bumped(BumpApplied(bump), Parse(current).value)))
  }

  method RequestedVersion(version: Field, bump: Field, current: string) returns (r: Request)
    ensures r == Requested(version, bump, current)
    ensures r.Chosen? ==> Versioned(r.version)
  {
    if bump == Absent {
      var value := if version.Absent? || version.Null? then Text(current) else version;
      if !value.Text? { return NotAVersion; }
      var ok := CheckVersion(value.text);
      return if ok then Chosen(value.text) else NotAVersion;
    }
    if version != Absent { return BothGiven; }
    if BumpNamed(Rendered(bump)).None? { return UnknownBump; }
    var ok := CheckVersion(current);
    if !ok { return NotAVersion; }
    var pieces := Split(current, '-');
    var base, prerelease := pieces[0], |pieces| > 1 && pieces[1] != "";
    PiecesOf(current);
    var core := BumpFields(bump, ParseCore(base).value, prerelease);
    PrintParses(Version(core, None));
    r := Chosen(PrintCore(core));
  }

  method BumpFields(bump: Field, core: Core, prerelease: bool) returns (r: Core)
    ensures r == BumpCore(BumpApplied(bump), core, prerelease)
  {
    var major, minor, patch := core.major, core.minor, core.patch;
    if bump == Text("major") {
      if minor != 0 || patch != 0 || !prerelease { major := major + 1; }
      minor, patch := 0, 0;
    } else if bump == Text("minor") {
      if patch != 0 || !prerelease { minor := minor + 1; }
      patch := 0;
    } else if !prerelease {
      patch := patch + 1;
    }
    r := Core(major, minor, patch);
  }

  /** The two pieces the code looks at are the core and, up to its own first hyphen, the prerelease. */
  lemma PiecesOf(text: string)
    requires Parse(text).Some?
    ensures var pieces := Split(text, '-'); var v := Parse(text).value;
      && ParseCore(pieces[0]) == Some(v.core)
      && (|pieces| > 1 && pieces[1] != "" <==> SeenAsPrerelease(v))
  {
    var pieces := Split(text, '-');
    SplitJoins(text, '-');
    if |pieces| > 1 {
      assert Plain(pieces[1..], '-');
      JoinSplits(pieces[1..], '-');
      SplitJoins(Cut(text).1.value, '.');
    }
  }

  // ---- what a bump promises, and when the code keeps it ------------------------------------------

  /** The release a bump promises, said without the code: keep the core if it fits and only a prerelease stood below it. */
  function Promised(bump: Bump, v: Version): (r: Core)
  {
    if v.prerelease.Some? && Fits(bump, v.core) then v.core
    else match bump
      case Major => Core(v.core.major + 1, 0, 0)
      case Minor => Core(v.core.major, v.core.minor + 1, 0)
      case Patch => Core(v.core.major, v.core.minor, v.core.patch + 1)
  }

  lemma PromisedIsLeast(bump: Bump, v: Version, release: Core)
    ensures LeastAbove(bump, v, release) <==> release == Promised(bump, v)
  {
    var p := Promised(bump, v);
    assert Fits(bump, p) && BelowRelease(v, p);
    assert BelowRelease(v, release) || !BelowRelease(v, release);
  }

  /** When the code's prerelease test matters: the core already fits and a prerelease it cannot see stands below it. */
  predicate Overlooked(bump: Bump, v: Version) {
    HyphenFirst(v) && Fits(bump, v.core)
  }

  /**
   * A text bump gives the least fitting release above the current version exactly when the current version is not a
   * prerelease starting with a hyphen on a core that already fits; there it skips that release.
   */
  lemma BumpIsLeastExactly(bump: Bump, v: Version)
    requires WellFormed(v)
    ensures LeastAbove(bump, v, Bumped(bump, v)) <==> !Overlooked(bump, v)
  {
    SeenUnlessHyphenFirst(v);
    PromisedIsLeast(bump, v, Bumped(bump, v));
  }

  /** In every case the bump is a release strictly above the current one that fits, so it never goes back. */
  lemma BumpRises(bump: Bump, v: Version)
    ensures Fits(bump, Bumped(bump, v)) && BelowRelease(v, Bumped(bump, v))
  {
  }

  /**
   * For every request that names a bump: the answer is the least fitting release above the current version exactly
   * when the bump is text and not overlooked, or is another value that renders as its name and the patch it then gets
   * happens to be that release.
   */
  lemma AnswerIsLeastExactly(bump: Field, current: string, named: Bump, release: Core)
    requires bump != Absent && BumpNamed(Rendered(bump)) == Some(named) && Versioned(current)
    requires Requested(Absent, bump, current) == Chosen(PrintCore(release))
    ensures var v := Parse(current).value;
      LeastAbove(named, v, release) <==>
      if bump.Text? || named.Patch? then !Overlooked(named, v)
      else v.prerelease.Some? && !HyphenFirst(v) && Fits(named, v.core)
  {
    var v := Parse(current).value;
    CoreRoundTrip(release);
    CoreRoundTrip(Bumped(BumpApplied(bump), v));
    assert release == Bumped(BumpApplied(bump), v);
    SeenUnlessHyphenFirst(v);
    PromisedIsLeast(named, v, release);
  }

  /** Every hyphen-first prerelease is skipped by a patch bump: its own release was the answer. */
  lemma HyphenFirstSkips(v: Version)
    requires WellFormed(v) && HyphenFirst(v)
    ensures var next := Core(v.core.major, v.core.minor, v.core.patch + 1);
      && Versioned(Print(v)) && Requested(Absent, Text("patch"), Print(v)) == Chosen(PrintCore(next))
      && LeastAbove(Patch, v, v.core) && !LeastAbove(Patch, v, next)
  {
    PrintParses(v);
    SeenUnlessHyphenFirst(v);
    PromisedIsLeast(Patch, v, v.core);
    PromisedIsLeast(Patch, v, Core(v.core.major, v.core.minor, v.core.patch + 1));
  }

  /** For instance 1.0.0--alpha is a version, and its patch bump is 1.0.1. */
  lemma AlphaIsSkipped(v: Version)
    requires v == Version(Core(1, 0, 0), Some(["-alpha"]))
    ensures WellFormed(v) && HyphenFirst(v)
    ensures Requested(Absent, Text("patch"), Print(v)) == Chosen(PrintCore(Core(1, 0, 1)))
    ensures LeastAbove(Patch, v, Core(1, 0, 0)) && !LeastAbove(Patch, v, Core(1, 0, 1))
  {
    assert WellFormed(v) && HyphenFirst(v);
    HyphenFirstSkips(v);
  }

  /** A bump given as the list `["major"]` renders as its name, passes the check of names, and is bumped as a patch. */
  lemma ListedBumpIsAPatch(rendered: string, current: string)
    requires BumpNamed(rendered).Some? && Versioned(current)
    ensures Requested(Absent, Other(rendered), current) == Requested(Absent, Text("patch"), current)
  {
  }
}
