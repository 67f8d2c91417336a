/**
 * The file-name pattern of an upgrade package, as a scanner over the name:
 *
 *   DataMiner\s(?<Version>\d+\.\d+\.\d+\.\d+)(?:\(CU(?<CU>\d+)\))?-(?<BuildNumber>\d+)
 *   \s(?<UpgradeType>Full|Web)\sUpgrade(?:\s\((?<Type>rc|internal)\))?
 *   (?:\sGER-(?<GER>\d+))?(?:\sPS-(?<PS>\d+))?
 *
 * The pattern never needs to backtrack: every `\d+` is followed by a character that is not
 * a digit, each alternation's branches differ in their first character, and an optional
 * group that is skipped after it matched leaves a character the next item cannot accept
 * (or nothing that could fail). So a left-to-right scanner that takes each optional group
 * whenever it matches, and each digit run as long as it goes, finds exactly the match the
 * backtracking engine reports at a given start. The search for a start is unanchored.
 * A group that took no part in the match has the empty string as its value.
 */
module FileNameRegex {

  import opened Wrappers
  import opened Text

  /** The values of the named groups of a match. */
  datatype Groups = Groups(
    version: string,
    cu: string,
    buildNumber: string,
    upgradeType: string,
    packageType: string,
    gerritId: string,
    patchSet: string)

  // ---------------------------------------------------------------------------
  // Scanner primitives: each returns what it consumed (if anything) and the rest.

  /** The length of the run of digits at the start of `s`. */
  function DigitRun(s: string): (n: nat)
    ensures n <= |s|
    ensures n == |s| || !IsDigit(s[n])
    decreases |s|
  {
    if s != [] && IsDigit(s[0]) then 1 + DigitRun(s[1..]) else 0
  }

  /** Everything before `DigitRun(s)` is a digit. */
  lemma {:induction false} DigitRunDigits(s: string)
    ensures AllDigits(s[..DigitRun(s)])
    decreases |s|
  {
    if s != [] && IsDigit(s[0]) {
      DigitRunDigits(s[1..]);
      var n := DigitRun(s);
      assert forall k | 1 <= k < n :: s[..n][k] == s[1..][..n - 1][k - 1];
    }
  }

  /** `\d+`, greedy. */
  function Digits(s: string): (r: Option<(string, string)>)
    ensures r.Some? <==> s != [] && IsDigit(s[0])
    ensures r.Some? ==> r.value.0 != [] && s == r.value.0 + r.value.1
    ensures r.Some? ==> r.value.1 == [] || !IsDigit(r.value.1[0])
  {
    var n := DigitRun(s);
    if n == 0 then None
    else
      assert s == s[..n] + s[n..];
      Some((s[..n], s[n..]))
  }

  lemma DigitsDigits(s: string)
    requires Digits(s).Some?
    ensures AllDigits(Digits(s).value.0)
  {
    DigitRunDigits(s);
  }

  /** A literal piece of the pattern. */
  function Literal(s: string, lit: string): (r: Option<string>)
    ensures r.Some? <==> StartsWith(s, lit)
    ensures r.Some? ==> s == lit + r.value
  {
    if StartsWith(s, lit) then
      assert s == s[..|lit|] + s[|lit|..];
      Some(s[|lit|..])
    else None
  }

  /** `\s`: one white-space character. */
  function Space(s: string): (r: Option<string>)
    ensures r.Some? <==> s != [] && IsWhiteSpace(s[0])
    ensures r.Some? ==> s == [s[0]] + r.value
  {
    if s != [] && IsWhiteSpace(s[0]) then Some(s[1..]) else None
  }

  /** A run of at least one digit, as `\d+` captures it. */
  predicate IsDigitRun(d: string) {
    d != [] && AllDigits(d)
  }

  /** The text of a four-part version: the runs joined by dots. */
  function VersionText(major: string, minor: string, build: string, revision: string): string {
    major + ("." + (minor + ("." + (build + ("." + revision)))))
  }

  /** `v` is four digit runs separated by single dots, which is what the `Version` group captures. */
  ghost predicate IsVersion(v: string) {
    exists major, minor, build, revision
      | IsDigitRun(major) && IsDigitRun(minor) && IsDigitRun(build) && IsDigitRun(revision)
      :: v == VersionText(major, minor, build, revision)
  }

  /** `(?<Version>\d+\.\d+\.\d+\.\d+)` */
  function VersionGroup(s: string): Option<(string, string)> {
    var major :- Digits(s);
    var afterMajor :- Literal(major.1, ".");
    var minor :- Digits(afterMajor);
    var afterMinor :- Literal(minor.1, ".");
    var build :- Digits(afterMinor);
    var afterBuild :- Literal(build.1, ".");
    var revision :- Digits(afterBuild);
    Some((VersionText(major.0, minor.0, build.0, revision.0), revision.1))
  }

  /** `\(CU(?<CU>\d+)\)` */
  function CuGroup(s: string): Option<(string, string)> {
    var afterOpen :- Literal(s, "(CU");
    var digits :- Digits(afterOpen);
    var afterClose :- Literal(digits.1, ")");
    Some((digits.0, afterClose))
  }

  /** An alternation of two words, `(first|second)`: the first is tried first. */
  function Choice(s: string, first: string, second: string): (r: Option<(string, string)>)
    ensures r.Some? ==> (r.value.0 == first || r.value.0 == second) && s == r.value.0 + r.value.1
  {
    if StartsWith(s, first) then
      assert s == s[..|first|] + s[|first|..];
      Some((first, s[|first|..]))
    else if StartsWith(s, second) then
      assert s == s[..|second|] + s[|second|..];
      Some((second, s[|second|..]))
    else None
  }

  /** `(?<UpgradeType>Full|Web)` */
  function UpgradeTypeGroup(s: string): Option<(string, string)> {
    Choice(s, "Full", "Web")
  }

  /** `\s\((?<Type>rc|internal)\)` */
  function TypeGroup(s: string): Option<(string, string)> {
    var afterSpace :- Space(s);
    var afterOpen :- Literal(afterSpace, "(");
    var name :- Choice(afterOpen, "rc", "internal");
    var afterClose :- Literal(name.1, ")");
    Some((name.0, afterClose))
  }

  /** `\sGER-(?<GER>\d+)` and `\sPS-(?<PS>\d+)`. */
  function NumberGroup(s: string, prefix: string): Option<(string, string)> {
    var afterSpace :- Space(s);
    var afterPrefix :- Literal(afterSpace, prefix);
    Digits(afterPrefix)
  }

  /** `(?:...)?`, greedy: the group's value when it matched, else the empty value and the same input. */
  function Optional(group: Option<(string, string)>, s: string): (string, string) {
    if group.Some? then group.value else ("", s)
  }

  // ---------------------------------------------------------------------------
  // The match

  /** The mandatory part, up to `Upgrade`: version, CU, build number, upgrade type and what follows. */
  function Head(s: string): Option<(string, string, string, string, string)> {
    var afterName :- Literal(s, "DataMiner");
    var afterSpace :- Space(afterName);
    var version :- VersionGroup(afterSpace);
    var cu := Optional(CuGroup(version.1), version.1);
    var afterDash :- Literal(cu.1, "-");
    var build :- Digits(afterDash);
    var afterBuild :- Space(build.1);
    var upgrade :- UpgradeTypeGroup(afterBuild);
    var afterUpgradeType :- Space(upgrade.1);
    var afterUpgrade :- Literal(afterUpgradeType, "Upgrade");
    Some((version.0, cu.0, build.0, upgrade.0, afterUpgrade))
  }

  /** The three optional groups at the end: package type, Gerrit ID, patch set, and what follows. */
  function OptionalGroups(s: string): (string, string, string, string) {
    var packageType := Optional(TypeGroup(s), s);
    var gerrit := Optional(NumberGroup(packageType.1, "GER-"), packageType.1);
    var patchSet := Optional(NumberGroup(gerrit.1, "PS-"), gerrit.1);
    (packageType.0, gerrit.0, patchSet.0, patchSet.1)
  }

  /** The match of the whole pattern starting at the first character of `s`, and what follows it. */
  function MatchAt(s: string): Option<(Groups, string)> {
    var head :- Head(s);
    var tail := OptionalGroups(head.4);
    Some((Groups(head.0, head.1, head.2, head.3, tail.0, tail.1, tail.2), tail.3))
  }

  /**
   * The unanchored search of `Regex.Match`: the start positions from `i` on are tried in
   * order, and the first one at which `matchAt` succeeds is returned with its result.
   * Every earlier start fails, and when nothing is found every start fails.
   */
  function FirstMatch<T>(s: string, i: nat, matchAt: string -> Option<T>): (r: Option<(nat, T)>)
    requires i <= |s|
    ensures r.Some? ==> i <= r.value.0 <= |s| && matchAt(s[r.value.0..]) == Some(r.value.1)
    ensures forall j | i <= j <= |s| && (r.None? || j < r.value.0) :: matchAt(s[j..]).None?
    decreases |s| - i
  {
    var m := matchAt(s[i..]);
    if m.Some? then Some((i, m.value))
    else if i == |s| then None
    else FirstMatch(s, i + 1, matchAt)
  }

  /** The groups of the leftmost match in `s`, if the pattern occurs in it at all. */
  function Match(s: string): Option<Groups> {
    var found :- FirstMatch(s, 0, MatchAt);
    Some(found.1.0)
  }

  // ---------------------------------------------------------------------------
  // The canonical text of a match

  function CuText(cu: string): string {
    if cu == [] then [] else "(CU" + (cu + ")")
  }

  function TypeText(packageType: string): string {
    if packageType == [] then [] else " (" + (packageType + ")")
  }

  function NumberText(prefix: string, n: string): string {
    if n == [] then [] else " " + (prefix + n)
  }

  /** The mandatory part of the text the pattern matches for `g`, with plain spaces, then `rest`. */
  function HeadText(g: Groups, rest: string): string {
    "DataMiner" + (" " + (g.version + (CuText(g.cu) + ("-" + (g.buildNumber
      + (" " + (g.upgradeType + (" " + ("Upgrade" + rest)))))))))
  }

  /** The optional part of the text the pattern matches for `g`, then `rest`. */
  function TailText(g: Groups, rest: string): string {
    TypeText(g.packageType) + (NumberText("GER-", g.gerritId) + (NumberText("PS-", g.patchSet) + rest))
  }

  /** The text the pattern matches for `g` when every `\s` is a plain space, followed by `rest`. */
  function Render(g: Groups, rest: string): string {
    HeadText(g, TailText(g, rest))
  }

  /** Optional digits: absent (empty) or a digit run. */
  predicate OptionalDigits(s: string) {
    s == [] || AllDigits(s)
  }

  /** The group values a match can have. */
  ghost predicate WellFormed(g: Groups) {
    && IsVersion(g.version)
    && OptionalDigits(g.cu)
    && IsDigitRun(g.buildNumber)
    && (g.upgradeType == "Full" || g.upgradeType == "Web")
    && (g.packageType == [] || g.packageType == "rc" || g.packageType == "internal")
    && OptionalDigits(g.gerritId)
    && OptionalDigits(g.patchSet)
  }

  /**
   * The text after a match cannot be taken into it: it neither continues the last digit
   * run nor starts an optional group that the match left out.
   */
  predicate TailOk(g: Groups, rest: string) {
    && ((g.gerritId != [] || g.patchSet != []) && rest != [] ==> !IsDigit(rest[0]))
    && (g.patchSet == [] ==> NumberGroup(rest, "PS-").None?)
    && (g.patchSet == [] && g.gerritId == [] ==> NumberGroup(rest, "GER-").None?)
    && (g.patchSet == [] && g.gerritId == [] && g.packageType == [] ==> TypeGroup(rest).None?)
  }

  /** Every character of white space replaced by a plain space. */
  function Normalize(s: string): (r: string)
    ensures |r| == |s|
    decreases |s|
  {
    if s == [] then [] else [if IsWhiteSpace(s[0]) then ' ' else s[0]] + Normalize(s[1..])
  }

  // ---------------------------------------------------------------------------
  // Reading a rendered text back

  lemma StartsDiffer(s: string, lit: string)
    requires s != [] && lit != [] && s[0] != lit[0]
    ensures !StartsWith(s, lit)
  {
  }

  lemma {:induction false} DigitRunOf(d: string, rest: string)
    requires AllDigits(d) && (rest == [] || !IsDigit(rest[0]))
    ensures DigitRun(d + rest) == |d|
    decreases |d|
  {
    if d == [] {
      assert d + rest == rest;
    } else {
      assert (d + rest)[1..] == d[1..] + rest;
      DigitRunOf(d[1..], rest);
    }
  }

  lemma DigitsOf(d: string, rest: string)
    requires d != [] && AllDigits(d) && (rest == [] || !IsDigit(rest[0]))
    ensures Digits(d + rest) == Some((d, rest))
  {
    DigitRunOf(d, rest);
    assert (d + rest)[..|d|] == d;
    assert (d + rest)[|d|..] == rest;
  }

  lemma LiteralOf(lit: string, rest: string)
    ensures Literal(lit + rest, lit) == Some(rest)
  {
    assert (lit + rest)[..|lit|] == lit;
    assert (lit + rest)[|lit|..] == rest;
  }

  /** A version followed by anything but a digit reads back as that version. */
  lemma VersionGroupOf(major: string, minor: string, build: string, revision: string, rest: string)
    requires IsDigitRun(major) && IsDigitRun(minor) && IsDigitRun(build) && IsDigitRun(revision)
    requires rest == [] || !IsDigit(rest[0])
    ensures VersionGroup(VersionText(major, minor, build, revision) + rest)
         == Some((VersionText(major, minor, build, revision), rest))
  {
    var afterBuild := "." + (revision + rest);
    var afterMinor := "." + (build + afterBuild);
    var afterMajor := "." + (minor + afterMinor);
    assert VersionText(major, minor, build, revision) + rest == major + afterMajor;
    DigitsOf(major, afterMajor);
    LiteralOf(".", minor + afterMinor);
    DigitsOf(minor, afterMinor);
    LiteralOf(".", build + afterBuild);
    DigitsOf(build, afterBuild);
    LiteralOf(".", revision + rest);
    DigitsOf(revision, rest);
  }

  lemma CuGroupOf(cu: string, rest: string)
    requires OptionalDigits(cu) && rest != [] && rest[0] == '-'
    ensures CuGroup(CuText(cu) + rest) == (if cu == [] then None else Some((cu, rest)))
  {
    if cu == [] {
      assert CuText(cu) + rest == rest;
      StartsDiffer(rest, "(CU");
    } else {
      assert CuText(cu) + rest == "(CU" + (cu + (")" + rest));
      LiteralOf("(CU", cu + (")" + rest));
      DigitsOf(cu, ")" + rest);
      LiteralOf(")", rest);
    }
  }

  lemma ChoiceOf(first: string, second: string, t: string, rest: string)
    requires t == first || (t == second && first != [] && second != [] && first[0] != second[0])
    ensures Choice(t + rest, first, second) == Some((t, rest))
  {
    LiteralOf(t, rest);
    if t != first {
      StartsDiffer(t + rest, first);
    }
  }

  /** The mandatory part reads back whatever follows it. */
  lemma HeadOf(g: Groups, rest: string)
    requires IsVersion(g.version) && OptionalDigits(g.cu)
    requires g.buildNumber != [] && AllDigits(g.buildNumber)
    requires g.upgradeType == "Full" || g.upgradeType == "Web"
    ensures Head(HeadText(g, rest)) == Some((g.version, g.cu, g.buildNumber, g.upgradeType, rest))
  {
    var afterUpgradeType := " " + ("Upgrade" + rest);
    var afterBuild := " " + (g.upgradeType + afterUpgradeType);
    var afterDash := g.buildNumber + afterBuild;
    var dash := "-" + afterDash;
    var afterVersion := CuText(g.cu) + dash;
    var afterSpace := g.version + afterVersion;
    LiteralOf("DataMiner", " " + afterSpace);
    assert Space(" " + afterSpace) == Some(afterSpace);
    CuGroupOf(g.cu, dash);
    if g.cu == [] {
      assert afterVersion == dash;
    } else {
      assert afterVersion == "(CU" + (g.cu + (")" + dash));
    }
    var major, minor, build, revision :| IsDigitRun(major) && IsDigitRun(minor) && IsDigitRun(build)
      && IsDigitRun(revision) && g.version == VersionText(major, minor, build, revision);
    VersionGroupOf(major, minor, build, revision, afterVersion);
    LiteralOf("-", afterDash);
    DigitsOf(g.buildNumber, afterBuild);
    assert Space(afterBuild) == Some(g.upgradeType + afterUpgradeType);
    ChoiceOf("Full", "Web", g.upgradeType, afterUpgradeType);
    assert Space(afterUpgradeType) == Some("Upgrade" + rest);
    LiteralOf("Upgrade", rest);
  }

  lemma NumberGroupOf(prefix: string, n: string, rest: string)
    requires n != [] && AllDigits(n) && (rest == [] || !IsDigit(rest[0]))
    ensures NumberGroup(NumberText(prefix, n) + rest, prefix) == Some((n, rest))
  {
    assert NumberText(prefix, n) + rest == " " + (prefix + (n + rest));
    LiteralOf(prefix, n + rest);
    DigitsOf(n, rest);
  }

  lemma NumberGroupOther(prefix: string, other: string, rest: string)
    requires prefix != [] && other != [] && prefix[0] != other[0]
    ensures NumberGroup(" " + (other + rest), prefix).None?
  {
    StartsDiffer(other + rest, prefix);
  }

  lemma TypeGroupOf(t: string, rest: string)
    requires t == "rc" || t == "internal"
    ensures TypeGroup(TypeText(t) + rest) == Some((t, rest))
  {
    assert TypeText(t) + rest == " " + ("(" + (t + (")" + rest)));
    LiteralOf("(", t + (")" + rest));
    ChoiceOf("rc", "internal", t, ")" + rest);
    LiteralOf(")", rest);
  }

  lemma TypeGroupOther(other: string, rest: string)
    requires other != [] && other[0] != '('
    ensures TypeGroup(" " + (other + rest)).None?
  {
    StartsDiffer(other + rest, "(");
  }

  /** The optional part reads back when the text after it cannot be taken into the match. */
  lemma TailOf(g: Groups, rest: string)
    requires g.packageType == [] || g.packageType == "rc" || g.packageType == "internal"
    requires OptionalDigits(g.gerritId) && OptionalDigits(g.patchSet)
    requires TailOk(g, rest)
    ensures OptionalGroups(TailText(g, rest)) == (g.packageType, g.gerritId, g.patchSet, rest)
  {
    var afterGerrit := NumberText("PS-", g.patchSet) + rest;
    var afterType := NumberText("GER-", g.gerritId) + afterGerrit;
    if g.patchSet != [] {
      NumberGroupOf("PS-", g.patchSet, rest);
      assert afterGerrit == " " + ("PS-" + (g.patchSet + rest));
    } else {
      assert afterGerrit == rest;
    }
    if g.gerritId != [] {
      NumberGroupOf("GER-", g.gerritId, afterGerrit);
      assert afterType == " " + ("GER-" + (g.gerritId + afterGerrit));
    } else {
      assert afterType == afterGerrit;
      if g.patchSet != [] {
        NumberGroupOther("GER-", "PS-", g.patchSet + rest);
      }
    }
    if g.packageType != [] {
      TypeGroupOf(g.packageType, afterType);
    } else {
      assert TailText(g, rest) == afterType;
      if g.gerritId != [] {
        TypeGroupOther("GER-", g.gerritId + afterGerrit);
      } else if g.patchSet != [] {
        TypeGroupOther("PS-", g.patchSet + rest);
      }
    }
  }

  /** Round trip: the canonical text of any possible match, followed by text that cannot extend it, matches with the same groups. */
  lemma MatchAtRender(g: Groups, rest: string)
    requires WellFormed(g) && TailOk(g, rest)
    ensures MatchAt(Render(g, rest)) == Some((g, rest))
  {
    HeadOf(g, TailText(g, rest));
    TailOf(g, rest);
  }

  /** The search finds that match at the very first position. */
  lemma MatchRender(g: Groups, rest: string)
    requires WellFormed(g) && TailOk(g, rest)
    ensures Match(Render(g, rest)) == Some(g)
  {
    var s := Render(g, rest);
    MatchAtRender(g, rest);
    assert s[0..] == s;
  }

  // ---------------------------------------------------------------------------
  // What a match says about the text it was found in

  predicate NoWhiteSpace(s: string) {
    forall k | 0 <= k < |s| :: !IsWhiteSpace(s[k])
  }


  lemma {:induction false} NormalizeAppend(a: string, b: string)
    ensures Normalize(a + b) == Normalize(a) + Normalize(b)
    decreases |a|
  {
    if a != [] {
      NormalizeAppend(a[1..], b);
      assert (a + b)[1..] == a[1..] + b;
    } else {
      assert a + b == b;
    }
  }

  lemma {:induction false} NormalizeNoWhiteSpace(p: string)
    requires NoWhiteSpace(p)
    ensures Normalize(p) == p
    decreases |p|
  {
    if p != [] {
      NormalizeNoWhiteSpace(p[1..]);
      assert [p[0]] + p[1..] == p;
    }
  }

  lemma NormalizeKeeps(p: string, x: string)
    requires NoWhiteSpace(p)
    ensures Normalize(p + x) == p + Normalize(x)
  {
    NormalizeAppend(p, x);
    NormalizeNoWhiteSpace(p);
  }

  lemma NormalizeSpace(c: char, x: string)
    requires IsWhiteSpace(c)
    ensures Normalize([c] + x) == " " + Normalize(x)
  {
    assert ([c] + x)[1..] == x;
  }

  lemma DigitsNoWhiteSpace(d: string)
    requires AllDigits(d)
    ensures NoWhiteSpace(d)
  {
  }

  /** A digit run read by `Digits` is a digit run without white space, and `s` is it plus the rest. */
  lemma DigitsSound(s: string)
    requires Digits(s).Some?
    ensures var (d, r) := Digits(s).value;
      IsDigitRun(d) && NoWhiteSpace(d) && s == d + r && (r == [] || !IsDigit(r[0]))
  {
    DigitsDigits(s);
    DigitsNoWhiteSpace(Digits(s).value.0);
  }

  /** `\.\d+` */
  lemma DotDigitsSound(s: string)
    requires Literal(s, ".").Some? && Digits(Literal(s, ".").value).Some?
    ensures var (d, r) := Digits(Literal(s, ".").value).value;
      IsDigitRun(d) && NoWhiteSpace(d) && s == "." + (d + r) && (r == [] || !IsDigit(r[0]))
  {
    DigitsSound(Literal(s, ".").value);
  }

  lemma VersionGroupSound(s: string)
    requires VersionGroup(s).Some?
    ensures var (v, r) := VersionGroup(s).value;
      IsVersion(v) && NoWhiteSpace(v) && s == v + r && (r == [] || !IsDigit(r[0]))
  {
    var major := Digits(s).value;
    var minor := Digits(Literal(major.1, ".").value).value;
    var build := Digits(Literal(minor.1, ".").value).value;
    var revision := Digits(Literal(build.1, ".").value).value;
    DigitsSound(s);
    DotDigitsSound(major.1);
    DotDigitsSound(minor.1);
    DotDigitsSound(build.1);
    var v := VersionText(major.0, minor.0, build.0, revision.0);
    assert VersionGroup(s) == Some((v, revision.1));
    assert s == v + revision.1 by {
      VersionTextAppend(major.0, minor.0, build.0, revision.0, revision.1);
    }
    NoWhiteSpaceVersion(major.0, minor.0, build.0, revision.0);
  }

  lemma VersionTextAppend(major: string, minor: string, build: string, revision: string, rest: string)
    ensures VersionText(major, minor, build, revision) + rest
         == major + ("." + (minor + ("." + (build + ("." + (revision + rest))))))
  {
  }

  lemma NoWhiteSpaceVersion(major: string, minor: string, build: string, revision: string)
    requires NoWhiteSpace(major) && NoWhiteSpace(minor) && NoWhiteSpace(build) && NoWhiteSpace(revision)
    ensures NoWhiteSpace(VersionText(major, minor, build, revision))
  {
  }

  lemma CuGroupSound(s: string)
    requires CuGroup(s).Some?
    ensures var (cu, r) := CuGroup(s).value;
      cu != [] && AllDigits(cu) && s == CuText(cu) + r && NoWhiteSpace(CuText(cu))
  {
    var afterOpen := Literal(s, "(CU").value;
    var digits := Digits(afterOpen).value;
    var afterClose := Literal(digits.1, ")").value;
    DigitsDigits(afterOpen);
    DigitsNoWhiteSpace(digits.0);
    assert s == ("(CU" + (digits.0 + ")")) + afterClose;
  }

  /** A white-space character, then text without white space, then `r`. */
  lemma SpacedPiece(c: char, p: string, r: string)
    requires IsWhiteSpace(c) && NoWhiteSpace(p)
    ensures Normalize([c] + (p + r)) == (" " + p) + Normalize(r)
  {
    NormalizeSpace(c, p + r);
    NormalizeKeeps(p, r);
  }

  lemma TypeGroupSound(s: string)
    requires TypeGroup(s).Some?
    ensures var (t, r) := TypeGroup(s).value;
      (t == "rc" || t == "internal") && Normalize(s) == TypeText(t) + Normalize(r)
  {
    var (t, r) := TypeGroup(s).value;
    var afterSpace := Space(s).value;
    var afterOpen := Literal(afterSpace, "(").value;
    var name := Choice(afterOpen, "rc", "internal").value;
    assert afterSpace == "(" + (t + (")" + r));
    assert "(" + (t + (")" + r)) == ("(" + (t + ")")) + r;
    SpacedPiece(s[0], "(" + (t + ")"), r);
  }

  lemma NumberGroupSound(s: string, prefix: string)
    requires NoWhiteSpace(prefix) && NumberGroup(s, prefix).Some?
    ensures var (n, r) := NumberGroup(s, prefix).value;
      n != [] && AllDigits(n) && (r == [] || !IsDigit(r[0]))
      && Normalize(s) == NumberText(prefix, n) + Normalize(r)
  {
    var (n, r) := NumberGroup(s, prefix).value;
    var afterPrefix := Literal(Space(s).value, prefix).value;
    DigitsDigits(afterPrefix);
    assert s == [s[0]] + ((prefix + n) + r) by {
      assert afterPrefix == n + r;
    }
    assert NoWhiteSpace(prefix + n) by {
      DigitsNoWhiteSpace(n);
    }
    SpacedPiece(s[0], prefix + n, r);
  }

  lemma NoWhiteSpaceInPattern()
    ensures NoWhiteSpace("DataMiner") && NoWhiteSpace("Upgrade") && NoWhiteSpace("-")
    ensures NoWhiteSpace("Full") && NoWhiteSpace("Web") && NoWhiteSpace("GER-") && NoWhiteSpace("PS-")
  {
  }

  /** One `\s` of the pattern followed by text without white space. */
  lemma SpacedStep(s: string, p: string, r: string)
    requires s != [] && IsWhiteSpace(s[0]) && NoWhiteSpace(p) && s == [s[0]] + (p + r)
    ensures Normalize(s) == " " + (p + Normalize(r))
  {
    SpacedPiece(s[0], p, r);
  }

  /** What the mandatory part of a match says about the text it was read from. */
  lemma HeadSound(s: string)
    requires Head(s).Some?
    ensures var (version, cu, buildNumber, upgradeType, r) := Head(s).value;
      && IsVersion(version) && OptionalDigits(cu) && IsDigitRun(buildNumber)
      && (upgradeType == "Full" || upgradeType == "Web")
      && Normalize(s) == HeadText(Groups(version, cu, buildNumber, upgradeType, "", "", ""), Normalize(r))
  {
    var afterName := Literal(s, "DataMiner").value;
    var afterSpace := Space(afterName).value;
    var version := VersionGroup(afterSpace).value;
    var cu := Optional(CuGroup(version.1), version.1);
    var afterDash := Literal(cu.1, "-").value;
    var build := Digits(afterDash).value;
    var afterBuild := Space(build.1).value;
    var upgrade := UpgradeTypeGroup(afterBuild).value;
    var afterUpgradeType := Space(upgrade.1).value;
    var r := Literal(afterUpgradeType, "Upgrade").value;
    NoWhiteSpaceInPattern();
    VersionGroupSound(afterSpace);
    DigitsSound(afterDash);
    var g := Groups(version.0, cu.0, build.0, upgrade.0, "", "", "");
    var n1 := " " + ("Upgrade" + Normalize(r));
    assert Normalize(upgrade.1) == n1 by {
      SpacedStep(upgrade.1, "Upgrade", r);
    }
    var n2 := upgrade.0 + n1;
    assert Normalize(afterBuild) == n2 by {
      NormalizeKeeps(upgrade.0, upgrade.1);
    }
    var n3 := build.0 + (" " + n2);
    assert Normalize(afterDash) == n3 by {
      NormalizeKeeps(build.0, build.1);
      NormalizeSpace(build.1[0], afterBuild);
    }
    var n4 := CuText(cu.0) + ("-" + n3);
    assert Normalize(version.1) == n4 by {
      NormalizeKeeps("-", afterDash);
      if CuGroup(version.1).Some? {
        CuGroupSound(version.1);
        NormalizeKeeps(CuText(cu.0), cu.1);
      }
    }
    var n5 := version.0 + n4;
    assert Normalize(afterSpace) == n5 by {
      NormalizeKeeps(version.0, version.1);
    }
    assert Normalize(s) == "DataMiner" + (" " + n5) by {
      NormalizeKeeps("DataMiner", afterName);
      NormalizeSpace(afterName[0], afterSpace);
    }
    assert cu.0 != [] ==> AllDigits(cu.0) by {
      if CuGroup(version.1).Some? {
        CuGroupSound(version.1);
      }
    }
  }

  /** `(?:\sGER-(?<GER>\d+))?` or `(?:\sPS-(?<PS>\d+))?` at the start of `s`. */
  lemma OptionalNumberSound(s: string, prefix: string)
    requires NoWhiteSpace(prefix)
    ensures var (n, r) := Optional(NumberGroup(s, prefix), s);
      && OptionalDigits(n)
      && (n != [] && r != [] ==> !IsDigit(r[0]))
      && (n == [] ==> r == s && NumberGroup(s, prefix).None?)
      && Normalize(s) == NumberText(prefix, n) + Normalize(r)
  {
    if NumberGroup(s, prefix).Some? {
      NumberGroupSound(s, prefix);
    }
  }

  /** `(?:\s\((?<Type>rc|internal)\))?` at the start of `s`. */
  lemma OptionalTypeSound(s: string)
    ensures var (t, r) := Optional(TypeGroup(s), s);
      && (t == [] || t == "rc" || t == "internal")
      && (t == [] ==> r == s && TypeGroup(s).None?)
      && Normalize(s) == TypeText(t) + Normalize(r)
  {
    if TypeGroup(s).Some? {
      TypeGroupSound(s);
    }
  }

  /** What the optional part of a match says about the text it was read from. */
  lemma TailSound(s: string)
    ensures var (packageType, gerritId, patchSet, r) := OptionalGroups(s);
      var g := Groups("", "", "", "", packageType, gerritId, patchSet);
      && (packageType == [] || packageType == "rc" || packageType == "internal")
      && OptionalDigits(gerritId) && OptionalDigits(patchSet)
      && TailOk(g, r)
      && Normalize(s) == TailText(g, Normalize(r))
  {
    NoWhiteSpaceInPattern();
    var packageType := Optional(TypeGroup(s), s);
    var gerrit := Optional(NumberGroup(packageType.1, "GER-"), packageType.1);
    var patchSet := Optional(NumberGroup(gerrit.1, "PS-"), gerrit.1);
    OptionalTypeSound(s);
    OptionalNumberSound(packageType.1, "GER-");
    OptionalNumberSound(gerrit.1, "PS-");
  }

  /**
   * Soundness: a match at the start of `s` has group values a match can have, the text after
   * it cannot extend it, and up to the kind of white space `s` begins with the canonical text
   * of those groups.
   */
  lemma MatchAtSound(s: string)
    requires MatchAt(s).Some?
    ensures var (g, rest) := MatchAt(s).value;
      WellFormed(g) && TailOk(g, rest) && Normalize(s) == Render(g, Normalize(rest))
  {
    var head := Head(s).value;
    HeadSound(s);
    TailSound(head.4);
  }

  /** The pattern begins with the literal `DataMiner`: a text without a `D` never matches. */
  lemma MatchNeedsName(s: string)
    ensures Match(s).Some? ==> 'D' in s
  {
    var found := FirstMatch(s, 0, MatchAt);
    if found.Some? {
      var j := found.value.0;
      assert StartsWith(s[j..], "DataMiner");
      assert s[j] == 'D';
    }
  }

  /** The groups of any match, wherever in `s` it starts, have values a match can have. */
  lemma MatchSound(s: string)
    requires Match(s).Some?
    ensures WellFormed(Match(s).value)
  {
    var found := FirstMatch(s, 0, MatchAt).value;
    MatchAtSound(s[found.0..]);
  }

  /** The canonical text is the canonical text of the match alone, then `rest`. */
  lemma RenderAppend(g: Groups, rest: string)
    ensures Render(g, rest) == Render(g, []) + rest
  {
    var tail := NumberText("PS-", g.patchSet);
    assert TailText(g, rest) == TailText(g, []) + rest by {
      assert tail + rest == (tail + []) + rest;
      assert NumberText("GER-", g.gerritId) + (tail + rest) == (NumberText("GER-", g.gerritId) + (tail + [])) + rest;
    }
    var t := TailText(g, []);
    var upgrade := " " + (g.upgradeType + (" " + "Upgrade"));
    assert " " + (g.upgradeType + (" " + ("Upgrade" + (t + rest)))) == (upgrade + t) + rest;
    var build := "-" + (g.buildNumber + upgrade);
    assert "-" + (g.buildNumber + ((upgrade + t) + rest)) == (build + t) + rest;
    var prefix := "DataMiner" + (" " + (g.version + CuText(g.cu)));
    assert Render(g, rest) == prefix + ((build + t) + rest);
    assert Render(g, []) == prefix + (build + t);
  }
}
