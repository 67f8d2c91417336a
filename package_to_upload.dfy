/**
 * The package model and `PackageToUpload.FromFile`, which reads a package's
 * version, CU, build number, upgrade type, package type, Gerrit ID and patch set
 * from the name of its `.dmupgrade` file.
 */
module PackageToUpload {

  import opened Wrappers
  import opened Exceptions
  import opened Text
  import opened Numbers
  import opened Kinds
  import opened FileNameRegex

  /** A file on disk: its name without directories, and whether it exists. */
  datatype FileInfo = FileInfo(name: string, onDisk: bool)

  const PackageExtension: string := ".dmupgrade"

  /**
   * The extension of a name without directories, as `Path.GetExtension` computes
   * it: from the last dot to the end, or empty when there is no dot or the name
   * ends with it. `FileInfo.Extension` gives "." for a name ending with a dot, so
   * the two differ only there, and they agree on every comparison with
   * `.dmupgrade`.
   */
  function Extension(name: string): (r: string)
    ensures r == [] <==> '.' !in name || name[|name| - 1] == '.'
    ensures r != [] ==> |r| >= 2 && r[0] == '.' && '.' !in r[1..] && EndsWith(name, r)
  {
    match LastIndexOf(name, '.')
    case None => []
    case Some(i) =>
      if i == |name| - 1 then []
      else
        assert name[i..][1..] == name[i + 1..];
        name[i..]
  }

  /** The extension check accepts exactly the names that end with `.dmupgrade`. */
  lemma ExtensionIsPackage(name: string)
    ensures Extension(name) == PackageExtension <==> EndsWith(name, PackageExtension)
  {
    if EndsWith(name, PackageExtension) {
      var start := |name| - |PackageExtension|;
      assert name[start..] == PackageExtension;
      assert name[start] == '.' by {
        assert name[start..][0] == PackageExtension[0];
      }
      assert '.' !in name[start + 1..] by {
        assert name[start + 1..] == PackageExtension[1..];
      }
    }
  }

  /** What is uploaded: the file and the properties the store tags it with. */
  datatype Package = Package(
    packageFile: FileInfo,
    version: string,
    buildNumber: uint32,
    cu: Option<uint32>,
    gerritId: Option<uint32>,
    patchSet: Option<uint32>,
    packageType: PackageType,
    upgradeType: Option<UpgradeType>)

  /**
   * `PackageToUpload.FromFile`: an `InvalidDataException` when the extension is not
   * `.dmupgrade`, no package when the name does not match, an `OverflowException`
   * when the build number does not fit a `uint`, and otherwise the package with the
   * optional numbers absent when their group is absent or too large.
   */
  function FromFile(file: FileInfo): (r: Result<Option<Package>, Exception>)
    ensures r.Success? && r.value.Some? ==> r.value.value.packageFile == file
  {
    if Extension(file.name) != PackageExtension then Failure(InvalidDataException)
    else
      match Match(file.name)
      case None => Success(None)
      case Some(g) =>
        var buildNumber :- Parse(g.buildNumber);
        var packageType := ParsePackageType(g.packageType);
        Success(Some(Package(
          file, g.version, buildNumber, TryParse(g.cu), TryParse(g.gerritId), TryParse(g.patchSet),
          if packageType.Some? then packageType.value else Standard,
          ParseUpgradeType(g.upgradeType))))
  }

  /** The three outcomes that are not a package, each with its cause. */
  lemma FromFileOutcomes(file: FileInfo)
    ensures FromFile(file) == Failure(InvalidDataException) <==> !EndsWith(file.name, PackageExtension)
    ensures FromFile(file) == Success(None) <==> EndsWith(file.name, PackageExtension) && Match(file.name).None?
    ensures FromFile(file) == Failure(OverflowException)
        <==> EndsWith(file.name, PackageExtension) && Match(file.name).Some?
             && TryParse(Match(file.name).value.buildNumber).None?
    ensures FromFile(file).Failure? ==> FromFile(file).error in {InvalidDataException, OverflowException}
  {
    ExtensionIsPackage(file.name);
    if Extension(file.name) == PackageExtension && Match(file.name).Some? {
      MatchSound(file.name);
    }
  }

  /**
   * A package read from a name keeps the file and the matched version, a four-part
   * one; its build number is the value of the build-number digits; its upgrade type
   * is the one the name spells, Full or Web (never Partial, never absent); its type is
   * Rc for `(rc)`, Internal for `(internal)` and Standard without either; and each
   * optional number is present exactly when its group is present and fits, and then
   * has the value of the group's digits, leading zeros included.
   */
  lemma FromFileFields(file: FileInfo)
    requires FromFile(file).Success? && FromFile(file).value.Some?
    ensures var p := FromFile(file).value.value;
      var g := Match(file.name).value;
      && p.packageFile == file
      && p.version == g.version && IsVersion(p.version)
      && IsDigitRun(g.buildNumber) && p.buildNumber as int == DigitsValue(g.buildNumber)
      && p.upgradeType == Some(if g.upgradeType == "Full" then Full else Web)
      && (g.upgradeType == "Full" || g.upgradeType == "Web")
      && p.packageType == (if g.packageType == "rc" then Rc else if g.packageType == "internal" then Internal else Standard)
      && (p.packageType == Standard <==> g.packageType == [])
      && OptionalDigits(g.cu) && (p.cu.Some? <==> g.cu != [] && DigitsValue(g.cu) <= UInt32MaxValue)
      && (p.cu.Some? ==> p.cu.value as int == DigitsValue(g.cu))
      && OptionalDigits(g.gerritId) && (p.gerritId.Some? <==> g.gerritId != [] && DigitsValue(g.gerritId) <= UInt32MaxValue)
      && (p.gerritId.Some? ==> p.gerritId.value as int == DigitsValue(g.gerritId))
      && OptionalDigits(g.patchSet) && (p.patchSet.Some? <==> g.patchSet != [] && DigitsValue(g.patchSet) <= UInt32MaxValue)
      && (p.patchSet.Some? ==> p.patchSet.value as int == DigitsValue(g.patchSet))
  {
    MatchSound(file.name);
    LowerCaseKinds();
  }

  // ---------------------------------------------------------------------------
  // The file name of a package

  function OptionalDecimal(n: Option<uint32>): string {
    if n.Some? then ToDecimal(n.value as nat) else []
  }

  /** How the package type is written in a file name: not at all for a standard package. */
  function PackageTypeText(t: PackageType): (r: string)
    ensures ParsePackageType(r) == (if t == Standard then None else Some(t))
  {
    LowerCaseKinds();
    match t
    case Standard => []
    case Rc => "rc"
    case Internal => "internal"
  }

  /** A package the file-name pattern can describe. */
  ghost predicate Nameable(p: Package) {
    IsVersion(p.version) && (p.upgradeType == Some(Full) || p.upgradeType == Some(Web))
  }

  /** The groups of the canonical name of `p`. */
  function NameGroups(p: Package): Groups
    requires p.upgradeType.Some?
  {
    Groups(p.version, OptionalDecimal(p.cu), ToDecimal(p.buildNumber as nat),
      UpgradeTypeName(p.upgradeType.value), PackageTypeText(p.packageType),
      OptionalDecimal(p.gerritId), OptionalDecimal(p.patchSet))
  }

  /**
   * A file name for `p`: the canonical text of its properties, then a free-form
   * `note`, then the extension. The note must not be readable as part of the
   * match, which `NoteFits` states.
   */
  function FileName(p: Package, note: string): string
    requires p.upgradeType.Some?
  {
    Render(NameGroups(p), note + PackageExtension)
  }

  /** The note after the properties of `p` cannot be taken into the match. */
  predicate NoteFits(p: Package, note: string)
    requires p.upgradeType.Some?
  {
    TailOk(NameGroups(p), note + PackageExtension)
  }

  /** Without a note, every package the pattern can describe has a file name. */
  lemma NameGroupsWellFormed(p: Package)
    requires Nameable(p)
    ensures WellFormed(NameGroups(p)) && NoteFits(p, [])
  {
    assert [] + PackageExtension == PackageExtension;
  }

  /** Reading a file name of a package gives that package back. */
  lemma FromFileRoundTrip(p: Package, note: string)
    requires Nameable(p) && NoteFits(p, note) && p.packageFile.name == FileName(p, note)
    ensures FromFile(p.packageFile) == Success(Some(p))
  {
    var g := NameGroups(p);
    NameGroupsWellFormed(p);
    MatchRender(g, note + PackageExtension);
    RenderedExtension(g, note);
    ParseDecimal(p.buildNumber);
    OptionalDecimalRoundTrip(p.cu);
    OptionalDecimalRoundTrip(p.gerritId);
    OptionalDecimalRoundTrip(p.patchSet);
    UpgradeTypeNameRoundTrip(p.upgradeType.value);
  }

  lemma RenderedExtension(g: Groups, note: string)
    ensures Extension(Render(g, note + PackageExtension)) == PackageExtension
  {
    var rendered := Render(g, note + PackageExtension);
    assert EndsWith(rendered, PackageExtension) by {
      RenderAppend(g, note + PackageExtension);
      var prefix := Render(g, []) + note;
      assert rendered == prefix + PackageExtension;
      assert (prefix + PackageExtension)[|prefix|..] == PackageExtension;
    }
    ExtensionIsPackage(rendered);
  }

  lemma ParseDecimal(n: uint32)
    ensures Parse(ToDecimal(n as nat)) == Success(n)
  {
    TryParseToDecimal(n);
  }

  lemma OptionalDecimalRoundTrip(n: Option<uint32>)
    ensures TryParse(OptionalDecimal(n)) == n
  {
    if n.Some? {
      TryParseToDecimal(n.value);
    }
  }

  /** A file name determines the package: two packages named by the same file are equal. */
  lemma FileNameInjective(p: Package, q: Package, noteP: string, noteQ: string)
    requires Nameable(p) && NoteFits(p, noteP) && Nameable(q) && NoteFits(q, noteQ)
    requires p.packageFile == q.packageFile
    requires p.packageFile.name == FileName(p, noteP) && q.packageFile.name == FileName(q, noteQ)
    ensures p == q
  {
    FromFileRoundTrip(p, noteP);
    FromFileRoundTrip(q, noteQ);
  }

  // ---------------------------------------------------------------------------
  // Names from the package-name tests

  lemma NoMatchExample(onDisk: bool)
    ensures FromFile(FileInfo("invalid file" + PackageExtension, onDisk)) == Success(None)
  {
    var name := "invalid file" + PackageExtension;
    assert EndsWith(name, PackageExtension) by {
      assert name[|"invalid file"|..] == PackageExtension;
    }
    assert 'D' !in name;
    MatchNeedsName(name);
    FromFileOutcomes(FileInfo(name, onDisk));
  }

  /** The canonical text of a match with none of the optional groups. */
  lemma RenderHeadOnly(version: string, buildNumber: string, upgradeType: string, rest: string)
    ensures Render(Groups(version, "", buildNumber, upgradeType, "", "", ""), rest)
         == "DataMiner" + (" " + (version + ("-" + (buildNumber
              + (" " + (upgradeType + (" " + ("Upgrade" + rest))))))))
  {
  }

  lemma Decimal15384()
    ensures ToDecimal(15384) == "15384"
  {
  }

  lemma NoGroupsExample(onDisk: bool)
    ensures var name := "DataMiner" + (" " + ("10.5.6.0" + ("-" + ("15384"
      + (" " + ("Full" + (" " + ("Upgrade" + PackageExtension))))))));
      FromFile(FileInfo(name, onDisk))
      == Success(Some(Package(FileInfo(name, onDisk), "10.5.6.0", 15384, None, None, None, Standard, Some(Full))))
  {
    var name := "DataMiner" + (" " + ("10.5.6.0" + ("-" + ("15384"
      + (" " + ("Full" + (" " + ("Upgrade" + PackageExtension))))))));
    var p := Package(FileInfo(name, onDisk), "10.5.6.0", 15384, None, None, None, Standard, Some(Full));
    assert IsVersion("10.5.6.0") by {
      assert "10.5.6.0" == VersionText("10", "5", "6", "0");
    }
    Decimal15384();
    assert NameGroups(p) == Groups("10.5.6.0", "", "15384", "Full", "", "", "");
    assert [] + PackageExtension == PackageExtension;
    RenderHeadOnly("10.5.6.0", "15384", "Full", PackageExtension);
    NameGroupsWellFormed(p);
    FromFileRoundTrip(p, []);
  }

  /** The canonical text of a match with every group but the CU. */
  lemma RenderAllButCu(version: string, buildNumber: string, upgradeType: string, packageType: string,
                       gerritId: string, patchSet: string, rest: string)
    requires packageType != [] && gerritId != [] && patchSet != []
    ensures Render(Groups(version, "", buildNumber, upgradeType, packageType, gerritId, patchSet), rest)
         == "DataMiner" + (" " + (version + ("-" + (buildNumber + (" " + (upgradeType
              + (" " + ("Upgrade" + (" (" + (packageType + (")" + (" " + ("GER-" + (gerritId
              + (" " + ("PS-" + (patchSet + rest)))))))))))))))))
  {
  }

  lemma RandomTextDecimals()
    ensures ToDecimal(15596) == "15596" && ToDecimal(99162) == "99162" && ToDecimal(19) == "19"
  {
  }

  /** A trailing patch set followed by free text that starts with a space. */
  lemma RandomTextExample(onDisk: bool)
    ensures var name := "DataMiner" + (" " + ("10.5.5.0" + ("-" + ("15596" + (" " + ("Full"
      + (" " + ("Upgrade" + (" (" + ("rc" + (")" + (" " + ("GER-" + ("99162" + (" " + ("PS-" + ("19"
      + (" - random text" + PackageExtension))))))))))))))))));
      FromFile(FileInfo(name, onDisk))
      == Success(Some(Package(FileInfo(name, onDisk), "10.5.5.0", 15596, None, Some(99162), Some(19), Rc, Some(Full))))
  {
    var name := "DataMiner" + (" " + ("10.5.5.0" + ("-" + ("15596" + (" " + ("Full"
      + (" " + ("Upgrade" + (" (" + ("rc" + (")" + (" " + ("GER-" + ("99162" + (" " + ("PS-" + ("19"
      + (" - random text" + PackageExtension))))))))))))))))));
    var p := Package(FileInfo(name, onDisk), "10.5.5.0", 15596, None, Some(99162), Some(19), Rc, Some(Full));
    assert IsVersion("10.5.5.0") by {
      assert "10.5.5.0" == VersionText("10", "5", "5", "0");
    }
    RandomTextDecimals();
    var g := Groups("10.5.5.0", "", "15596", "Full", "rc", "99162", "19");
    assert NameGroups(p) == g;
    RenderAllButCu("10.5.5.0", "15596", "Full", "rc", "99162", "19", " - random text" + PackageExtension);
    assert NoteFits(p, " - random text");
    FromFileRoundTrip(p, " - random text");
  }

  /** The canonical text of a match with a CU and none of the optional groups. */
  lemma RenderWithCu(version: string, cu: string, buildNumber: string, upgradeType: string, rest: string)
    requires cu != []
    ensures Render(Groups(version, cu, buildNumber, upgradeType, "", "", ""), rest)
         == "DataMiner" + (" " + (version + ("(CU" + (cu + (")" + ("-" + (buildNumber
              + (" " + (upgradeType + (" " + ("Upgrade" + rest)))))))))))
  {
  }

  /** A parenthesised word other than `rc` or `internal` is not a package type. */
  lemma UnknownTypeNote(word: string, rest: string)
    requires word != [] && word[0] != 'r' && word[0] != 'i' && word[0] != 'G' && word[0] != 'P'
    ensures TypeGroup(" " + ("(" + (word + rest))).None?
    ensures NumberGroup(" " + ("(" + (word + rest)), "GER-").None?
    ensures NumberGroup(" " + ("(" + (word + rest)), "PS-").None?
  {
    LiteralOf("(", word + rest);
    StartsDiffer(word + rest, "rc");
    StartsDiffer(word + rest, "internal");
    StartsDiffer("(" + (word + rest), "GER-");
    StartsDiffer("(" + (word + rest), "PS-");
  }

  lemma Decimal186()
    ensures ToDecimal(186) == "186"
  {
  }

  lemma Decimal99999999()
    ensures ToDecimal(99999999) == "99999999"
  {
  }

  /** An unknown package type in parentheses stays in the text after the match: the type is Standard. */
  lemma UnknownTypeExample(onDisk: bool)
    ensures var name := "DataMiner" + (" " + ("1.2.3.4" + ("(CU" + ("186" + (")" + ("-" + ("99999999"
      + (" " + ("Full" + (" " + ("Upgrade" + (" (blabla)" + PackageExtension))))))))))));
      FromFile(FileInfo(name, onDisk))
      == Success(Some(Package(FileInfo(name, onDisk), "1.2.3.4", 99999999, Some(186), None, None, Standard, Some(Full))))
  {
    var name := "DataMiner" + (" " + ("1.2.3.4" + ("(CU" + ("186" + (")" + ("-" + ("99999999"
      + (" " + ("Full" + (" " + ("Upgrade" + (" (blabla)" + PackageExtension))))))))))));
    var p := Package(FileInfo(name, onDisk), "1.2.3.4", 99999999, Some(186), None, None, Standard, Some(Full));
    assert IsVersion("1.2.3.4") by {
      assert "1.2.3.4" == VersionText("1", "2", "3", "4");
    }
    Decimal186();
    Decimal99999999();
    var g := Groups("1.2.3.4", "186", "99999999", "Full", "", "", "");
    assert NameGroups(p) == g;
    RenderWithCu("1.2.3.4", "186", "99999999", "Full", " (blabla)" + PackageExtension);
    assert " (blabla)" + PackageExtension == " " + ("(" + ("blabla)" + PackageExtension));
    UnknownTypeNote("blabla)", PackageExtension);
    FromFileRoundTrip(p, " (blabla)");
  }
}
