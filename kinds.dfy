/** The two enumerations of the package model, with the text C#'s `ToString()` and `Enum.TryParse` use. */
module Kinds {

  import opened Wrappers

  /** What kind of package this is. */
  datatype PackageType = Standard | Rc | Internal

  /** What kind of upgrade the package performs. */
  datatype UpgradeType = Full | Partial | Web

  /** `PackageType.ToString()`: the member name. */
  function PackageTypeName(t: PackageType): string {
    match t
    case Standard => "Standard"
    case Rc => "Rc"
    case Internal => "Internal"
  }

  /** `UpgradeType.ToString()`: the member name. */
  function UpgradeTypeName(u: UpgradeType): string {
    match u
    case Full => "Full"
    case Partial => "Partial"
    case Web => "Web"
  }

  function ToUpperAscii(c: char): char {
    if 'a' <= c <= 'z' then (c as int - 32) as char else c
  }

  /** Ordinal comparison that ignores the case of ASCII letters. */
  predicate EqualsIgnoreCase(a: string, b: string) {
    |a| == |b| && forall k | 0 <= k < |a| :: ToUpperAscii(a[k]) == ToUpperAscii(b[k])
  }

  /** `Enum.TryParse<PackageType>(text, ignoreCase: true, out _)` on member names. */
  function ParsePackageType(text: string): (r: Option<PackageType>)
    ensures r.Some? ==> EqualsIgnoreCase(text, PackageTypeName(r.value))
    ensures r.None? ==> forall t: PackageType :: !EqualsIgnoreCase(text, PackageTypeName(t))
  {
    if EqualsIgnoreCase(text, "Standard") then Some(Standard)
    else if EqualsIgnoreCase(text, "Rc") then Some(Rc)
    else if EqualsIgnoreCase(text, "Internal") then Some(Internal)
    else None
  }

  /** `Enum.TryParse<UpgradeType>(text, ignoreCase: true, out _)` on member names. */
  function ParseUpgradeType(text: string): (r: Option<UpgradeType>)
    ensures r.Some? ==> EqualsIgnoreCase(text, UpgradeTypeName(r.value))
    ensures r.None? ==> forall u: UpgradeType :: !EqualsIgnoreCase(text, UpgradeTypeName(u))
  {
    if EqualsIgnoreCase(text, "Full") then Some(Full)
    else if EqualsIgnoreCase(text, "Partial") then Some(Partial)
    else if EqualsIgnoreCase(text, "Web") then Some(Web)
    else None
  }

  /** Parsing a member's own name gives that member back, so the names are pairwise distinct. */
  lemma PackageTypeNameRoundTrip(t: PackageType)
    ensures ParsePackageType(PackageTypeName(t)) == Some(t)
  {
    assert ToUpperAscii("Internal"[0]) != ToUpperAscii("Standard"[0]);
  }

  lemma UpgradeTypeNameRoundTrip(u: UpgradeType)
    ensures ParseUpgradeType(UpgradeTypeName(u)) == Some(u)
  {
  }

  /** The lower-case spellings the package-name pattern accepts. */
  lemma LowerCaseKinds()
    ensures ParsePackageType("rc") == Some(Rc)
    ensures ParsePackageType("internal") == Some(Internal)
    ensures ParsePackageType("") == None
    ensures ParseUpgradeType("Full") == Some(Full)
    ensures ParseUpgradeType("Web") == Some(Web)
  {
    assert !EqualsIgnoreCase("rc", "Standard");
    assert EqualsIgnoreCase("rc", "Rc");
    assert ToUpperAscii("internal"[0]) != ToUpperAscii("Standard"[0]);
    assert !EqualsIgnoreCase("internal", "Rc");
    assert EqualsIgnoreCase("internal", "Internal");
  }
}
