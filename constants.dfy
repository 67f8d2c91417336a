/** The names of the blob tags that the upload writes and the tag filter queries. */
module Constants {

  const BuildNumberTagName: string := "BuildNumber"
  const CuTagName: string := "CU"
  const GerritIdTagName: string := "GerritId"
  const PatchSetTagName: string := "PatchSet"
  const TypeTagName: string := "Type"
  const UpgradeTypeTagName: string := "UpgradeType"
  const VersionTagName: string := "Version"

  /** The seven names, in the order the download commands add their filters. */
  const TagNames: seq<string> :=
    [VersionTagName, BuildNumberTagName, CuTagName, GerritIdTagName, PatchSetTagName, TypeTagName, UpgradeTypeTagName]

  /** The seven names are pairwise distinct, and none holds a quote of either kind. */
  lemma TagNamesWellFormed()
    ensures |TagNames| == 7
    ensures forall i, j | 0 <= i < j < |TagNames| :: TagNames[i] != TagNames[j]
    ensures forall i | 0 <= i < |TagNames| :: '\'' !in TagNames[i] && '"' !in TagNames[i]
  {
  }
}
