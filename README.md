# DmUpgradeStorage in Dafny

A model of the core of the DataMiner CI/CD tool that stores upgrade packages (`.dmupgrade` files) in
an Azure blob container.

- **File names.** `PackageToUpload.FromFile` reads a package's properties from its file name: version,
  CU, build number, upgrade type, package type, Gerrit ID and patch set. It does this with one regular
  expression, modelled here as a deterministic scanner (`FileNameRegex`).
- **Upload tags.** An upload stores the package under its file name, with the seven properties as blob
  index tags (`Constants`).
- **Download filters.** The download commands build a tag query from their options with
  `PackageTagFilter`. Behind it is `BlobTagFilterBuilder`, which renders `"<tag>" = '<value>'` fragments
  joined by `AND`.
- **The service.** `DmUpgradeStorageService` authenticates and chooses a container from arguments,
  user secrets and environment variables. It sets itself up lazily, refuses empty filters, picks one
  of the found blobs as the latest, deletes blobs and uploads.
- **The upload command.** It merges its command-line options over the properties read from the file
  name and maps the outcome to an exit code.

Modules, one per file:

| file | module | what it holds |
|---|---|---|
| `wrappers.dfy` | `Wrappers`, `Exceptions` | `Option` for nullable values, `Result` and `Outcome` for a value or a thrown exception, and the exceptions thrown |
| `text.dfy` | `Text` | white space as `char.IsWhiteSpace` defines it, digits, `String.Join`, `LastIndexOf` |
| `numbers.dfy` | `Numbers` | `uint`, its decimal `ToString`, `UInt32.Parse` and `UInt32.TryParse` |
| `kinds.dfy` | `Kinds` | `PackageType` and `UpgradeType`, their names and `Enum.TryParse` ignoring case |
| `constants.dfy` | `Constants` | the seven tag names |
| `file_name_regex.dfy` | `FileNameRegex` | the file-name pattern as a scanner, its canonical text `Render` and soundness and round-trip lemmas |
| `package_to_upload.dfy` | `PackageToUpload` | the package record, `Extension`, `FromFile`, and the named examples of the package tests |
| `tag_filter.dfy` | `TagFilter` | escaping, conditions and their text, the classes `BlobTagFilterBuilder` and `PackageTagFilter` |
| `latest_selection.dfy` | `LatestSelection` | the selection loop of `DownloadLatestBlobAsync`, as written and corrected |
| `storage_service.dfy` | `StorageService` | setting resolution, client choice, the storage account, upload tags, the class `DmUpgradeStorageService` |
| `download_by_tag.dfy` | `DownloadByTag` | `GetFilter` of the download-by-tag commands, and how its filter matches uploaded tags |
| `upload_command.dfy` | `UploadCommand` | `CreateUploadPackage` and `InvokeAsync` of the `upload` command |

State that the source changes in place keeps its imperative form:
- The two builders and the storage service are classes whose methods update their fields.
- `PackageTagFilter` keeps a ghost list `predicates`: the conditions added so far. Its invariant
  `Valid()` ties that list to the builder's fragment list and to `containsExpression`.
- `GetFilter` calls the `With…` methods on one filter. Each of its seven `if`s is one small method,
  `AddVersion` to `AddUpgradeType`, and each is proved against the specification `Requested`.
- `CreateUploadPackage` overwrites a package's properties one after the other. It is proved against the
  single-expression specification `Merged`.
- The selection loop is a `for` loop proved against `LastAfterMin` (as written, used by `DownloadLatestByTagsAsync`) and `Newest` (corrected, used by `DownloadNewestByTagsAsync`).

## Model

Source paths are relative to the repository root.

| member | source | states |
|---|---|---|
| Numbers.ToDecimal | CICD.Tools.DmUpgradeStorage.Lib/Services/DmUpgradeUploadService.cs:296-299 | `uint.ToString()` is a non-empty run of decimal digits without a leading zero |
| Numbers.TryParse | CICD.Tools.DmUpgradeStorage.Lib/Models/PackageToUpload.cs:78-80 | on the digit runs or empty strings the pattern's groups yield, `UInt32.TryParse` succeeds exactly on a non-empty digit run whose value is at most `uint.MaxValue`, and gives that value |
| Numbers.Parse | CICD.Tools.DmUpgradeStorage.Lib/Models/PackageToUpload.cs:77 | on the digit runs or empty strings the pattern's groups yield, `UInt32.Parse` succeeds exactly when `TryParse` does, with the same value; it throws `OverflowException` on a digit run that is too large and `FormatException` on the empty string |
| Numbers.DecimalRoundTrip | CICD.Tools.DmUpgradeStorage.Lib/Services/DmUpgradeUploadService.cs:296 | the digits `ToString` writes denote the number |
| Numbers.CanonicalDigits | CICD.Tools.DmUpgradeStorage.Lib/Models/PackageToUpload.cs:77-80 | a digit run without a leading zero is the `ToString` text of its value |
| Numbers.ToDecimalInjective | CICD.Tools.DmUpgradeStorage.Lib/Services/DmUpgradeUploadService.cs:296-299 | two numbers with the same text are equal |
| Numbers.TryParseToDecimal | CICD.Tools.DmUpgradeStorage.Lib/Services/DmUpgradeUploadService.cs:296-299 | `TryParse` reads back what `ToString` wrote |
| Kinds.ParsePackageType | CICD.Tools.DmUpgradeStorage.Lib/Models/PackageToUpload.cs:81 | `Enum.TryParse` ignoring case gives a type exactly when the text equals that type's name up to case, and nothing when it matches no name |
| Kinds.ParseUpgradeType | CICD.Tools.DmUpgradeStorage.Lib/Models/PackageToUpload.cs:82 | the same for the upgrade type |
| Kinds.PackageTypeNameRoundTrip | CICD.Tools.DmUpgradeStorage.Lib/Services/DmUpgradeUploadService.cs:300 | parsing the name `ToString` writes for a package type gives the type back |
| Kinds.UpgradeTypeNameRoundTrip | CICD.Tools.DmUpgradeStorage.Lib/Services/DmUpgradeUploadService.cs:301 | parsing the name of an upgrade type gives it back |
| Kinds.LowerCaseKinds | CICD.Tools.DmUpgradeStorage.Lib/Models/PackageToUpload.cs:81-82 | the spellings `rc` and `internal` parse as Rc and Internal, the empty type group as nothing, and `Full` and `Web` as themselves |
| Text.JoinWith | CICD.Tools.DmUpgradeStorage.Lib/BlobTagFilterBuilder.cs:125 | joining no items gives the empty string, and joining one item gives that item |
| Constants.TagNamesWellFormed | CICD.Tools.DmUpgradeStorage.Lib/Constants.cs:8-38 | the seven tag names are pairwise distinct and hold no quote character |
| FileNameRegex.FirstMatch | CICD.Tools.DmUpgradeStorage.Lib/Models/PackageToUpload.cs:69 | `Regex.Match` returns the leftmost start at which the pattern matches, and every earlier start fails |
| FileNameRegex.MatchAtRender | CICD.Tools.DmUpgradeStorage.Lib/Models/PackageToUpload.cs:89 | the canonical text of any possible group values, followed by text that cannot extend the match, matches with exactly those groups |
| FileNameRegex.MatchRender | CICD.Tools.DmUpgradeStorage.Lib/Models/PackageToUpload.cs:89 | the unanchored search finds those groups |
| FileNameRegex.MatchAtSound | CICD.Tools.DmUpgradeStorage.Lib/Models/PackageToUpload.cs:89 | a match has group values the pattern allows, the rest cannot extend it, and it equals the canonical text of its groups up to the kind of white space |
| FileNameRegex.MatchSound | CICD.Tools.DmUpgradeStorage.Lib/Models/PackageToUpload.cs:89 | the groups of the match found anywhere in a name are values the pattern allows: a four-part version, digit runs, `Full` or `Web`, and `rc`, `internal` or no type |
| FileNameRegex.MatchNeedsName | CICD.Tools.DmUpgradeStorage.Lib/Models/PackageToUpload.cs:89 | a name without a `D` never matches |
| PackageToUpload.Extension | CICD.Tools.DmUpgradeStorage.Lib/Models/PackageToUpload.cs:64 | the extension, as `Path.GetExtension` computes it, is empty exactly when there is no dot or the dot is last, and otherwise runs from the last dot to the end; this agrees with `FileInfo.Extension` on every comparison with `.dmupgrade` |
| PackageToUpload.ExtensionIsPackage | CICD.Tools.DmUpgradeStorage.Lib/Models/PackageToUpload.cs:64-67 | the extension check accepts exactly the names that end with `.dmupgrade` |
| PackageToUpload.FromFile | CICD.Tools.DmUpgradeStorage.Lib/Models/PackageToUpload.cs:73-75 | a package read from a file keeps that file |
| PackageToUpload.FromFileOutcomes | CICD.Tools.DmUpgradeStorage.Lib/Models/PackageToUpload.cs:60-87 | `InvalidDataException` exactly when the name does not end with `.dmupgrade`; null exactly when it does but does not match; `OverflowException` exactly when the build number does not fit a `uint`; no other exception |
| PackageToUpload.FromFileFields | CICD.Tools.DmUpgradeStorage.Lib/Models/PackageToUpload.cs:73-83 | the package keeps the file and the matched version; the build number is the value of its digits; the upgrade type is the one the name spells, Full or Web; the type is Rc for `rc`, Internal for `internal` and Standard otherwise; each optional number is present exactly when its group is present and fits, and then has the value of the group's digits |
| PackageToUpload.FromFileRoundTrip | CICD.Tools.DmUpgradeStorage.Lib/Models/PackageToUpload.cs:60-89 | every package the pattern can describe is read back exactly from its canonical file name, with any note after it that cannot extend the match |
| PackageToUpload.FileNameInjective | CICD.Tools.DmUpgradeStorage.Lib/Models/PackageToUpload.cs:60-89 | two packages with the same canonical file name are equal |
| PackageToUpload.ParseDecimal | CICD.Tools.DmUpgradeStorage.Lib/Models/PackageToUpload.cs:77 | `UInt32.Parse` reads back a number's text |
| PackageToUpload.OptionalDecimalRoundTrip | CICD.Tools.DmUpgradeStorage.Lib/Services/DmUpgradeUploadService.cs:297-299 | `TryParse` reads back a nullable number written as its text or the empty string |
| PackageToUpload.NoMatchExample | CICD.Tools.DmUpgradeStorage.LibTests/Models/PackageToUploadTests.cs:24 | `invalid file.dmupgrade` gives null |
| PackageToUpload.NoGroupsExample | CICD.Tools.DmUpgradeStorage.LibTests/Models/PackageToUploadTests.cs:52-62 | `DataMiner 10.5.6.0-15384 Full Upgrade.dmupgrade` gives version 10.5.6.0, build 15384, Standard, Full and no optional numbers |
| PackageToUpload.RandomTextExample | CICD.Tools.DmUpgradeStorage.LibTests/Models/PackageToUploadTests.cs:26-37 | free text after the patch set is ignored: Rc, Gerrit ID 99162, patch set 19 |
| PackageToUpload.UnknownTypeExample | CICD.Tools.DmUpgradeStorage.LibTests/Models/PackageToUploadTests.cs:78-88 | `(blabla)` is not a package type: CU 186, build 99999999, Standard |
| TagFilter.EscapeIdentity | CICD.Tools.DmUpgradeStorage.Lib/BlobTagFilterBuilder.cs:137-145 | text without single quotes is not changed by escaping |
| TagFilter.EscapeKeepsOtherChars | CICD.Tools.DmUpgradeStorage.Lib/BlobTagFilterBuilder.cs:137-145 | escaping neither adds nor removes any character other than the single quote |
| TagFilter.UnescapeEscape | CICD.Tools.DmUpgradeStorage.Lib/BlobTagFilterBuilder.cs:137-145 | collapsing doubled quotes undoes escaping |
| TagFilter.EscapeAppend | CICD.Tools.DmUpgradeStorage.Lib/BlobTagFilterBuilder.cs:137-145 | escaping distributes over concatenation |
| TagFilter.ConditionText | CICD.Tools.DmUpgradeStorage.Lib/BlobTagFilterBuilder.cs:127-135 | every fragment starts with a double quote |
| TagFilter.ConditionRoundTrip | CICD.Tools.DmUpgradeStorage.Lib/BlobTagFilterBuilder.cs:127-145 | a fragment reads back as the tag, operator and value it was made from, so a quote in a value cannot end it early, provided the tag has no double quote |
| TagFilter.DoubleQuoteInTagBreaksFragment | CICD.Tools.DmUpgradeStorage.Lib/BlobTagFilterBuilder.cs:127-140 | a double quote in a tag is not escaped, so the fragment's tag ends at it and the fragment no longer reads back |
| TagFilter.InterleaveShape | CICD.Tools.DmUpgradeStorage.Lib/BlobTagFilterBuilder.cs:106-116 | with k fragments the builder list has 2k-1 items, the fragments at even positions and `AND` between them |
| TagFilter.JoinInterleave | CICD.Tools.DmUpgradeStorage.Lib/BlobTagFilterBuilder.cs:125 | joining that list with spaces is joining the fragments with ` AND ` |
| TagFilter.BlobTagFilterBuilder.constructor | CICD.Tools.DmUpgradeStorage.Lib/BlobTagFilterBuilder.cs:121 | a new builder has no items |
| TagFilter.BlobTagFilterBuilder.And | CICD.Tools.DmUpgradeStorage.Lib/BlobTagFilterBuilder.cs:123 | appends `AND` |
| TagFilter.BlobTagFilterBuilder.Build | CICD.Tools.DmUpgradeStorage.Lib/BlobTagFilterBuilder.cs:125 | an empty builder builds the empty query, and a single item builds as itself |
| TagFilter.BlobTagFilterBuilder.Equal | CICD.Tools.DmUpgradeStorage.Lib/BlobTagFilterBuilder.cs:127 | appends the `=` fragment of the tag and value, nothing else changes |
| TagFilter.BlobTagFilterBuilder.GreaterThan | CICD.Tools.DmUpgradeStorage.Lib/BlobTagFilterBuilder.cs:129 | appends the `>` fragment |
| TagFilter.BlobTagFilterBuilder.GreaterThanOrEqual | CICD.Tools.DmUpgradeStorage.Lib/BlobTagFilterBuilder.cs:131 | appends the `>=` fragment |
| TagFilter.BlobTagFilterBuilder.LessThan | CICD.Tools.DmUpgradeStorage.Lib/BlobTagFilterBuilder.cs:133 | appends the `<` fragment |
| TagFilter.BlobTagFilterBuilder.LessThanOrEqual | CICD.Tools.DmUpgradeStorage.Lib/BlobTagFilterBuilder.cs:135 | appends the `<=` fragment |
| TagFilter.BlobTagFilterBuilder.Append | CICD.Tools.DmUpgradeStorage.Lib/BlobTagFilterBuilder.cs:147-151 | adds at the end and leaves earlier items as they were |
| TagFilter.PackageTagFilter.constructor | CICD.Tools.DmUpgradeStorage.Lib/BlobTagFilterBuilder.cs:15-16 | a new filter holds no condition, has a fresh builder and keeps its invariant |
| TagFilter.PackageTagFilter.WithBuildNumber | CICD.Tools.DmUpgradeStorage.Lib/BlobTagFilterBuilder.cs:23-28 | adds one condition, build number equals the number's text, after the earlier ones; keeps the invariant |
| TagFilter.PackageTagFilter.WithCu | CICD.Tools.DmUpgradeStorage.Lib/BlobTagFilterBuilder.cs:35-40 | adds CU equals the number's text |
| TagFilter.PackageTagFilter.WithGerritId | CICD.Tools.DmUpgradeStorage.Lib/BlobTagFilterBuilder.cs:47-52 | adds GerritId equals the number's text |
| TagFilter.PackageTagFilter.WithPatchSet | CICD.Tools.DmUpgradeStorage.Lib/BlobTagFilterBuilder.cs:59-64 | adds PatchSet equals the number's text |
| TagFilter.PackageTagFilter.WithType | CICD.Tools.DmUpgradeStorage.Lib/BlobTagFilterBuilder.cs:71-76 | adds Type equals the type's name |
| TagFilter.PackageTagFilter.WithUpgradeType | CICD.Tools.DmUpgradeStorage.Lib/BlobTagFilterBuilder.cs:83-88 | adds UpgradeType equals the upgrade type's name |
| TagFilter.PackageTagFilter.WithVersion | CICD.Tools.DmUpgradeStorage.Lib/BlobTagFilterBuilder.cs:95-100 | adds Version equals the text as given |
| TagFilter.PackageTagFilter.Build | CICD.Tools.DmUpgradeStorage.Lib/BlobTagFilterBuilder.cs:102 | the query is the fragments of the conditions in call order joined by ` AND ` |
| TagFilter.PackageTagFilter.IsEmpty | CICD.Tools.DmUpgradeStorage.Lib/BlobTagFilterBuilder.cs:104 | true exactly when no condition was added |
| TagFilter.PackageTagFilter.AddAndIfNeeded | CICD.Tools.DmUpgradeStorage.Lib/BlobTagFilterBuilder.cs:106-116 | puts `AND` before every fragment but the first and sets the flag |
| TagFilter.BuildEmptyIffNoPredicates | CICD.Tools.DmUpgradeStorage.Lib/BlobTagFilterBuilder.cs:102-104 | the built query is empty exactly when no condition was added |
| TagFilter.TwoConditionsText | CICD.Tools.DmUpgradeStorage.Lib/BlobTagFilterBuilder.cs:125-127 | two quote-free conditions render as `"t1" = 'v1' AND "t2" = 'v2'` |
| TagFilter.BuildExample | CICD.Tools.DmUpgradeStorage.Lib/BlobTagFilterBuilder.cs:95-104 | a new filter builds the empty query; with a build number then a version it builds the two fragments joined by ` AND ` |
| LatestSelection.LastAfterMinIsLast | CICD.Tools.DmUpgradeStorage.Lib/Services/DmUpgradeUploadService.cs:371-389 | what the loop as written picks: the last listed blob created after `MinValue`, none when there is none |
| LatestSelection.SelectLatest | CICD.Tools.DmUpgradeStorage.Lib/Services/DmUpgradeUploadService.cs:371-383 | the loop as written returns the name at `LastAfterMin` |
| LatestSelection.NewestIsMaximal | CICD.Tools.DmUpgradeStorage.Lib/Services/DmUpgradeUploadService.cs:371-389 | `Newest` is the first blob with the greatest creation time after `MinValue`, none exactly when no blob is after it |
| LatestSelection.SelectNewest | CICD.Tools.DmUpgradeStorage.Lib/Services/DmUpgradeUploadService.cs:371-383 | the loop with `offset` moved to each chosen blob returns the name at `Newest` |
| LatestSelection.AscendingListingAgrees | CICD.Tools.DmUpgradeStorage.Lib/Services/DmUpgradeUploadService.cs:371-383 | for a listing from oldest to newest both loops pick the same blob |
| LatestSelection.NewestFirstListing | CICD.Tools.DmUpgradeStorage.Lib/Services/DmUpgradeUploadService.cs:371-383 | listed newest first, the loop as written picks the older of two blobs |
| StorageService.Resolve | CICD.Tools.DmUpgradeStorage.Lib/Services/DmUpgradeUploadService.cs:60-61 | an argument that is given wins, even when blank |
| StorageService.FirstPresent | CICD.Tools.DmUpgradeStorage.Lib/Services/DmUpgradeUploadService.cs:60-66 | nothing exactly when every place is empty; otherwise the value of the first place that holds one |
| StorageService.ResolveIsFirstPresent | CICD.Tools.DmUpgradeStorage.Lib/Services/DmUpgradeUploadService.cs:60-66 | each `??` chain takes the first of argument, user secrets and process environment, then, on Windows only, user and machine environment |
| StorageService.ChooseClient | CICD.Tools.DmUpgradeStorage.Lib/Services/DmUpgradeUploadService.cs:101 | the only failure is `InvalidCredentialException` |
| StorageService.ChooseClientOutcomes | CICD.Tools.DmUpgradeStorage.Lib/Services/DmUpgradeUploadService.cs:68-101 | fails exactly when the connection string and the name or key all resolve blank; a connection-string client uses the non-blank string; a shared-key client is made only when the connection string is blank, from non-blank name and key, on `https://<name>.blob.core.windows.net` |
| StorageService.ConnectionStringFirst | CICD.Tools.DmUpgradeStorage.Lib/Services/DmUpgradeUploadService.cs:68-74 | a usable connection string decides the client whatever the name and key |
| StorageService.ArgumentHidesEnvironment | CICD.Tools.DmUpgradeStorage.Lib/Services/DmUpgradeUploadService.cs:60-61 | a connection string argument, even a blank one, makes the configured and environment ones irrelevant |
| StorageService.GetContainer | CICD.Tools.DmUpgradeStorage.Lib/Services/DmUpgradeUploadService.cs:420-429 | succeeds exactly when the container exists; otherwise `InvalidOperationException` naming it |
| StorageService.Remove | CICD.Tools.DmUpgradeStorage.Lib/Services/DmUpgradeUploadService.cs:128 | the container loses that one name and no container appears or disappears |
| StorageService.Put | CICD.Tools.DmUpgradeStorage.Lib/Services/DmUpgradeUploadService.cs:291 | the container gains the name with the new blob and no container appears or disappears |
| StorageService.RemovePutLocal | CICD.Tools.DmUpgradeStorage.Lib/Services/DmUpgradeUploadService.cs:128 | deleting or uploading one blob leaves every other blob as it was |
| StorageService.UploadTagKeys | CICD.Tools.DmUpgradeStorage.Lib/Services/DmUpgradeUploadService.cs:293-301 | an upload writes exactly the seven tag names |
| StorageService.UploadNumberTagsReadBack | CICD.Tools.DmUpgradeStorage.Lib/Services/DmUpgradeUploadService.cs:296-299 | the number tags read back as the build number and the nullable CU, Gerrit ID and patch set; a missing number is the empty tag |
| StorageService.UploadKindTagsReadBack | CICD.Tools.DmUpgradeStorage.Lib/Services/DmUpgradeUploadService.cs:293-301 | the version is stored as is, the package type always (Standard included) and the upgrade type as its name, empty exactly when missing |
| StorageService.DmUpgradeStorageService.constructor | CICD.Tools.DmUpgradeStorage.Lib/Services/DmUpgradeUploadService.cs:38-51 | a new service has no client, no container name and is not set up |
| StorageService.DmUpgradeStorageService.Authenticate | CICD.Tools.DmUpgradeStorage.Lib/Services/DmUpgradeUploadService.cs:54-107 | on success keeps the chosen client and marks the setup complete; on failure throws the exception of `ChooseClient` and changes nothing; never touches the container name |
| StorageService.DmUpgradeStorageService.SetContainer | CICD.Tools.DmUpgradeStorage.Lib/Services/DmUpgradeUploadService.cs:230-253 | keeps the resolved name even when blank, throws `ArgumentException` exactly when it is blank, and leaves client and setup flag alone |
| StorageService.DmUpgradeStorageService.EnsureSetup | CICD.Tools.DmUpgradeStorage.Lib/Services/DmUpgradeUploadService.cs:400-418 | does nothing when ready; otherwise ends as setting up from the environment does; passes exactly when the service could be set up, and then leaves it ready; never throws its own exception |
| StorageService.DmUpgradeStorageService.DeleteAsync | CICD.Tools.DmUpgradeStorage.Lib/Services/DmUpgradeUploadService.cs:110-141 | a blank name throws first; then the setup exception or the missing-container exception; null when the blob does not exist; otherwise whether the delete succeeded, removing the blob only then; when the service was not ready, it ends set up from the environment (client, flag and container name), or unchanged when no credentials resolve |
| StorageService.DmUpgradeStorageService.DownloadByNameAsync | CICD.Tools.DmUpgradeStorage.Lib/Services/DmUpgradeUploadService.cs:144-169 | a blank name throws first; then the setup or container exception; null for a missing blob, otherwise that blob; when the service was not ready, it ends set up from the environment (client, flag and container name), or unchanged when no credentials resolve |
| StorageService.DmUpgradeStorageService.DownloadLatestByTagsAsync | CICD.Tools.DmUpgradeStorage.Lib/Services/DmUpgradeUploadService.cs:172-196 | an empty filter gives null without setting up; otherwise the setup or container exception, or the blob the selection loop picks as written: the last listed one created after `MinValue`, null when there is none; and the state after a lazy setup, as for `DeleteAsync` |
| StorageService.DmUpgradeStorageService.DownloadNewestByTagsAsync | CICD.Tools.DmUpgradeStorage.Lib/Services/DmUpgradeUploadService.cs:366-398 | the same download with the selection loop corrected: the newest found blob, null when none is newer than `MinValue` |
| StorageService.DmUpgradeStorageService.DownloadPackagesByTagsAsync | CICD.Tools.DmUpgradeStorage.Lib/Services/DmUpgradeUploadService.cs:199-227 | an empty filter yields nothing without setting up; otherwise the setup or container exception, or one download per found blob in listing order; when the service was not ready, it ends set up from the environment (client, flag and container name), or unchanged when no credentials resolve |
| StorageService.DmUpgradeStorageService.UploadAsync | CICD.Tools.DmUpgradeStorage.Lib/Services/DmUpgradeUploadService.cs:256-325 | the setup exception first; false for a missing file or a wrong extension, before the container is looked at; then the container exception; otherwise the blob under the file's name with the seven tags, and whether the response had a value; when the service was not ready, it ends set up from the environment (client, flag and container name), or unchanged when no credentials resolve |
| StorageService.SetupFromEnvironment | CICD.Tools.DmUpgradeStorage.Lib/Services/DmUpgradeUploadService.cs:407-417 | setting up from the environment can only throw `InvalidCredentialException` or the missing-container-name `ArgumentException` |
| StorageService.LazySetupDelete | CICD.Tools.DmUpgradeStorage.Lib/Services/DmUpgradeUploadService.cs:110-141 | on a fresh service whose environment holds a connection string and a container name, a delete of an existing blob removes it from that container and leaves the service ready with that name |
| StorageService.BlankContainerKept | CICD.Tools.DmUpgradeStorage.Lib/Services/DmUpgradeUploadService.cs:236-247 | after authenticating, a blank container name is reported but kept, and the next `EnsureSetup` passes with it |
| DownloadByTag.AddVersion | CICD.Tools.DmUpgradeStorage/Commands/BaseCommands/DownloadByTagBaseCommand.cs:69-72 | adds the version condition exactly when the option is given |
| DownloadByTag.AddBuildNumber | CICD.Tools.DmUpgradeStorage/Commands/BaseCommands/DownloadByTagBaseCommand.cs:74-77 | adds the build-number condition exactly when the option is given |
| DownloadByTag.AddCu | CICD.Tools.DmUpgradeStorage/Commands/BaseCommands/DownloadByTagBaseCommand.cs:79-82 | adds the CU condition exactly when the option is given |
| DownloadByTag.AddGerritId | CICD.Tools.DmUpgradeStorage/Commands/BaseCommands/DownloadByTagBaseCommand.cs:84-87 | adds the Gerrit ID condition exactly when the option is given |
| DownloadByTag.AddPatchSet | CICD.Tools.DmUpgradeStorage/Commands/BaseCommands/DownloadByTagBaseCommand.cs:89-92 | adds the patch-set condition exactly when the option is given |
| DownloadByTag.AddType | CICD.Tools.DmUpgradeStorage/Commands/BaseCommands/DownloadByTagBaseCommand.cs:94-97 | adds the package-type condition exactly when the option is given |
| DownloadByTag.AddUpgradeType | CICD.Tools.DmUpgradeStorage/Commands/BaseCommands/DownloadByTagBaseCommand.cs:99-102 | adds the upgrade-type condition exactly when the option is given |
| DownloadByTag.GetFilter | CICD.Tools.DmUpgradeStorage/Commands/BaseCommands/DownloadByTagBaseCommand.cs:66-105 | a fresh filter holding one equality per option given, in the order version, build number, CU, Gerrit ID, patch set, type, upgrade type |
| DownloadByTag.RequestedCount | CICD.Tools.DmUpgradeStorage/Commands/BaseCommands/DownloadByTagBaseCommand.cs:66-105 | one condition per option given; the filter is empty, and the download refused, exactly when no option is given; an empty version still counts |
| DownloadByTag.RequestedTags | CICD.Tools.DmUpgradeStorage/Commands/BaseCommands/DownloadByTagBaseCommand.cs:66-105 | every condition is an equality on one of the seven tag names, no two on the same tag |
| DownloadByTag.UploadedPackageMatches | CICD.Tools.DmUpgradeStorage/Commands/BaseCommands/DownloadByTagBaseCommand.cs:66-105 | an uploaded package's tags satisfy the filter exactly when every option given equals the package's property |
| UploadCommand.CreateUploadPackage | CICD.Tools.DmUpgradeStorage/Commands/UploadCommand.cs:144-214 | the package or exception is the one `Merged` describes for the result of `FromFile` |
| UploadCommand.MergeOptions | CICD.Tools.DmUpgradeStorage/Commands/UploadCommand.cs:148-213 | the step-by-step setters produce the package `Merged` describes |
| UploadCommand.MergedErrors | CICD.Tools.DmUpgradeStorage/Commands/UploadCommand.cs:146-160 | fails exactly on an exception of `FromFile`, or on a name that does not match with the version or build number missing; the version is reported first |
| UploadCommand.AbsentOptionsKeepParsed | CICD.Tools.DmUpgradeStorage/Commands/UploadCommand.cs:170-213 | a property whose option is absent keeps the value read from the name; a blank version option is also ignored |
| UploadCommand.FallbackWithoutMatch | CICD.Tools.DmUpgradeStorage/Commands/UploadCommand.cs:162-167 | without a match the package is the file, version and build number from the options, no optional numbers, Standard, no upgrade type, unless options give them |
| UploadCommand.OptionsWin | CICD.Tools.DmUpgradeStorage/Commands/UploadCommand.cs:171-211 | every option given becomes the property; the version only when not blank |
| UploadCommand.MergedKeepsFile | CICD.Tools.DmUpgradeStorage/Commands/UploadCommand.cs:164 | the package uploaded is always the file given to the command |
| UploadCommand.BlankVersion | CICD.Tools.DmUpgradeStorage/Commands/UploadCommand.cs:152-175 | a blank version is never written over a parsed one, but becomes the version of a package made without a match |
| UploadCommand.UploadedFoundBySameOptions | CICD.Tools.DmUpgradeStorage/Commands/UploadCommand.cs:170-213 | the tags stored for the package satisfy the download filter made from the same options, unless the version option is blank |
| UploadCommand.InvokeAsync | CICD.Tools.DmUpgradeStorage/Commands/UploadCommand.cs:94-142 | a wrong extension gives `Fail` before anything else; any exception from setup, `CreateUploadPackage` or the upload gives `UnexpectedException`; a missing file or a response without a value gives `Fail`; otherwise the blob is stored with the package's tags and the result is `Ok` |

## Left out

- Asynchrony, cancellation tokens, `ConfigureAwait`, logging, stopwatches and the upload and download progress handlers are not modelled. The progress handlers use floating-point percentages and the wall clock.
- The Azure SDK is replaced by values and parameters:
  - `Storage` is a map of containers to blobs.
  - The answer of `FindBlobsByTagsAsync` is the parameter `found`, together with each blob's creation time. `Holds` and `Satisfies` state what that answer should match, but the service does not evaluate the query itself.
  - The delete response (`deleteFailed`), whether the upload response has a value (`hasValue`), the creation time (`now`) and a failed write of the output file (`outputFails`) are parameters too.
- Blob contents, file streams, the `DownloadedPackage` stream and the JSON output file are not modelled. A download is its blob's name.
- The configuration, environment variables and operating system are the `Environment` value. `Uri` construction and the SDK's validation of a connection string, which could throw, are not modelled.
- The two constructors of the service are one, taking the `Environment`. A missing configuration is a configuration without the keys.
- `ArgumentException.ThrowIfNullOrWhiteSpace` is modelled as an `ArgumentException` carrying the parameter's name only. A null package name is not modelled, since `string` is never null here.
- Numbers.TryParse: models `UInt32.TryParse` only on text of ASCII digits or the empty string, which is all the pattern's groups can yield. The `NumberStyles.Integer` forms are not modelled: surrounding white space and a leading sign, as in `" 7"` and `"+7"`, which parse as 7.
- Numbers.Parse: models `UInt32.Parse` on the same inputs only. It leaves out white space and signs, including `"-1"`, for which .NET throws `OverflowException`.
- `\d` is the ASCII digits. .NET also accepts other Unicode decimal digits, and `UInt32.Parse` would then throw `FormatException`; that case is not modelled.
- `Enum.TryParse` is modelled on member names only. It also accepts numeric text and comma lists. The type group can only be `rc` or `internal`, and the upgrade type group only `Full` or `Web`, so this does not change `FromFile`.
- `UploadAsync` in `DmUpgradeUploadService.cs` returns a `bool`, while the command reads an `UploadResult`. The model takes the success flag only. The upload identifier written to the output file is not modelled.
- The SAS-URI commands, the info command and the other command handlers are outside this model. Only `GetFilter` of the download-by-tag commands is modelled.
- `ExitCodes` values are not numbered, because the enumeration's source file is not part of this model.
- `FromFile`'s `ArgumentNullException` for a null file is not modelled, since a `FileInfo` value is never null.
- Two named test cases of `PackageToUploadTests.cs` have no example lemma: the CU 0 internal package at lines 65-76 and the internal Web upgrade at lines 91-101. `FromFileRoundTrip` covers both.
- `GetFilter`: each of its seven `if`s is a separate method (`AddVersion` … `AddUpgradeType`) over the same filter object. Inline, seven heap updates under seven branches cost the verifier too much. The calls and their order are unchanged.

## Findings

| source | as written | input that shows it | evidently intended | confidence | as-written member | corrected member |
|---|---|---|---|---|---|---|
| CICD.Tools.DmUpgradeStorage.Lib/Services/DmUpgradeUploadService.cs:371-383 | `offset` stays `DateTimeOffset.MinValue`, so every blob created after it replaces the choice: the loop returns the last listed blob, not the newest | two blobs listed as `a` created at tick 2, then `b` at tick 1: the loop returns `b` | the latest, newest blob, as `DownloadLatestByTagsAsync` promises | not executed | LatestSelection.SelectLatest, LatestSelection.NewestFirstListing | LatestSelection.SelectNewest, used by StorageService.DmUpgradeStorageService.DownloadNewestByTagsAsync |
