/**
 * The `upload` command: the package it uploads is the one read from the file name,
 * or one made from the options when the name does not match, with every option
 * given written over the value from the name; then the exit code it ends with.
 */
module UploadCommand {

  import opened Wrappers
  import opened Exceptions
  import opened Text
  import opened Numbers
  import opened Kinds
  import opened PackageToUpload
  import opened StorageService
  import DownloadByTag

  /** The exit codes the command returns. */
  datatype ExitCodes = Ok | Fail | UnexpectedException

  /** The options of the `upload` command; `None` is an option not given. */
  datatype UploadOptions = UploadOptions(
    dmUpgradeFile: FileInfo,
    version: Option<string>,
    buildNumber: Option<uint32>,
    cu: Option<uint32>,
    gerritId: Option<uint32>,
    patchSet: Option<uint32>,
    packageType: Option<PackageType>,
    upgradeType: Option<UpgradeType>)

  const MissingVersionMessage: string :=
    "Version could not be retrieved from the file or is not provided to the command."
  const MissingBuildNumberMessage: string :=
    "BuildNumber could not be retrieved from the file or is not provided to the command."

  /** The package made from the options when the file name does not match: nothing optional set, the default type. */
  function Fallback(file: FileInfo, version: string, buildNumber: uint32): Package {
    Package(file, version, buildNumber, None, None, None, Standard, None)
  }

  /** The value of `option` when it is given, and `otherwise` when not. */
  function Override<T>(option: Option<T>, otherwise: T): T {
    if option.Some? then option.value else otherwise
  }

  /**
   * The package the command uploads given what `FromFile` made of the file name, or
   * the exception it stops with: the exception of `FromFile`; when the name does not
   * match, an `ArgumentException` for a missing version, then for a missing build
   * number; otherwise the read or made package with the options written over it.
   */
  function Merged(parsed: Result<Option<Package>, Exception>, o: UploadOptions): Result<Package, Exception> {
    var fromName :- parsed;
    if fromName.None? && o.version.None? then Failure(ArgumentException(MissingVersionMessage))
    else if fromName.None? && o.buildNumber.None? then Failure(ArgumentException(MissingBuildNumberMessage))
    else
      var base := if fromName.Some? then fromName.value else Fallback(o.dmUpgradeFile, o.version.value, o.buildNumber.value);
      Success(Package(
        base.packageFile,
        if IsNullOrWhiteSpace(o.version) then base.version else o.version.value,
        Override(o.buildNumber, base.buildNumber),
        if o.cu.Some? then o.cu else base.cu,
        if o.gerritId.Some? then o.gerritId else base.gerritId,
        if o.patchSet.Some? then o.patchSet else base.patchSet,
        Override(o.packageType, base.packageType),
        if o.upgradeType.Some? then o.upgradeType else base.upgradeType))
  }

  /** The package the command uploads for its options, or the exception it stops with. */
  function UploadPackage(o: UploadOptions): Result<Package, Exception> {
    Merged(FromFile(o.dmUpgradeFile), o)
  }

  /**
   * `CreateUploadPackage`: reads the package from the file name, or makes one from
   * the version and build number options, then sets each property whose option is
   * given, one after the other.
   */
  method CreateUploadPackage(o: UploadOptions) returns (r: Result<Package, Exception>)
    ensures r == UploadPackage(o)
  {
    var parsed := FromFile(o.dmUpgradeFile);
    r := MergeOptions(parsed, o);
  }

  /** The part of `CreateUploadPackage` after `FromFile`. */
  method MergeOptions(parsed: Result<Option<Package>, Exception>, o: UploadOptions) returns (r: Result<Package, Exception>)
    ensures r == Merged(parsed, o)
  {
    if parsed.Failure? {
      return Failure(parsed.error);
    }
    var package: Package;
    if parsed.value.None? {
      if o.version.None? {
        return Failure(ArgumentException(MissingVersionMessage));
      }
      if o.buildNumber.None? {
        return Failure(ArgumentException(MissingBuildNumberMessage));
      }
      package := Fallback(o.dmUpgradeFile, o.version.value, o.buildNumber.value);
    } else {
      package := parsed.value.value;
    }
    if !IsNullOrWhiteSpace(o.version) {
      package := package.(version := o.version.value);
    }
    if o.buildNumber.Some? {
      package := package.(buildNumber := o.buildNumber.value);
    }
    if o.cu.Some? {
      package := package.(cu := o.cu);
    }
    if o.gerritId.Some? {
      package := package.(gerritId := o.gerritId);
    }
    if o.patchSet.Some? {
      package := package.(patchSet := o.patchSet);
    }
    if o.packageType.Some? {
      package := package.(packageType := o.packageType.value);
    }
    if o.upgradeType.Some? {
      package := package.(upgradeType := o.upgradeType);
    }
    return Success(package);
  }

  /** No options but perhaps the version and the build number. */
  function NoOverrides(file: FileInfo, version: Option<string>, buildNumber: Option<uint32>): UploadOptions {
    UploadOptions(file, version, buildNumber, None, None, None, None, None)
  }

  /**
   * The ways the package cannot be made: a file name refused by `FromFile`, or a name
   * that does not match with the version missing, or else the build number missing.
   * The version is checked first.
   */
  lemma MergedErrors(parsed: Result<Option<Package>, Exception>, o: UploadOptions)
    ensures parsed.Failure? ==> Merged(parsed, o) == Failure(parsed.error)
    ensures parsed == Success(None) && o.version.None? ==> Merged(parsed, o) == Failure(ArgumentException(MissingVersionMessage))
    ensures parsed == Success(None) && o.version.Some? && o.buildNumber.None? ==>
      Merged(parsed, o) == Failure(ArgumentException(MissingBuildNumberMessage))
    ensures Merged(parsed, o).Failure? <==> parsed.Failure? || (parsed == Success(None) && (o.version.None? || o.buildNumber.None?))
  {
  }

  /** A property whose option is not given keeps the value read from the file name; the version also when its option is blank. */
  lemma AbsentOptionsKeepParsed(parsed: Package, o: UploadOptions)
    ensures Merged(Success(Some(parsed)), o).Success?
    ensures var p := Merged(Success(Some(parsed)), o).value;
      && p.packageFile == parsed.packageFile
      && (IsNullOrWhiteSpace(o.version) ==> p.version == parsed.version)
      && (o.buildNumber.None? ==> p.buildNumber == parsed.buildNumber)
      && (o.cu.None? ==> p.cu == parsed.cu)
      && (o.gerritId.None? ==> p.gerritId == parsed.gerritId)
      && (o.patchSet.None? ==> p.patchSet == parsed.patchSet)
      && (o.packageType.None? ==> p.packageType == parsed.packageType)
      && (o.upgradeType.None? ==> p.upgradeType == parsed.upgradeType)
  {
  }

  /**
   * When the file name does not match, the package is made from the file and the
   * version and build number options, with no CU, Gerrit ID, patch set or upgrade type
   * and the `Standard` type unless those options are given.
   */
  lemma FallbackWithoutMatch(o: UploadOptions)
    requires o.version.Some? && o.buildNumber.Some?
    ensures Merged(Success(None), o).Success?
    ensures var p := Merged(Success(None), o).value;
      && p.packageFile == o.dmUpgradeFile
      && p.version == o.version.value && p.buildNumber == o.buildNumber.value
      && p.cu == o.cu && p.gerritId == o.gerritId && p.patchSet == o.patchSet
      && p.packageType == Override(o.packageType, Standard) && p.upgradeType == o.upgradeType
  {
  }

  /** An option given always wins over the file name; the version only when it is not blank. */
  lemma OptionsWin(parsed: Result<Option<Package>, Exception>, o: UploadOptions)
    requires Merged(parsed, o).Success?
    ensures var p := Merged(parsed, o).value;
      && (!IsNullOrWhiteSpace(o.version) ==> p.version == o.version.value)
      && (o.buildNumber.Some? ==> p.buildNumber == o.buildNumber.value)
      && (o.cu.Some? ==> p.cu == o.cu)
      && (o.gerritId.Some? ==> p.gerritId == o.gerritId)
      && (o.patchSet.Some? ==> p.patchSet == o.patchSet)
      && (o.packageType.Some? ==> p.packageType == o.packageType.value)
      && (o.upgradeType.Some? ==> p.upgradeType == o.upgradeType)
  {
  }

  /** The package uploaded is always the file given to the command, as `FromFile` keeps it. */
  lemma MergedKeepsFile(parsed: Result<Option<Package>, Exception>, o: UploadOptions)
    requires parsed.Success? && parsed.value.Some? ==> parsed.value.value.packageFile == o.dmUpgradeFile
    ensures Merged(parsed, o).Success? ==> Merged(parsed, o).value.packageFile == o.dmUpgradeFile
  {
  }

  /**
   * A blank version option is never written over the version read from the name, but
   * when the name does not match the made package starts from it, so it becomes the
   * version.
   */
  lemma BlankVersion(file: FileInfo, blank: string, buildNumber: uint32, p: Package)
    requires AllWhiteSpace(blank)
    ensures Merged(Success(None), NoOverrides(file, Some(blank), Some(buildNumber)))
         == Success(Fallback(file, blank, buildNumber))
    ensures Merged(Success(Some(p)), NoOverrides(file, Some(blank), None)) == Success(p)
  {
  }

  /** The download filter with the same values as a set of upload options. */
  function SameFilter(o: UploadOptions): DownloadByTag.FilterOptions {
    DownloadByTag.FilterOptions(o.version, o.buildNumber, o.cu, o.gerritId, o.patchSet, o.packageType, o.upgradeType)
  }

  /**
   * What an upload stores is found again by downloading with the same options:
   * the uploaded tags satisfy the filter made from them. A blank version option is
   * the exception, as it is not written over the version read from the name.
   */
  lemma UploadedFoundBySameOptions(parsed: Result<Option<Package>, Exception>, o: UploadOptions)
    requires Merged(parsed, o).Success?
    requires o.version.Some? ==> !AllWhiteSpace(o.version.value)
    ensures Satisfies(UploadTags(Merged(parsed, o).value), DownloadByTag.Requested(SameFilter(o)))
  {
    OptionsWin(parsed, o);
    DownloadByTag.UploadedPackageMatches(SameFilter(o), Merged(parsed, o).value);
  }

  /**
   * `InvokeAsync` of the `upload` command: checks the extension before anything else,
   * authenticates, sets the container, makes the package and uploads it. An unsuccessful
   * upload ends with `Fail`, any exception with `UnexpectedException`. `now` and
   * `hasValue` are the storage's clock and answer, `outputFails` whether writing the
   * output file throws.
   */
  method InvokeAsync(o: UploadOptions, connectionString: Option<string>, accountName: Option<string>,
                     accountKey: Option<string>, containerName: Option<string>,
                     service: DmUpgradeStorageService, storage: Storage, now: nat, hasValue: bool, outputFails: bool)
    returns (code: ExitCodes, after: Storage)
    modifies service
    ensures Extension(o.dmUpgradeFile.name) != PackageExtension ==>
      code == ExitCodes.Fail && after == storage && unchanged(service)
    ensures Extension(o.dmUpgradeFile.name) == PackageExtension ==>
      var chosen := ChooseClient(service.environment, connectionString, accountName, accountKey);
      var container := Resolve(containerName, service.environment.containerName, service.environment.isWindows);
      if chosen.Failure? || IsNullOrWhiteSpace(container) || UploadPackage(o).Failure? then
        code == ExitCodes.UnexpectedException && after == storage
      else if !o.dmUpgradeFile.onDisk then
        code == ExitCodes.Fail && after == storage
      else if container.value !in storage.containers then
        code == ExitCodes.UnexpectedException && after == storage
      else
        && after == Put(storage, container.value, o.dmUpgradeFile.name, StoredBlob(UploadTags(UploadPackage(o).value), now))
        && code == (if !hasValue then ExitCodes.Fail else if outputFails then ExitCodes.UnexpectedException else ExitCodes.Ok)
  {
    after := storage;
    if Extension(o.dmUpgradeFile.name) != PackageExtension {
      return ExitCodes.Fail, after;
    }
    var authenticated := service.Authenticate(connectionString, accountName, accountKey);
    if authenticated.Fail? {
      return ExitCodes.UnexpectedException, after;
    }
    var containerSet := service.SetContainer(containerName);
    if containerSet.Fail? {
      return ExitCodes.UnexpectedException, after;
    }
    var packageToUpload := CreateUploadPackage(o);
    if packageToUpload.Failure? {
      return ExitCodes.UnexpectedException, after;
    }
    MergedKeepsFile(FromFile(o.dmUpgradeFile), o);
    var result;
    result, after := service.UploadAsync(packageToUpload.value, storage, now, hasValue);
    if result.Failure? {
      return ExitCodes.UnexpectedException, after;
    }
    if !result.value {
      return ExitCodes.Fail, after;
    }
    if outputFails {
      return ExitCodes.UnexpectedException, after;
    }
    return ExitCodes.Ok, after;
  }
}
