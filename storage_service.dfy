/**
 * `DmUpgradeStorageService`: the client of the blob storage that holds the
 * `.dmupgrade` packages. The storage account is modelled as a value (its containers,
 * and in each the blobs by name); what the Azure SDK answers beyond that (the
 * blobs a tag query finds, whether a delete request failed) is a parameter.
 */
module StorageService {

  import opened Wrappers
  import opened Exceptions
  import opened Text
  import opened Numbers
  import opened Kinds
  import Constants
  import opened TagFilter
  import opened PackageToUpload
  import opened LatestSelection

  // ---------------------------------------------------------------------------
  // Where the settings come from

  /**
   * What one setting holds in each place it is looked up after the argument: the
   * user-secrets configuration, the process environment, and the user and machine
   * environment (read on Windows only). `None` is a missing key or variable.
   */
  datatype Sources = Sources(
    configuration: Option<string>,
    process: Option<string>,
    user: Option<string>,
    machine: Option<string>)

  /** The four settings the service reads, and whether it runs on Windows. */
  datatype Environment = Environment(
    connectionString: Sources,
    accountName: Sources,
    accountKey: Sources,
    containerName: Sources,
    isWindows: bool)

  /**
   * `argument ?? configuration ?? process`, then, still `null` on Windows,
   * `user ?? machine`. A present value is taken even when it is blank.
   */
  function Resolve(argument: Option<string>, sources: Sources, isWindows: bool): (r: Option<string>)
    ensures argument.Some? ==> r == argument
  {
    var value := if argument.Some? then argument
                 else if sources.configuration.Some? then sources.configuration
                 else sources.process;
    if value.None? && isWindows then
      (if sources.user.Some? then sources.user else sources.machine)
    else value
  }

  /** The places a setting is looked up, in order of precedence. */
  function Candidates(argument: Option<string>, sources: Sources, isWindows: bool): seq<Option<string>> {
    [argument, sources.configuration, sources.process]
    + (if isWindows then [sources.user, sources.machine] else [])
  }

  /** The first present value of a list, or none when all are missing. */
  function FirstPresent(candidates: seq<Option<string>>): (r: Option<string>)
    ensures r.None? <==> forall i | 0 <= i < |candidates| :: candidates[i].None?
    ensures r.Some? ==> exists i | 0 <= i < |candidates| ::
      candidates[i] == r && forall j | 0 <= j < i :: candidates[j].None?
  {
    if candidates == [] then None
    else if candidates[0].Some? then candidates[0]
    else
      var r := FirstPresent(candidates[1..]);
      if r.Some? then
        var i :| 0 <= i < |candidates[1..]| && candidates[1..][i] == r
                 && forall j | 0 <= j < i :: candidates[1..][j].None?;
        assert candidates[i + 1] == r && forall j | 0 <= j < i + 1 :: candidates[j].None?;
        r
      else
        assert forall i | 1 <= i < |candidates| :: candidates[i] == candidates[1..][i - 1];
        r
  }

  /** The `??` chain picks the first place that holds the setting; Windows adds two places at the end. */
  lemma ResolveIsFirstPresent(argument: Option<string>, sources: Sources, isWindows: bool)
    ensures Resolve(argument, sources, isWindows) == FirstPresent(Candidates(argument, sources, isWindows))
  {
    var c := Candidates(argument, sources, isWindows);
    var rest := if isWindows then [sources.user, sources.machine] else [];
    assert c[1..] == [sources.configuration, sources.process] + rest;
    assert c[1..][1..] == [sources.process] + rest;
    assert c[1..][1..][1..] == rest;
    var late := if isWindows then (if sources.user.Some? then sources.user else sources.machine) else None;
    if isWindows {
      assert rest[1..] == [sources.machine];
      assert rest[1..][1..] == [];
      assert FirstPresent(rest[1..]) == sources.machine;
    }
    assert FirstPresent(rest) == late;
    assert FirstPresent(c[1..][1..]) == if sources.process.Some? then sources.process else late;
  }

  // ---------------------------------------------------------------------------
  // Authentication

  /** The `BlobServiceClient` the service creates, by the credentials it was built from. */
  datatype Client =
    | ConnectionStringClient(connectionString: string)
    | SharedKeyClient(serviceUri: string, accountName: string, accountKey: string)

  /** The blob endpoint of a storage account. */
  function BlobServiceUri(accountName: string): string {
    "https://" + accountName + ".blob.core.windows.net"
  }

  /**
   * What `Authenticate` ends with: a client from the connection string when that
   * resolves to something non-blank; otherwise one from the account name and key
   * when both do; otherwise `InvalidCredentialException`.
   */
  function ChooseClient(environment: Environment, connectionString: Option<string>,
                        accountName: Option<string>, accountKey: Option<string>): (r: Result<Client, Exception>)
    ensures r.Failure? ==> r.error == InvalidCredentialException
  {
    var cs := Resolve(connectionString, environment.connectionString, environment.isWindows);
    if !IsNullOrWhiteSpace(cs) then Success(ConnectionStringClient(cs.value))
    else
      var name := Resolve(accountName, environment.accountName, environment.isWindows);
      var key := Resolve(accountKey, environment.accountKey, environment.isWindows);
      if !IsNullOrWhiteSpace(name) && !IsNullOrWhiteSpace(key) then
        Success(SharedKeyClient(BlobServiceUri(name.value), name.value, key.value))
      else Failure(InvalidCredentialException)
  }

  /**
   * Every client is built from non-blank credentials, and authentication fails
   * exactly when neither the connection string nor the name and key pair resolves.
   */
  lemma ChooseClientOutcomes(environment: Environment, connectionString: Option<string>,
                             accountName: Option<string>, accountKey: Option<string>)
    ensures var w := environment.isWindows;
      var cs := Resolve(connectionString, environment.connectionString, w);
      var name := Resolve(accountName, environment.accountName, w);
      var key := Resolve(accountKey, environment.accountKey, w);
      var r := ChooseClient(environment, connectionString, accountName, accountKey);
      && (r.Failure? <==> IsNullOrWhiteSpace(cs) && (IsNullOrWhiteSpace(name) || IsNullOrWhiteSpace(key)))
      && (r.Success? && r.value.ConnectionStringClient? ==> Some(r.value.connectionString) == cs && !AllWhiteSpace(cs.value))
      && (r.Success? && r.value.SharedKeyClient? ==>
            && IsNullOrWhiteSpace(cs)
            && Some(r.value.accountName) == name && !AllWhiteSpace(name.value)
            && Some(r.value.accountKey) == key && !AllWhiteSpace(key.value)
            && r.value.serviceUri == BlobServiceUri(r.value.accountName))
  {
  }

  /** A usable connection string wins: the account name and key are then never looked at. */
  lemma ConnectionStringFirst(environment: Environment, connectionString: Option<string>,
                              accountName: Option<string>, accountKey: Option<string>,
                              otherName: Option<string>, otherKey: Option<string>)
    requires !IsNullOrWhiteSpace(Resolve(connectionString, environment.connectionString, environment.isWindows))
    ensures ChooseClient(environment, connectionString, accountName, accountKey)
         == ChooseClient(environment, connectionString, otherName, otherKey)
    ensures ChooseClient(environment, connectionString, accountName, accountKey).value.ConnectionStringClient?
  {
  }

  /**
   * A connection string passed as an argument, even a blank one, hides the
   * configured and environment ones: the outcome does not depend on them.
   */
  lemma ArgumentHidesEnvironment(environment: Environment, connectionString: string,
                                 accountName: Option<string>, accountKey: Option<string>, other: Sources)
    ensures ChooseClient(environment, Some(connectionString), accountName, accountKey)
         == ChooseClient(environment.(connectionString := other), Some(connectionString), accountName, accountKey)
  {
  }

  // ---------------------------------------------------------------------------
  // The storage account

  /** A stored blob: the tags it was uploaded with and when it was created. */
  datatype StoredBlob = StoredBlob(tags: map<string, string>, createdOn: nat)

  /** The containers of the storage account, each with its blobs by name. */
  datatype Storage = Storage(containers: map<string, map<string, StoredBlob>>)

  /** What a download hands back: the blob's name (its content stream is not modelled). */
  datatype DownloadedPackage = DownloadedPackage(name: string)

  const MissingContainerNameMessage: string := "Missing container name for the blob storage."

  /** The message `GetContainerAsync` throws with when the container is missing. */
  function NoSuchContainerMessage(containerName: string): string {
    "Blob container " + containerName + " does not exist."
  }

  /** `ArgumentException.ThrowIfNullOrWhiteSpace(packageName)`, reduced to the parameter's name. */
  const BlankPackageName: Exception := ArgumentException("packageName")

  /** `GetContainerAsync`: the blobs of the named container, or the exception when it does not exist. */
  function GetContainer(storage: Storage, containerName: string): (r: Result<map<string, StoredBlob>, Exception>)
    ensures r.Success? <==> containerName in storage.containers
    ensures r.Failure? ==> r.error == InvalidOperationException(NoSuchContainerMessage(containerName))
  {
    if containerName in storage.containers then Success(storage.containers[containerName])
    else Failure(InvalidOperationException(NoSuchContainerMessage(containerName)))
  }

  /** The storage after a blob is removed from a container. */
  function Remove(storage: Storage, containerName: string, name: string): (r: Storage)
    requires containerName in storage.containers
    ensures r.containers.Keys == storage.containers.Keys
    ensures r.containers[containerName].Keys == storage.containers[containerName].Keys - {name}
  {
    Storage(storage.containers[containerName := storage.containers[containerName] - {name}])
  }

  /** The storage after a blob is written, replacing one of the same name. */
  function Put(storage: Storage, containerName: string, name: string, blob: StoredBlob): (r: Storage)
    requires containerName in storage.containers
    ensures r.containers.Keys == storage.containers.Keys
    ensures r.containers[containerName].Keys == storage.containers[containerName].Keys + {name}
    ensures r.containers[containerName][name] == blob
  {
    Storage(storage.containers[containerName := storage.containers[containerName][name := blob]])
  }

  /** Removing and writing touch only the one blob: every other blob and container keeps its content. */
  lemma RemovePutLocal(storage: Storage, containerName: string, name: string, blob: StoredBlob,
                       otherContainer: string, otherName: string)
    requires containerName in storage.containers && otherContainer in storage.containers
    requires otherContainer != containerName || otherName != name
    requires otherName in storage.containers[otherContainer]
    ensures otherName in Remove(storage, containerName, name).containers[otherContainer]
    ensures Remove(storage, containerName, name).containers[otherContainer][otherName]
         == storage.containers[otherContainer][otherName]
    ensures Put(storage, containerName, name, blob).containers[otherContainer][otherName]
         == storage.containers[otherContainer][otherName]
  {
  }

  // ---------------------------------------------------------------------------
  // The tags an upload writes

  /** `ToString()` of a nullable value: empty for `null`. */
  function UpgradeTypeText(u: Option<UpgradeType>): string {
    if u.Some? then UpgradeTypeName(u.value) else []
  }

  /** The seven blob tags `UploadAsync` writes for a package. */
  function UploadTags(p: Package): map<string, string> {
    map[Constants.VersionTagName := p.version,
        Constants.BuildNumberTagName := ToDecimal(p.buildNumber as nat),
        Constants.CuTagName := OptionalDecimal(p.cu),
        Constants.GerritIdTagName := OptionalDecimal(p.gerritId),
        Constants.PatchSetTagName := OptionalDecimal(p.patchSet),
        Constants.TypeTagName := PackageTypeName(p.packageType),
        Constants.UpgradeTypeTagName := UpgradeTypeText(p.upgradeType)]
  }

  /** The upload writes exactly the seven tag names, absent values included. */
  lemma UploadTagKeys(p: Package)
    ensures forall t :: t in UploadTags(p) <==> t in Constants.TagNames
  {
    Constants.TagNamesWellFormed();
  }

  /**
   * Reading the number tags back gives the package's numbers: the build number
   * always, and a missing CU, Gerrit ID or patch set is the empty tag, read as none.
   */
  lemma UploadNumberTagsReadBack(p: Package)
    ensures var tags := UploadTags(p);
      && TryParse(tags[Constants.BuildNumberTagName]) == Some(p.buildNumber)
      && TryParse(tags[Constants.CuTagName]) == p.cu
      && TryParse(tags[Constants.GerritIdTagName]) == p.gerritId
      && TryParse(tags[Constants.PatchSetTagName]) == p.patchSet
      && (tags[Constants.CuTagName] == [] <==> p.cu.None?)
  {
    TryParseToDecimal(p.buildNumber);
    OptionalDecimalRoundTrip(p.cu);
    OptionalDecimalRoundTrip(p.gerritId);
    OptionalDecimalRoundTrip(p.patchSet);
  }

  /**
   * Reading the other tags back gives the version as it was, the package type, which
   * is always written, `Standard` included, and the upgrade type, empty when missing.
   */
  lemma UploadKindTagsReadBack(p: Package)
    ensures var tags := UploadTags(p);
      && tags[Constants.VersionTagName] == p.version
      && ParsePackageType(tags[Constants.TypeTagName]) == Some(p.packageType)
      && ParseUpgradeType(tags[Constants.UpgradeTypeTagName]) == p.upgradeType
      && (tags[Constants.UpgradeTypeTagName] == [] <==> p.upgradeType.None?)
  {
    PackageTypeNameRoundTrip(p.packageType);
    if p.upgradeType.Some? {
      UpgradeTypeNameRoundTrip(p.upgradeType.value);
    } else {
      assert !EqualsIgnoreCase("", "Full");
    }
  }

  // ---------------------------------------------------------------------------
  // Evaluating a tag query

  /** Ordinal comparison of two strings. */
  predicate Less(a: string, b: string)
    decreases |a|
  {
    if a == [] then b != []
    else if b == [] then false
    else if a[0] != b[0] then a[0] < b[0]
    else Less(a[1..], b[1..])
  }

  /** Whether a blob's tags satisfy one condition of a tag query. */
  predicate Holds(tags: map<string, string>, c: Condition) {
    c.tag in tags &&
    match c.op
    case Eq => tags[c.tag] == c.value
    case Gt => Less(c.value, tags[c.tag])
    case Ge => !Less(tags[c.tag], c.value)
    case Lt => Less(tags[c.tag], c.value)
    case Le => !Less(c.value, tags[c.tag])
  }

  /** Whether a blob's tags satisfy every condition of an `AND` query. */
  predicate Satisfies(tags: map<string, string>, conditions: seq<Condition>) {
    forall i | 0 <= i < |conditions| :: Holds(tags, conditions[i])
  }

  // ---------------------------------------------------------------------------
  // The service

  class DmUpgradeStorageService {
    /** The configuration and environment variables the service reads. */
    const environment: Environment
    var client: Option<Client>
    var containerName: Option<string>
    var setupComplete: bool

    constructor (environment: Environment)
      ensures this.environment == environment
      ensures client.None? && containerName.None? && !setupComplete
    {
      this.environment := environment;
      client := None;
      containerName := None;
      setupComplete := false;
    }

    /** The state `EnsureSetup` accepts without doing anything. */
    predicate Ready()
      reads this
    {
      setupComplete && containerName.Some?
    }

    /** Whether `EnsureSetup` would pass now: the service is ready, or can be set up from the environment. */
    predicate CanSetUp()
      reads this
    {
      Ready() || SetupFromEnvironment(environment).Pass?
    }

    /**
     * The state `Authenticate()` then `SetContainer()` leave when the credentials
     * resolve: the client they choose, the setup flag, and the container name from
     * the configuration and the environment, kept even when blank.
     */
    predicate EnvironmentSetUp()
      reads this
    {
      var chosen := ChooseClient(environment, None, None, None);
      && chosen.Success?
      && client == Some(chosen.value) && setupComplete
      && containerName == Resolve(None, environment.containerName, environment.isWindows)
    }

    /**
     * Resolves the credentials, arguments first, and creates the client; throws
     * `InvalidCredentialException`, leaving the state as it was, when none resolve.
     */
    method Authenticate(connectionString: Option<string>, accountName: Option<string>, accountKey: Option<string>)
      returns (outcome: Outcome<Exception>)
      modifies this
      ensures var chosen := ChooseClient(environment, connectionString, accountName, accountKey);
        && (chosen.Success? ==> outcome == Pass && client == Some(chosen.value) && setupComplete)
        && (chosen.Failure? ==> outcome == Fail(chosen.error) && unchanged(this))
      ensures containerName == old(containerName)
    {
      var w := environment.isWindows;
      var cs := Resolve(connectionString, environment.connectionString, w);
      if !IsNullOrWhiteSpace(cs) {
        client := Some(ConnectionStringClient(cs.value));
        setupComplete := true;
        return Pass;
      }
      var name := Resolve(accountName, environment.accountName, w);
      var key := Resolve(accountKey, environment.accountKey, w);
      if !IsNullOrWhiteSpace(name) && !IsNullOrWhiteSpace(key) {
        client := Some(SharedKeyClient(BlobServiceUri(name.value), name.value, key.value));
        setupComplete := true;
        return Pass;
      }
      return Fail(InvalidCredentialException);
    }

    /**
     * Resolves the container name, argument first, and keeps it; a name that
     * resolves to nothing or to white space is kept too, and then reported.
     */
    method SetContainer(name: Option<string>) returns (outcome: Outcome<Exception>)
      modifies this
      ensures containerName == Resolve(name, environment.containerName, environment.isWindows)
      ensures outcome == if IsNullOrWhiteSpace(containerName) then Fail(ArgumentException(MissingContainerNameMessage)) else Pass
      ensures client == old(client) && setupComplete == old(setupComplete)
    {
      containerName := Resolve(name, environment.containerName, environment.isWindows);
      if IsNullOrWhiteSpace(containerName) {
        return Fail(ArgumentException(MissingContainerNameMessage));
      }
      return Pass;
    }

    /**
     * Nothing to do once authenticated with a container name; otherwise
     * authenticates and sets the container from the configuration and the
     * environment alone. It never reaches its own "not set up" exception:
     * passing leaves the service ready.
     */
    method EnsureSetup() returns (outcome: Outcome<Exception>)
      modifies this
      ensures old(Ready()) ==> outcome == Pass && unchanged(this)
      ensures !old(Ready()) ==> outcome == SetupFromEnvironment(environment)
      ensures outcome.Pass? <==> old(CanSetUp())
      ensures !old(Ready()) && ChooseClient(environment, None, None, None).Success? ==> EnvironmentSetUp()
      ensures !old(Ready()) && ChooseClient(environment, None, None, None).Failure? ==> unchanged(this)
      ensures outcome.Pass? ==> Ready()
    {
      if setupComplete && containerName.Some? {
        return Pass;
      }
      outcome := Authenticate(None, None, None);
      if outcome.Fail? {
        return;
      }
      outcome := SetContainer(None);
      if outcome.Fail? {
        return;
      }
      if setupComplete && containerName.Some? {
        return Pass;
      }
      assert false;
    }

    /**
     * Deletes a blob of the container. `deleteFailed` is the storage's answer to the
     * delete request. The result is `null` when there is no such blob, and otherwise
     * whether it was deleted.
     */
    method DeleteAsync(packageName: string, storage: Storage, deleteFailed: bool)
      returns (r: Result<Option<bool>, Exception>, after: Storage)
      modifies this
      ensures AllWhiteSpace(packageName) ==> r == Failure(BlankPackageName) && after == storage && unchanged(this)
      ensures old(Ready()) ==> unchanged(this)
      ensures !AllWhiteSpace(packageName) && !old(Ready()) && ChooseClient(environment, None, None, None).Success? ==> EnvironmentSetUp()
      ensures !AllWhiteSpace(packageName) && !old(Ready()) && ChooseClient(environment, None, None, None).Failure? ==> unchanged(this)
      ensures !AllWhiteSpace(packageName) && !old(CanSetUp()) ==>
        r == Failure(SetupFromEnvironment(environment).error) && after == storage
      ensures !AllWhiteSpace(packageName) && old(CanSetUp()) ==>
        && Ready()
        && r == (match GetContainer(storage, containerName.value)
                 case Failure(e) => Failure(e)
                 case Success(blobs) =>
                   Success(if packageName in blobs then Some(!deleteFailed) else None))
        && after == if r == Success(Some(true)) then Remove(storage, containerName.value, packageName) else storage
    {
      after := storage;
      if AllWhiteSpace(packageName) {
        return Failure(BlankPackageName), after;
      }
      var setup := EnsureSetup();
      if setup.Fail? {
        return Failure(setup.error), after;
      }
      var container := GetContainer(storage, containerName.value);
      if container.Failure? {
        return Failure(container.error), after;
      }
      if packageName !in container.value {
        return Success(None), after;
      }
      if !deleteFailed {
        after := Remove(storage, containerName.value, packageName);
      }
      return Success(Some(!deleteFailed)), after;
    }

    /** Downloads a blob of the container by name; `null` when there is no such blob. */
    method DownloadByNameAsync(packageName: string, storage: Storage)
      returns (r: Result<Option<DownloadedPackage>, Exception>)
      modifies this
      ensures AllWhiteSpace(packageName) ==> r == Failure(BlankPackageName) && unchanged(this)
      ensures old(Ready()) ==> unchanged(this)
      ensures !AllWhiteSpace(packageName) && !old(Ready()) && ChooseClient(environment, None, None, None).Success? ==> EnvironmentSetUp()
      ensures !AllWhiteSpace(packageName) && !old(Ready()) && ChooseClient(environment, None, None, None).Failure? ==> unchanged(this)
      ensures !AllWhiteSpace(packageName) && !old(CanSetUp()) ==>
        r == Failure(SetupFromEnvironment(environment).error)
      ensures !AllWhiteSpace(packageName) && old(CanSetUp()) ==>
        Ready() && r == (match GetContainer(storage, containerName.value)
              case Failure(e) => Failure(e)
              case Success(blobs) =>
                Success(if packageName in blobs then Some(DownloadedPackage(packageName)) else None))
    {
      if AllWhiteSpace(packageName) {
        return Failure(BlankPackageName);
      }
      var setup := EnsureSetup();
      if setup.Fail? {
        return Failure(setup.error);
      }
      var container := GetContainer(storage, containerName.value);
      if container.Failure? {
        return Failure(container.error);
      }
      if packageName !in container.value {
        return Success(None);
      }
      return Success(Some(DownloadedPackage(packageName)));
    }

    /**
     * Downloads the blob of those the filter finds that the selection loop of
     * `DownloadLatestBlobAsync` picks as written: the last listed one created after
     * `MinValue`, which is the newest only when the storage lists them oldest first.
     * `found` is the storage's answer to the filter's query, in listing order, with
     * each blob's creation time. An empty filter is refused before anything else, as
     * `null`.
     */
    method DownloadLatestByTagsAsync(filter: PackageTagFilter, storage: Storage, found: seq<BlobItem>)
      returns (r: Result<Option<DownloadedPackage>, Exception>)
      requires filter.Valid()
      modifies this
      ensures filter.predicates == [] ==> r == Success(None) && unchanged(this)
      ensures old(Ready()) ==> unchanged(this)
      ensures filter.predicates != [] && !old(Ready()) && ChooseClient(environment, None, None, None).Success? ==> EnvironmentSetUp()
      ensures filter.predicates != [] && !old(Ready()) && ChooseClient(environment, None, None, None).Failure? ==> unchanged(this)
      ensures filter.predicates != [] && !old(CanSetUp()) ==>
        r == Failure(SetupFromEnvironment(environment).error)
      ensures filter.predicates != [] && old(CanSetUp()) ==>
        Ready() && r == (match GetContainer(storage, containerName.value)
              case Failure(e) => Failure(e)
              case Success(_) =>
                var latest := Selected(found, LastAfterMin(found));
                Success(if latest.Some? then Some(DownloadedPackage(latest.value)) else None))
    {
      if filter.IsEmpty() {
        return Success(None);
      }
      var setup := EnsureSetup();
      if setup.Fail? {
        return Failure(setup.error);
      }
      var container := GetContainer(storage, containerName.value);
      if container.Failure? {
        return Failure(container.error);
      }
      var latestItem := SelectLatest(found);
      if latestItem.None? {
        return Success(None);
      }
      return Success(Some(DownloadedPackage(latestItem.value)));
    }

    /**
     * `DownloadLatestByTagsAsync` with the selection loop corrected to move `offset`
     * to each chosen blob, so that it downloads the newest blob the filter finds, as
     * the service interface promises.
     */
    method DownloadNewestByTagsAsync(filter: PackageTagFilter, storage: Storage, found: seq<BlobItem>)
      returns (r: Result<Option<DownloadedPackage>, Exception>)
      requires filter.Valid()
      modifies this
      ensures filter.predicates == [] ==> r == Success(None) && unchanged(this)
      ensures old(Ready()) ==> unchanged(this)
      ensures filter.predicates != [] && !old(Ready()) && ChooseClient(environment, None, None, None).Success? ==> EnvironmentSetUp()
      ensures filter.predicates != [] && !old(Ready()) && ChooseClient(environment, None, None, None).Failure? ==> unchanged(this)
      ensures filter.predicates != [] && !old(CanSetUp()) ==>
        r == Failure(SetupFromEnvironment(environment).error)
      ensures filter.predicates != [] && old(CanSetUp()) ==>
        Ready() && r == (match GetContainer(storage, containerName.value)
              case Failure(e) => Failure(e)
              case Success(_) =>
                var latest := Selected(found, Newest(found));
                Success(if latest.Some? then Some(DownloadedPackage(latest.value)) else None))
    {
      if filter.IsEmpty() {
        return Success(None);
      }
      var setup := EnsureSetup();
      if setup.Fail? {
        return Failure(setup.error);
      }
      var container := GetContainer(storage, containerName.value);
      if container.Failure? {
        return Failure(container.error);
      }
      var latestItem := SelectNewest(found);
      if latestItem.None? {
        return Success(None);
      }
      return Success(Some(DownloadedPackage(latestItem.value)));
    }

    /**
     * Downloads every blob the filter finds, in the order the storage lists them.
     * An empty filter yields nothing and touches nothing.
     */
    method DownloadPackagesByTagsAsync(filter: PackageTagFilter, storage: Storage, found: seq<BlobItem>)
      returns (r: Result<seq<DownloadedPackage>, Exception>)
      requires filter.Valid()
      modifies this
      ensures filter.predicates == [] ==> r == Success([]) && unchanged(this)
      ensures old(Ready()) ==> unchanged(this)
      ensures filter.predicates != [] && !old(Ready()) && ChooseClient(environment, None, None, None).Success? ==> EnvironmentSetUp()
      ensures filter.predicates != [] && !old(Ready()) && ChooseClient(environment, None, None, None).Failure? ==> unchanged(this)
      ensures filter.predicates != [] && !old(CanSetUp()) ==>
        r == Failure(SetupFromEnvironment(environment).error)
      ensures filter.predicates != [] && old(CanSetUp()) ==>
        Ready() && (r.Failure? <==> containerName.value !in storage.containers)
      ensures r.Failure? && filter.predicates != [] && old(CanSetUp()) ==>
        r.error == InvalidOperationException(NoSuchContainerMessage(containerName.value))
      ensures r.Success? && filter.predicates != [] ==>
        |r.value| == |found| && forall i | 0 <= i < |found| :: r.value[i] == DownloadedPackage(found[i].name)
    {
      if filter.IsEmpty() {
        return Success([]);
      }
      var setup := EnsureSetup();
      if setup.Fail? {
        return Failure(setup.error);
      }
      var container := GetContainer(storage, containerName.value);
      if container.Failure? {
        return Failure(container.error);
      }
      var packages: seq<DownloadedPackage> := [];
      for i := 0 to |found|
        invariant |packages| == i
        invariant forall k | 0 <= k < i :: packages[k] == DownloadedPackage(found[k].name)
      {
        packages := packages + [DownloadedPackage(found[i].name)];
      }
      return Success(packages);
    }

    /**
     * Uploads the package file under its own name, with the package's properties as
     * its tags, replacing a blob of that name. A missing file or one without the
     * `.dmupgrade` extension is refused with `false` before the container is looked
     * at. `now` is the storage's clock, `hasValue` whether its response carried a value.
     */
    method UploadAsync(package: Package, storage: Storage, now: nat, hasValue: bool)
      returns (r: Result<bool, Exception>, after: Storage)
      modifies this
      ensures old(Ready()) ==> unchanged(this)
      ensures !old(Ready()) && ChooseClient(environment, None, None, None).Success? ==> EnvironmentSetUp()
      ensures !old(Ready()) && ChooseClient(environment, None, None, None).Failure? ==> unchanged(this)
      ensures !old(CanSetUp()) ==> r == Failure(SetupFromEnvironment(environment).error) && after == storage
      ensures old(CanSetUp()) ==> Ready()
      ensures old(CanSetUp()) && !(package.packageFile.onDisk && Extension(package.packageFile.name) == PackageExtension) ==>
        r == Success(false) && after == storage
      ensures old(CanSetUp()) && package.packageFile.onDisk && Extension(package.packageFile.name) == PackageExtension ==>
        if containerName.value in storage.containers then
          && r == Success(hasValue)
          && after == Put(storage, containerName.value, package.packageFile.name, StoredBlob(UploadTags(package), now))
        else
          r == Failure(InvalidOperationException(NoSuchContainerMessage(containerName.value))) && after == storage
    {
      after := storage;
      var setup := EnsureSetup();
      if setup.Fail? {
        return Failure(setup.error), after;
      }
      var packageFile := package.packageFile;
      if !packageFile.onDisk {
        return Success(false), after;
      }
      if Extension(packageFile.name) != PackageExtension {
        return Success(false), after;
      }
      var container := GetContainer(storage, containerName.value);
      if container.Failure? {
        return Failure(container.error), after;
      }
      after := Put(storage, containerName.value, packageFile.name, StoredBlob(UploadTags(package), now));
      return Success(hasValue), after;
    }
  }

  /** What `EnsureSetup` ends with when it has to set up: the first exception of the two calls. */
  function SetupFromEnvironment(environment: Environment): (r: Outcome<Exception>)
    ensures r.Fail? ==> r.error == InvalidCredentialException || r.error == ArgumentException(MissingContainerNameMessage)
  {
    match ChooseClient(environment, None, None, None)
    case Failure(e) => Fail(e)
    case Success(_) =>
      if IsNullOrWhiteSpace(Resolve(None, environment.containerName, environment.isWindows)) then
        Fail(ArgumentException(MissingContainerNameMessage))
      else Pass
  }

  /**
   * A blank container name passed to `SetContainer` after authentication is
   * reported, but stays set: the next `EnsureSetup` finds the service ready and
   * later calls address the blank-named container.
   */
  method BlankContainerKept(environment: Environment, connectionString: string, blank: string)
    returns (setContainer: Outcome<Exception>, ensureSetup: Outcome<Exception>, kept: Option<string>)
    requires !AllWhiteSpace(connectionString) && AllWhiteSpace(blank)
    ensures setContainer == Fail(ArgumentException(MissingContainerNameMessage))
    ensures ensureSetup == Pass && kept == Some(blank)
  {
    var service := new DmUpgradeStorageService(environment);
    var authenticated := service.Authenticate(Some(connectionString), None, None);
    setContainer := service.SetContainer(Some(blank));
    ensureSetup := service.EnsureSetup();
    kept := service.containerName;
  }

  /**
   * A fresh service sets itself up on its first call: with the connection string in
   * the process environment and the container name in the configuration, a delete
   * authenticates, removes the blob from that container, and leaves the service
   * ready with that name.
   */
  method LazySetupDelete(connectionString: string, container: string, packageName: string, storage: Storage,
                         isWindows: bool)
    returns (r: Result<Option<bool>, Exception>, after: Storage, kept: Option<string>, ready: bool)
    requires !AllWhiteSpace(connectionString) && !AllWhiteSpace(container) && !AllWhiteSpace(packageName)
    requires container in storage.containers && packageName in storage.containers[container]
    ensures r == Success(Some(true)) && after == Remove(storage, container, packageName)
    ensures kept == Some(container) && ready
  {
    var nowhere := Sources(None, None, None, None);
    var environment := Environment(Sources(None, Some(connectionString), None, None), nowhere, nowhere,
                                   Sources(Some(container), None, None, None), isWindows);
    var service := new DmUpgradeStorageService(environment);
    r, after := service.DeleteAsync(packageName, storage, false);
    kept := service.containerName;
    ready := service.Ready();
  }
}
