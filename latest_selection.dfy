/**
 * Choosing which of the blobs a tag query found is downloaded as the latest one.
 * The listing is the query's answer in the order the store returns it; each item
 * carries the creation time its properties report, in ticks, where
 * `DateTimeOffset.MinValue` is tick 0.
 */
module LatestSelection {

  import opened Wrappers

  datatype BlobItem = BlobItem(name: string, createdOn: nat)

  /** `DateTimeOffset.MinValue`. */
  const MinValue: nat := 0

  /** The name of the chosen item, if any. */
  function Selected(listing: seq<BlobItem>, index: Option<nat>): (r: Option<string>)
    requires index.Some? ==> index.value < |listing|
    ensures r.Some? <==> index.Some?
  {
    if index.Some? then Some(listing[index.value].name) else None
  }

  // ---------------------------------------------------------------------------
  // The loop as written: `offset` keeps its initial value

  /** The index of the last item created after `MinValue`. */
  function LastAfterMin(listing: seq<BlobItem>): (r: Option<nat>)
    ensures r.Some? ==> r.value < |listing|
  {
    if listing == [] then None
    else if MinValue < listing[|listing| - 1].createdOn then Some(|listing| - 1)
    else LastAfterMin(listing[..|listing| - 1])
  }

  /** What the loop picks: the last item created after `MinValue`, and none when there is no such item. */
  lemma {:induction false} LastAfterMinIsLast(listing: seq<BlobItem>)
    ensures var r := LastAfterMin(listing);
      && (r.None? <==> forall k | 0 <= k < |listing| :: listing[k].createdOn == MinValue)
      && (r.Some? ==> MinValue < listing[r.value].createdOn
                      && forall k | r.value < k < |listing| :: listing[k].createdOn == MinValue)
  {
    if listing != [] && listing[|listing| - 1].createdOn == MinValue {
      var init := listing[..|listing| - 1];
      LastAfterMinIsLast(init);
      assert forall k | 0 <= k < |init| :: init[k] == listing[k];
    }
  }

  /**
   * The selection loop of `DownloadLatestBlobAsync`, as written: every listed blob
   * created after `offset` replaces the choice, and `offset` is never updated.
   */
  method SelectLatest(listing: seq<BlobItem>) returns (latestItem: Option<string>)
    ensures latestItem == Selected(listing, LastAfterMin(listing))
  {
    latestItem := None;
    var offset := MinValue;
    for i := 0 to |listing|
      invariant latestItem == Selected(listing, LastAfterMin(listing[..i]))
    {
      assert listing[..i + 1][..i] == listing[..i];
      if offset < listing[i].createdOn {
        latestItem := Some(listing[i].name);
      }
    }
    assert listing[..|listing|] == listing;
  }

  // ---------------------------------------------------------------------------
  // The newest blob, which is what the method promises

  /** The index of the first item with the greatest creation time after `MinValue`. */
  function Newest(listing: seq<BlobItem>): (r: Option<nat>)
    ensures r.Some? ==> r.value < |listing|
  {
    if listing == [] then None
    else
      var previous := Newest(listing[..|listing| - 1]);
      var best := if previous.Some? then listing[previous.value].createdOn else MinValue;
      if best < listing[|listing| - 1].createdOn then Some(|listing| - 1) else previous
  }

  /**
   * `Newest` is the arg-max: its item was created after `MinValue`, no item is newer,
   * every earlier item is strictly older, and there is none exactly when no item was
   * created after `MinValue`.
   */
  lemma {:induction false} NewestIsMaximal(listing: seq<BlobItem>)
    ensures var r := Newest(listing);
      && (r.None? <==> forall k | 0 <= k < |listing| :: listing[k].createdOn == MinValue)
      && (r.Some? ==> && MinValue < listing[r.value].createdOn
                      && (forall k | 0 <= k < |listing| :: listing[k].createdOn <= listing[r.value].createdOn)
                      && (forall k | 0 <= k < r.value :: listing[k].createdOn < listing[r.value].createdOn))
  {
    if listing != [] {
      var init := listing[..|listing| - 1];
      NewestIsMaximal(init);
      assert forall k | 0 <= k < |init| :: init[k] == listing[k];
    }
  }

  /** The selection loop with `offset` moved to each newly chosen blob, which picks the newest blob. */
  method SelectNewest(listing: seq<BlobItem>) returns (latestItem: Option<string>)
    ensures latestItem == Selected(listing, Newest(listing))
  {
    latestItem := None;
    var offset := MinValue;
    for i := 0 to |listing|
      invariant latestItem == Selected(listing, Newest(listing[..i]))
      invariant offset == if Newest(listing[..i]).Some? then listing[Newest(listing[..i]).value].createdOn else MinValue
    {
      assert listing[..i + 1][..i] == listing[..i];
      if offset < listing[i].createdOn {
        latestItem := Some(listing[i].name);
        offset := listing[i].createdOn;
      }
    }
    assert listing[..|listing|] == listing;
  }

  // ---------------------------------------------------------------------------
  // How the two relate

  /** When the store lists blobs from oldest to newest, the loop as written does pick the newest one. */
  lemma {:induction false} AscendingListingAgrees(listing: seq<BlobItem>)
    requires forall i, j | 0 <= i < j < |listing| :: listing[i].createdOn < listing[j].createdOn
    ensures LastAfterMin(listing) == Newest(listing)
  {
    if listing != [] {
      var init := listing[..|listing| - 1];
      AscendingListingAgrees(init);
      NewestIsMaximal(init);
      assert forall k | 0 <= k < |init| :: init[k] == listing[k];
    }
  }

  /** Two blobs listed newest first: the loop as written picks the older one. */
  lemma NewestFirstListing()
    ensures LastAfterMin([BlobItem("a", 2), BlobItem("b", 1)]) == Some(1)
    ensures Newest([BlobItem("a", 2), BlobItem("b", 1)]) == Some(0)
  {
    var listing := [BlobItem("a", 2), BlobItem("b", 1)];
    assert listing[..1] == [BlobItem("a", 2)];
    assert listing[..1][..0] == [];
  }
}
