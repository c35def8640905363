/** The collection-state hook: the current user's items, the friends roster,
    the selected friend, and the loading and error flags, with the operations
    a view invokes on them and the two views derived from them. */
module CollectionHook {
  import opened NftTypes
  import opened MockNfts

  /** The message of the error thrown when mock data is switched off. */
  const ApiNotImplemented: string := "Real API integration not yet implemented"

  /** `b` is `a` with possibly another mood: every other field is identical. */
  predicate SameButMood(a: Nft, b: Nft)
  {
    a.(currentMood := b.currentMood) == b
  }

  /** Two lists hold the same items in the same order, up to their moods. */
  predicate SameItemsButMoods(a: seq<Nft>, b: seq<Nft>)
  {
    |a| == |b| && forall i :: 0 <= i < |a| ==> SameButMood(a[i], b[i])
  }

  /** The per-list update of a mood change: every item whose id is `nftId`
      takes `mood`; nothing else about the list changes. */
  function SetMoodById(nfts: seq<Nft>, nftId: string, mood: Mood): (r: seq<Nft>)
    ensures SameItemsButMoods(r, nfts)
    ensures forall i :: 0 <= i < |nfts| && nfts[i].id == nftId ==> r[i].currentMood == mood
    ensures forall i :: 0 <= i < |nfts| && nfts[i].id != nftId ==> r[i] == nfts[i]
  {
    if nfts == [] then []
    else
      var head := if nfts[0].id == nftId then nfts[0].(currentMood := mood) else nfts[0];
      [head] + SetMoodById(nfts[1..], nftId, mood)
  }

  /** A mood change keeps the ids, and so the order, of the list. */
  lemma SetMoodPreservesIds(nfts: seq<Nft>, nftId: string, mood: Mood)
    ensures Ids(SetMoodById(nfts, nftId, mood)) == Ids(nfts)
  {
    var r := SetMoodById(nfts, nftId, mood);
    forall i | 0 <= i < |nfts|
      ensures Ids(r)[i] == Ids(nfts)[i]
    {
      assert SameButMood(r[i], nfts[i]);
    }
  }

  /** A mood change for an id no item carries leaves the list as it was. */
  lemma {:induction false} SetMoodUnknownId(nfts: seq<Nft>, nftId: string, mood: Mood)
    requires forall i :: 0 <= i < |nfts| ==> nfts[i].id != nftId
    ensures SetMoodById(nfts, nftId, mood) == nfts
  {
    if nfts != [] {
      SetMoodUnknownId(nfts[1..], nftId, mood);
    }
  }

  /** Of two changes for the same id, the last one wins. */
  lemma {:induction false} SetMoodLastWins(nfts: seq<Nft>, nftId: string, first: Mood, second: Mood)
    ensures SetMoodById(SetMoodById(nfts, nftId, first), nftId, second) == SetMoodById(nfts, nftId, second)
  {
    if nfts != [] {
      var once := SetMoodById(nfts, nftId, first);
      assert once[1..] == SetMoodById(nfts[1..], nftId, first);
      SetMoodLastWins(nfts[1..], nftId, first, second);
    }
  }

  /** Applying the same change twice gives the list of applying it once. */
  lemma SetMoodIdempotent(nfts: seq<Nft>, nftId: string, mood: Mood)
    ensures SetMoodById(SetMoodById(nfts, nftId, mood), nftId, mood) == SetMoodById(nfts, nftId, mood)
  {
    SetMoodLastWins(nfts, nftId, mood, mood);
  }

  /** Changes for two different ids can be applied in either order. */
  lemma {:induction false} SetMoodCommutes(nfts: seq<Nft>, id1: string, m1: Mood, id2: string, m2: Mood)
    requires id1 != id2
    ensures SetMoodById(SetMoodById(nfts, id1, m1), id2, m2)
         == SetMoodById(SetMoodById(nfts, id2, m2), id1, m1)
  {
    if nfts != [] {
      assert SetMoodById(nfts, id1, m1)[1..] == SetMoodById(nfts[1..], id1, m1);
      assert SetMoodById(nfts, id2, m2)[1..] == SetMoodById(nfts[1..], id2, m2);
      SetMoodCommutes(nfts[1..], id1, m1, id2, m2);
    }
  }

  /** A card forwards a mood change only when it is not read-only and was
      given a handler. */
  function ForwardsMoodChange(readonly: bool, hasHandler: bool): bool
  {
    !readonly && hasHandler
  }

  /** The state of one use of the hook. `useMockData` and `autoLoad` are the
      hook's options, fixed for its lifetime. */
  class NftCollection {
    const useMockData: bool
    const autoLoad: bool
    var userNfts: seq<Nft>
    var friends: seq<UserProfile>
    var selectedFriend: Option<UserProfile>
    var isLoading: bool
    var error: Option<string>

    /** No error is shown while a load is running, and the only error the
        hook ever reports is the one of the missing real data source. */
    ghost predicate Valid()
      reads this
    {
      && (isLoading ==> error == None)
      && (error != None ==> error == Some(ApiNotImplemented))
    }

    /** The lists hold nothing but what the data source provides, up to the
        user's mood edits: nothing while mock data is off, and otherwise the
        fixtures (or nothing yet). */
    predicate HoldsProviderData()
      reads this
    {
      && (userNfts == [] || SameItemsButMoods(userNfts, MockCurrentUser.nfts))
      && (friends == [] || friends == MockFriendsProfiles)
      && (!useMockData ==> userNfts == [] && friends == [])
    }

    /** The items on screen: the selected friend's, or the user's own. */
    function DisplayedNfts(): (r: seq<Nft>)
      reads this
      ensures r == userNfts || (selectedFriend.Some? && r == selectedFriend.value.nfts)
    {
      if selectedFriend.Some? then selectedFriend.value.nfts else userNfts
    }

    /** Whether the user's own collection is on screen: then the displayed
        items are the user's, and otherwise those of the selected friend. */
    predicate IsOwnCollection(): (r: bool)
      reads this
      ensures r ==> DisplayedNfts() == userNfts
      ensures !r ==> selectedFriend.Some? && DisplayedNfts() == selectedFriend.value.nfts
    {
      selectedFriend == None
    }

    /** The state right after the hook is first called; both options
        default to on. */
    constructor (useMockData: bool := true, autoLoad: bool := true)
      ensures this.useMockData == useMockData && this.autoLoad == autoLoad
      ensures userNfts == [] && friends == [] && selectedFriend == None
      ensures !isLoading && error == None
      ensures Valid() && HoldsProviderData() && IsOwnCollection()
    {
      this.useMockData := useMockData;
      this.autoLoad := autoLoad;
      userNfts := [];
      friends := [];
      selectedFriend := None;
      isLoading := false;
      error := None;
    }

    /** The part of a load that runs before it suspends: unless loads are
        manual and items are already there, raise the loading flag and clear
        the error. With mock data the load then suspends at its timer. Without
        it nothing suspends: the error is thrown, caught and recorded, and the
        loading flag lowered, all in this same step. */
    method StartLoad() returns (started: bool)
      requires Valid()
      modifies this
      ensures Valid()
      ensures started <==> (autoLoad || |old(userNfts)| == 0)
      ensures started && useMockData ==> isLoading && error == None
      ensures started && !useMockData ==> !isLoading && error == Some(ApiNotImplemented)
      ensures !started ==> isLoading == old(isLoading) && error == old(error)
      ensures userNfts == old(userNfts) && friends == old(friends)
      ensures selectedFriend == old(selectedFriend)
      ensures old(HoldsProviderData()) ==> HoldsProviderData()
    {
      if !autoLoad && |userNfts| > 0 {
        return false;
      }
      isLoading := true;
      error := None;
      started := true;
      if !useMockData {
        error := Some(ApiNotImplemented);
        isLoading := false;
      }
    }

    /** The part of a mock-data load that runs when its timer fires: install
        the fixtures and lower the loading flag. The selected friend is not
        touched, so a friend chosen before the load stays on screen with the
        items it had then. */
    method FinishLoad()
      requires Valid() && useMockData
      modifies this
      ensures Valid() && !isLoading
      ensures userNfts == MockCurrentUser.nfts && friends == MockFriendsProfiles
      ensures error == old(error)
      ensures selectedFriend == old(selectedFriend)
      ensures !IsOwnCollection() ==> DisplayedNfts() == old(DisplayedNfts())
      ensures HoldsProviderData()
    {
      userNfts := MockCurrentUser.nfts;
      friends := MockFriendsProfiles;
      isLoading := false;
    }

    /** A whole load run without interruption: start it and, when it was not
        skipped and suspended at its timer, finish it. */
    method LoadNfts()
      requires Valid()
      modifies this
      ensures Valid()
      ensures selectedFriend == old(selectedFriend)
      ensures !(autoLoad || |old(userNfts)| == 0) ==>
        userNfts == old(userNfts) && friends == old(friends)
        && isLoading == old(isLoading) && error == old(error)
      ensures (autoLoad || |old(userNfts)| == 0) && useMockData ==>
        userNfts == MockUserNfts && friends == MockFriendsProfiles && !isLoading && error == None
      ensures (autoLoad || |old(userNfts)| == 0) && !useMockData ==>
        userNfts == old(userNfts) && friends == old(friends)
        && !isLoading && error == Some(ApiNotImplemented)
      ensures old(HoldsProviderData()) ==> HoldsProviderData()
    {
      var started := StartLoad();
      if started && useMockData {
        FinishLoad();
      }
    }

    /** A refresh is a load. */
    method RefreshNfts()
      requires Valid()
      modifies this
      ensures Valid()
      ensures selectedFriend == old(selectedFriend)
      ensures !(autoLoad || |old(userNfts)| == 0) ==>
        userNfts == old(userNfts) && friends == old(friends)
        && isLoading == old(isLoading) && error == old(error)
      ensures (autoLoad || |old(userNfts)| == 0) && useMockData ==>
        userNfts == MockUserNfts && friends == MockFriendsProfiles && !isLoading && error == None
      ensures (autoLoad || |old(userNfts)| == 0) && !useMockData ==>
        userNfts == old(userNfts) && friends == old(friends)
        && !isLoading && error == Some(ApiNotImplemented)
      ensures old(HoldsProviderData()) ==> HoldsProviderData()
    {
      LoadNfts();
    }

    /** The effect run on mount: load when `autoLoad` is set. */
    method InitialLoad()
      requires Valid()
      modifies this
      ensures Valid()
      ensures !autoLoad ==>
        userNfts == old(userNfts) && friends == old(friends)
        && isLoading == old(isLoading) && error == old(error)
      ensures autoLoad && useMockData ==>
        userNfts == MockUserNfts && friends == MockFriendsProfiles && !isLoading && error == None
      ensures autoLoad && !useMockData ==>
        userNfts == old(userNfts) && friends == old(friends)
        && !isLoading && error == Some(ApiNotImplemented)
      ensures selectedFriend == old(selectedFriend)
      ensures old(HoldsProviderData()) ==> HoldsProviderData()
    {
      if autoLoad {
        LoadNfts();
      }
    }

    /** Change the mood of the user's items with id `nftId`. Only `userNfts`
        changes; the selected friend's items never do. */
    method HandleMoodChange(nftId: string, mood: Mood)
      requires Valid()
      modifies this
      ensures Valid()
      ensures userNfts == SetMoodById(old(userNfts), nftId, mood)
      ensures friends == old(friends) && selectedFriend == old(selectedFriend)
      ensures isLoading == old(isLoading) && error == old(error)
      ensures IsOwnCollection() ==> DisplayedNfts() == SetMoodById(old(DisplayedNfts()), nftId, mood)
      ensures !IsOwnCollection() ==> DisplayedNfts() == old(DisplayedNfts())
      ensures old(HoldsProviderData()) ==> HoldsProviderData()
    {
      ghost var before := userNfts;
      userNfts := SetMoodById(userNfts, nftId, mood);
      if before != [] && SameItemsButMoods(before, MockCurrentUser.nfts) {
        SameItemsButMoodsTransitive(userNfts, before, MockCurrentUser.nfts);
      }
    }

    /** The raw setter of the selected friend: any profile, or none. */
    method SetSelectedFriend(friend: Option<UserProfile>)
      requires Valid()
      modifies this
      ensures Valid()
      ensures selectedFriend == friend
      ensures userNfts == old(userNfts) && friends == old(friends)
      ensures isLoading == old(isLoading) && error == old(error)
      ensures IsOwnCollection() <==> friend == None
      ensures friend.Some? ==> DisplayedNfts() == friend.value.nfts
      ensures friend == None ==> DisplayedNfts() == userNfts
      ensures old(HoldsProviderData()) ==> HoldsProviderData()
    {
      selectedFriend := friend;
    }

    /** The raw setter of the user's items that the hook also hands out. */
    method SetUserNfts(nfts: seq<Nft>)
      requires Valid()
      modifies this
      ensures Valid()
      ensures userNfts == nfts
      ensures friends == old(friends) && selectedFriend == old(selectedFriend)
      ensures isLoading == old(isLoading) && error == old(error)
    {
      userNfts := nfts;
    }

    /** A mood picked on a card of the displayed gallery. Cards exist only
        once loading is over, since a loading gallery shows placeholders. The
        gallery hands the hook's handler to its cards, and marks them
        editable, only for the user's own collection; a card forwards the
        change only when editable and given a handler. */
    method ChangeMoodFromGallery(nftId: string, mood: Mood) returns (forwarded: bool)
      requires Valid() && !isLoading
      modifies this
      ensures Valid()
      ensures forwarded <==> old(IsOwnCollection())
      ensures forwarded ==> userNfts == SetMoodById(old(userNfts), nftId, mood)
      ensures !forwarded ==> userNfts == old(userNfts)
      ensures friends == old(friends) && selectedFriend == old(selectedFriend)
      ensures isLoading == old(isLoading) && error == old(error)
      ensures !forwarded ==> DisplayedNfts() == old(DisplayedNfts())
      ensures old(HoldsProviderData()) ==> HoldsProviderData()
    {
      var own := IsOwnCollection();
      var readonly := !own;
      var hasHandler := own;
      forwarded := ForwardsMoodChange(readonly, hasHandler);
      if forwarded {
        HandleMoodChange(nftId, mood);
      }
    }
  }

  /** Equality up to moods chains. */
  lemma SameItemsButMoodsTransitive(a: seq<Nft>, b: seq<Nft>, c: seq<Nft>)
    requires SameItemsButMoods(a, b) && SameItemsButMoods(b, c)
    ensures SameItemsButMoods(a, c)
  {
    forall i | 0 <= i < |a|
      ensures SameButMood(a[i], c[i])
    {
      assert SameButMood(a[i], b[i]) && SameButMood(b[i], c[i]);
    }
  }

  /** Load, browse a friend, attempt an edit there, return to the own
      collection and edit an item. */
  method ScenarioLoadBrowseEdit()
  {
    var c := new NftCollection(true, true);
    var started := c.StartLoad();
    assert started && c.isLoading && c.error == None;
    c.FinishLoad();
    assert !c.isLoading && c.error == None;
    assert |c.DisplayedNfts()| == 6;

    var alice := MockFriendsProfiles[0];
    c.SetSelectedFriend(Some(alice));
    assert |c.DisplayedNfts()| == 3 && !c.IsOwnCollection();

    var forwarded := c.ChangeMoodFromGallery("f1", Happy);
    assert !forwarded && c.DisplayedNfts() == alice.nfts;

    c.SetSelectedFriend(None);
    assert c.userNfts[0].id == "1" && c.userNfts[0].currentMood == Normal;
    forwarded := c.ChangeMoodFromGallery("1", Excited);
    assert forwarded;
    assert c.userNfts[0].currentMood == Excited;
    SetMoodPreservesIds(MockUserNfts, "1", Excited);
    assert Ids(c.DisplayedNfts()) == Ids(MockUserNfts);
  }

  /** An edit made while a load is suspended is overwritten when it resumes. */
  method ScenarioEditDuringLoadIsLost()
  {
    var c := new NftCollection();
    c.LoadNfts();
    var started := c.StartLoad();
    assert started;
    c.HandleMoodChange("2", Sad);
    assert c.userNfts[1].currentMood == Sad;
    c.FinishLoad();
    assert c.userNfts[1].currentMood == Happy;
  }

  /** With mock data off the load fails and leaves the lists empty; it fails
      before it could suspend, so no loading state is ever observable. */
  method ScenarioRealApiMissing()
  {
    var c := new NftCollection(false);
    c.InitialLoad();
    assert c.error == Some(ApiNotImplemented) && !c.isLoading;
    assert c.userNfts == [] && c.friends == [];
    var started := c.StartLoad();
    assert started && !c.isLoading && c.error == Some(ApiNotImplemented);
  }

  /** With `autoLoad` off, a load is skipped once items are present. */
  method ScenarioManualLoadSkipped()
  {
    var c := new NftCollection(true, false);
    c.InitialLoad();
    assert c.userNfts == [];
    c.RefreshNfts();
    assert |c.userNfts| == 6;
    c.HandleMoodChange("3", Sad);
    var started := c.StartLoad();
    assert !started && c.userNfts[2].currentMood == Sad;
  }
}
