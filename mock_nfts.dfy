/** The development fixtures: a placeholder-image rule, the current user's six
    items, three friends with their items, and the current user's profile. */
module MockNfts {
  import opened NftTypes

  /** The placeholder backgrounds, indexed by `GenerateNftImage`. */
  const Gradients: seq<string> := [
    "linear-gradient(135deg, #667eea 0%, #764ba2 100%)",
    "linear-gradient(135deg, #f093fb 0%, #f5576c 100%)",
    "linear-gradient(135deg, #4facfe 0%, #00f2fe 100%)",
    "linear-gradient(135deg, #43e97b 0%, #38f9d7 100%)",
    "linear-gradient(135deg, #fa709a 0%, #fee140 100%)",
    "linear-gradient(135deg, #30cfd0 0%, #330867 100%)",
    "linear-gradient(135deg, #a8edea 0%, #fed6e3 100%)",
    "linear-gradient(135deg, #ff9a9e 0%, #fecfef 100%)"
  ]

  /** JavaScript's `%` on integers: the remainder takes the sign of the
      dividend (truncating division), unlike Dafny's Euclidean `%`. */
  function JsRemainder(a: int, b: int): (r: int)
    requires b > 0
    ensures a >= 0 ==> r == a % b
    ensures a < 0 ==> -b < r <= 0
    ensures (a - r) % b == 0
  {
    if a >= 0 then
      var q := a / b;
      assert a - a % b == b * q;
      MultipleHasNoRemainder(b, q);
      a % b
    else
      var q := (-a) / b;
      assert -a == b * q + (-a) % b;
      assert a - -((-a) % b) == b * (-q);
      MultipleHasNoRemainder(b, -q);
      -((-a) % b)
  }

  /** A multiple of `b` leaves no remainder when divided by `b`. */
  lemma MultipleHasNoRemainder(b: int, k: int)
    requires b > 0
    ensures (b * k) % b == 0
  {
    var x := b * k;
    var q, r := x / b, x % b;
    assert x == b * q + r && 0 <= r < b;
    assert b * (k - q) == r;
    ProductSign(b, k - q);
    assert k - q == 0;
  }

  /** A positive `b` times a non-zero `d` is at least `b` away from zero. */
  lemma ProductSign(b: int, d: int)
    requires b > 0
    ensures d >= 1 ==> b * d >= b
    ensures d <= -1 ==> b * d <= -b
  {
    if d >= 1 {
      ProductAtLeast(b, d);
    } else if d <= -1 {
      ProductAtLeast(b, -d);
      assert b * d == -(b * (-d));
    }
  }

  /** A positive `b` times `d >= 1` is at least `b`. */
  lemma {:induction false} ProductAtLeast(b: int, d: int)
    requires b > 0 && d >= 1
    ensures b * d >= b
    decreases d
  {
    if d > 1 {
      ProductAtLeast(b, d - 1);
      assert b * d == b * (d - 1) + b;
    }
  }

  /** `gradients[id % gradients.length]`: indexing with a negative remainder
      yields `undefined` in JavaScript, modelled as `None`. */
  function GenerateNftImage(id: int): (r: Option<string>)
    ensures r.Some? ==> r.value in Gradients
    ensures id >= 0 ==> r.Some?
  {
    var k := JsRemainder(id, |Gradients|);
    if 0 <= k then Some(Gradients[k]) else None
  }

  /** An image exists exactly for the non-negative ids and the negative
      multiples of eight; it is then the gradient at `id` modulo eight (for
      -8, JavaScript's index -0 reads entry 0). */
  lemma GenerateNftImageDefined(id: int)
    ensures GenerateNftImage(id).Some? <==> (id >= 0 || id % 8 == 0)
    ensures GenerateNftImage(id).Some? ==> GenerateNftImage(id) == Some(Gradients[id % 8])
  {
    if id < 0 {
      NegatedRemainder(id);
    }
  }

  /** For a negative `a`, `-a` is a multiple of eight exactly when `a` is. */
  lemma NegatedRemainder(a: int)
    requires a < 0
    ensures (-a) % 8 == 0 <==> a % 8 == 0
  {
    if (-a) % 8 == 0 {
      var q := (-a) / 8;
      assert a == 8 * (-q);
    }
    if a % 8 == 0 {
      var q := a / 8;
      assert -a == 8 * (-q);
    }
  }

  /** For non-negative ids the image depends only on the id modulo eight. */
  lemma {:induction false} GenerateNftImagePeriodic(id: int, k: nat)
    requires id >= 0
    ensures GenerateNftImage(id + 8 * k) == GenerateNftImage(id)
  {
    GenerateNftImageDefined(id);
    GenerateNftImageDefined(id + 8 * k);
    assert (id + 8 * k) % 8 == id % 8;
  }

  /** The image of a fixture item: the fixtures only call the generator with
      indices 0 to 7. */
  function FixtureImage(k: nat): (r: string)
    requires k < 8
    ensures GenerateNftImage(k) == Some(r)
  {
    GenerateNftImageDefined(k);
    GenerateNftImage(k).value
  }

  /** The current user's items. */
  const MockUserNfts: seq<Nft> := [
    Nft("1", "Cosmic Dream #42", FixtureImage(0), "Cosmic Dreams", "currentUser", Normal,
        Some("A beautiful cosmic creature"),
        Some(map["background" := "Galaxy", "eyes" := "Starry", "mouth" := "Smile"])),
    Nft("2", "Digital Soul #108", FixtureImage(1), "Digital Souls", "currentUser", Happy,
        Some("Abstract digital art"),
        Some(map["background" := "Neon", "pattern" := "Geometric", "vibe" := "Energetic"])),
    Nft("3", "Retro Wave #256", FixtureImage(2), "Retro Waves", "currentUser", Cool,
        Some("80s inspired artwork"),
        Some(map["era" := "80s", "style" := "Synthwave", "color" := "Purple/Pink"])),
    Nft("4", "Nature Spirit #77", FixtureImage(3), "Nature Spirits", "currentUser", Normal,
        Some("Organic flowing forms"),
        Some(map["element" := "Water", "form" := "Flowing", "energy" := "Calm"])),
    Nft("5", "Cyber Punk #512", FixtureImage(4), "Cyber Punks", "currentUser", Excited,
        Some("Futuristic cyber aesthetic"),
        Some(map["tech" := "High", "attitude" := "Rebel", "glow" := "Neon"])),
    Nft("6", "Dream Weaver #33", FixtureImage(5), "Dream Weavers", "currentUser", Surprised,
        Some("Surreal dreamscape"),
        Some(map["realm" := "Dreams", "texture" := "Soft", "mood" := "Ethereal"]))
  ]

  /** The friends' profiles with their items. */
  const MockFriendsProfiles: seq<UserProfile> := [
    UserProfile(12345, "alice", "Alice Wonder",
      Some("https://api.dicebear.com/7.x/avataaars/svg?seed=alice"),
      [
        Nft("f1", "Mystic Art #99", FixtureImage(6), "Mystic Arts", "alice", Happy,
            Some("Mystical artwork"), None),
        Nft("f2", "Ocean Wave #44", FixtureImage(7), "Ocean Waves", "alice", Normal,
            Some("Peaceful ocean scene"), None),
        Nft("f3", "Fire Dance #88", FixtureImage(0), "Fire Dance", "alice", Excited,
            Some("Energetic fire patterns"), None)
      ],
      Some(true)),
    UserProfile(67890, "bob", "Bob Builder",
      Some("https://api.dicebear.com/7.x/avataaars/svg?seed=bob"),
      [
        Nft("f4", "Tech Nexus #222", FixtureImage(1), "Tech Nexus", "bob", Cool,
            Some("Technological marvel"), None),
        Nft("f5", "Abstract Mind #111", FixtureImage(2), "Abstract Minds", "bob", Normal,
            Some("Abstract thoughts visualized"), None)
      ],
      Some(true)),
    UserProfile(11111, "charlie", "Charlie Creator",
      Some("https://api.dicebear.com/7.x/avataaars/svg?seed=charlie"),
      [
        Nft("f6", "Digital Harmony #555", FixtureImage(3), "Digital Harmony", "charlie", Happy,
            Some("Perfect balance"), None),
        Nft("f7", "Pixel Dream #777", FixtureImage(4), "Pixel Dreams", "charlie", Surprised,
            Some("Pixelated wonder"), None),
        Nft("f8", "Neon Night #333", FixtureImage(5), "Neon Nights", "charlie", Normal,
            Some("Glowing city nights"), None),
        Nft("f9", "Space Odyssey #999", FixtureImage(6), "Space Odyssey", "charlie", Cool,
            Some("Journey through stars"), None)
      ],
      Some(true))
  ]

  /** The current user's profile. */
  const MockCurrentUser: UserProfile :=
    UserProfile(99999, "you", "Your Collection",
      Some("https://api.dicebear.com/7.x/avataaars/svg?seed=you"),
      MockUserNfts, None)

  /** The ids of a list of items, in order. */
  function Ids(nfts: seq<Nft>): seq<string>
  {
    seq(|nfts|, i requires 0 <= i < |nfts| => nfts[i].id)
  }

  /** The ids in a list are pairwise distinct. */
  predicate DistinctIds(nfts: seq<Nft>)
  {
    forall i, j :: 0 <= i < j < |nfts| ==> nfts[i].id != nfts[j].id
  }

  /** Every item of every friend, in roster order. */
  function AllFriendNfts(): seq<Nft>
  {
    MockFriendsProfiles[0].nfts + MockFriendsProfiles[1].nfts + MockFriendsProfiles[2].nfts
  }

  /** Six items with ids "1" to "6", all held by "currentUser", and the current
      user's profile holds exactly these. */
  lemma MockUserNftsShape()
    ensures Ids(MockUserNfts) == ["1", "2", "3", "4", "5", "6"]
    ensures forall n :: n in MockUserNfts ==> n.owner == "currentUser"
    ensures MockCurrentUser.nfts == MockUserNfts
  {
  }

  /** Three friends with fids 12345, 67890 and 11111, flagged as friends,
      holding 3, 2 and 4 items, each item owned by its profile's username. */
  lemma MockFriendsShape()
    ensures |MockFriendsProfiles| == 3
    ensures MockFriendsProfiles[0].fid == 12345 && |MockFriendsProfiles[0].nfts| == 3
    ensures MockFriendsProfiles[1].fid == 67890 && |MockFriendsProfiles[1].nfts| == 2
    ensures MockFriendsProfiles[2].fid == 11111 && |MockFriendsProfiles[2].nfts| == 4
    ensures forall p :: p in MockFriendsProfiles ==> p.isFriend == Some(true)
    ensures forall p, n :: p in MockFriendsProfiles && n in p.nfts ==> n.owner == p.username
  {
  }

  /** No id occurs twice across the user's and the friends' items. */
  lemma MockIdsDistinct()
    ensures DistinctIds(MockUserNfts + AllFriendNfts())
  {
    var all := MockUserNfts + AllFriendNfts();
    assert Ids(all) == ["1", "2", "3", "4", "5", "6", "f1", "f2", "f3", "f4", "f5", "f6", "f7", "f8", "f9"];
  }
}
