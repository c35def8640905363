/** Types of the collection gallery: the closed set of moods, the mood
    configuration table, the item record and the user profile record. */
module NftTypes {

  /** The usual optional value; `None` stands for JavaScript's `null` or
      `undefined` (an absent optional field). */
  datatype Option<+T> = None | Some(value: T)

  /** The six moods an item can wear. The enum is closed: no other value exists. */
  datatype Mood = Normal | Happy | Sad | Surprised | Excited | Cool

  /** The moods in declaration order. */
  const AllMoods: seq<Mood> := [Normal, Happy, Sad, Surprised, Excited, Cool]

  /** The string each enum member stands for at run time. */
  function MoodValue(m: Mood): string
  {
    match m
    case Normal => "normal"
    case Happy => "happy"
    case Sad => "sad"
    case Surprised => "surprised"
    case Excited => "excited"
    case Cool => "cool"
  }

  /** Position of a mood in the declaration order. */
  function MoodIndex(m: Mood): (k: nat)
    ensures k < |AllMoods| && AllMoods[k] == m
  {
    match m
    case Normal => 0
    case Happy => 1
    case Sad => 2
    case Surprised => 3
    case Excited => 4
    case Cool => 5
  }

  /** Every mood is listed exactly once in `AllMoods`, and distinct moods
      have distinct run-time strings. */
  lemma MoodIsClosedSet(m: Mood)
    ensures m in AllMoods
    ensures |AllMoods| == 6
    ensures forall i, j :: 0 <= i < j < |AllMoods| ==> AllMoods[i] != AllMoods[j]
    ensures forall m' :: MoodValue(m') == MoodValue(m) ==> m' == m
  {
    assert AllMoods[MoodIndex(m)] == m;
  }

  /** How a mood is shown: its label (`moodLabel`, since `label` is a Dafny keyword), emoji and colour. */
  datatype MoodConfig = MoodConfig(id: Mood, moodLabel: string, emoji: string, color: string)

  /** A collectible item. Only `currentMood` is ever changed by the gallery. */
  datatype Nft = Nft(
    id: string,
    name: string,
    image: string,
    collection: string,
    owner: string,
    currentMood: Mood,
    description: Option<string>,
    traits: Option<map<string, string>>)

  /** A profile and the items it holds. */
  datatype UserProfile = UserProfile(
    fid: int,
    username: string,
    displayName: string,
    pfpUrl: Option<string>,
    nfts: seq<Nft>,
    isFriend: Option<bool>)

  /** The mood configuration table, one entry per mood. */
  const Moods: seq<MoodConfig> := [
    MoodConfig(Normal, "Normal", "\U{1F60A}", "#94a3b8"),
    MoodConfig(Happy, "Joyeux", "\U{1F604}", "#fbbf24"),
    MoodConfig(Sad, "Triste", "\U{1F622}", "#60a5fa"),
    MoodConfig(Surprised, "Surpris", "\U{1F632}", "#f472b6"),
    MoodConfig(Excited, "Excit\U{E9}", "\U{1F929}", "#a78bfa"),
    MoodConfig(Cool, "Cool", "\U{1F60E}", "#34d399")
  ]

  /** The table lists the moods in declaration order, so its ids are
      pairwise distinct and cover the whole enum. */
  lemma MoodsTableInEnumOrder()
    ensures |Moods| == |AllMoods|
    ensures forall i :: 0 <= i < |Moods| ==> Moods[i].id == AllMoods[i]
    ensures forall i, j :: 0 <= i < j < |Moods| ==> Moods[i].id != Moods[j].id
    ensures forall m: Mood :: Moods[MoodIndex(m)].id == m
  {
  }

  /** `Array.prototype.find` over a configuration list: the first entry whose
      id is `m`, or nothing. */
  function FindConfig(table: seq<MoodConfig>, m: Mood): (r: Option<MoodConfig>)
    ensures r.None? <==> forall i :: 0 <= i < |table| ==> table[i].id != m
    ensures r.Some? ==> exists i :: 0 <= i < |table| && table[i] == r.value
                                   && forall j :: 0 <= j < i ==> table[j].id != m
    ensures r.Some? ==> r.value.id == m
  {
    if table == [] then None
    else if table[0].id == m then Some(table[0])
    else
      var rest := FindConfig(table[1..], m);
      if rest.Some? then
        ghost var i :| 0 <= i < |table[1..]| && table[1..][i] == rest.value
                       && forall j :: 0 <= j < i ==> table[1..][j].id != m;
        assert table[i + 1] == rest.value;
        rest
      else
        assert forall i :: 1 <= i < |table| ==> table[i].id == table[1..][i - 1].id;
        rest
  }

  /** The lookup a card performs to show the mood of its item. */
  function FindMoodConfig(m: Mood): (r: Option<MoodConfig>)
    ensures r.Some? && r.value.id == m
  {
    assert Moods[MoodIndex(m)].id == m;
    FindConfig(Moods, m)
  }

  /** Looking up a mood in the table always succeeds and returns that mood's
      own entry. */
  lemma MoodLookupSucceeds(m: Mood)
    ensures FindMoodConfig(m) == Some(Moods[MoodIndex(m)])
    ensures FindMoodConfig(m).value.id == m
  {
    MoodsTableInEnumOrder();
    var r := FindConfig(Moods, m);
    assert Moods[MoodIndex(m)].id == m;
    var i :| 0 <= i < |Moods| && Moods[i] == r.value
             && forall j :: 0 <= j < i ==> Moods[j].id != m;
    assert i == MoodIndex(m);
  }
}
