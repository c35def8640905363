/** The data transformations of the integration examples: converting a
    marketplace record into an item, the search filter over the displayed
    items, and the local mood update of a gallery that owns its items. */
module NftExamples {
  import opened NftTypes
  import CollectionHook

  // ---------------------------------------------------------------------
  // Marketplace record conversion
  // ---------------------------------------------------------------------

  /** One trait of a marketplace record. */
  datatype OpenSeaTrait = OpenSeaTrait(traitType: string, value: string)

  /** The fields of a marketplace record that the conversion reads; absent
      fields are `None`. */
  datatype OpenSeaNft = OpenSeaNft(
    identifier: string,
    name: Option<string>,
    imageUrl: string,
    collection: string,
    owner: string,
    description: Option<string>,
    traits: Option<seq<OpenSeaTrait>>)

  /** JavaScript truthiness of an optional string: present and non-empty. */
  predicate IsTruthy(s: Option<string>)
  {
    s.Some? && s.value != ""
  }

  /** The one key an assignment on a fresh object literal does not create:
      writing a string under it goes to the prototype setter, which ignores
      anything but an object or `null`. */
  const ProtoKey: string := "__proto__"

  /** One step of the trait fold: write the trait's value under its type. */
  function AddTrait(acc: map<string, string>, t: OpenSeaTrait): map<string, string>
  {
    if t.traitType == ProtoKey then acc else acc[t.traitType := t.value]
  }

  /** The dictionary the trait fold builds after its first `|ts|` steps. It
      never holds the prototype key. */
  function TraitsMap(ts: seq<OpenSeaTrait>): (r: map<string, string>)
    ensures ProtoKey !in r
  {
    if ts == [] then map[]
    else AddTrait(TraitsMap(ts[..|ts| - 1]), ts[|ts| - 1])
  }

  /** A trait type is a key of the folded dictionary exactly when some trait
      carries it and it is not the prototype key. */
  lemma {:induction false} TraitsMapKeys(ts: seq<OpenSeaTrait>, k: string)
    ensures k in TraitsMap(ts) <==> k != ProtoKey && exists i :: 0 <= i < |ts| && ts[i].traitType == k
  {
    if ts != [] {
      var init := ts[..|ts| - 1];
      TraitsMapKeys(init, k);
      if exists i :: 0 <= i < |init| && init[i].traitType == k {
        var i :| 0 <= i < |init| && init[i].traitType == k;
        assert ts[i].traitType == k;
      }
      if exists i :: 0 <= i < |ts| && ts[i].traitType == k {
        var i :| 0 <= i < |ts| && ts[i].traitType == k;
        if i < |ts| - 1 {
          assert init[i].traitType == k;
        }
      }
    }
  }

  /** Last one wins: the value under a type other than the prototype key is
      that of the last trait carrying the type. */
  lemma {:induction false} TraitsMapLastWins(ts: seq<OpenSeaTrait>, i: nat)
    requires i < |ts| && ts[i].traitType != ProtoKey
    requires forall j :: i < j < |ts| ==> ts[j].traitType != ts[i].traitType
    ensures ts[i].traitType in TraitsMap(ts)
    ensures TraitsMap(ts)[ts[i].traitType] == ts[i].value
  {
    if i < |ts| - 1 {
      var init := ts[..|ts| - 1];
      assert init[i] == ts[i];
      TraitsMapLastWins(init, i);
    }
  }

  /** The `reduce` over the trait list: start from an empty dictionary and
      write each trait's value under its type, in list order, where a write
      under the prototype key has no effect. */
  method ReduceTraits(ts: seq<OpenSeaTrait>) returns (acc: map<string, string>)
    ensures acc == TraitsMap(ts)
  {
    acc := map[];
    var i := 0;
    while i < |ts|
      invariant 0 <= i <= |ts|
      invariant acc == TraitsMap(ts[..i])
    {
      assert ts[..i + 1][..i] == ts[..i];
      if ts[i].traitType != ProtoKey {
        acc := acc[ts[i].traitType := ts[i].value];
      }
      i := i + 1;
    }
    assert ts[..|ts|] == ts;
  }

  /** Convert a marketplace record into an item: copy the identifier and the
      plain fields, fall back to "#" and the identifier when the name is
      missing or empty, start at the `Normal` mood, and fold the trait list
      into a dictionary when there is one. */
  method TransformOpenSeaNft(o: OpenSeaNft) returns (r: Nft)
    ensures r.id == o.identifier
    ensures IsTruthy(o.name) ==> r.name == o.name.value
    ensures !IsTruthy(o.name) ==> r.name == "#" + o.identifier
    ensures r.name != ""
    ensures r.image == o.imageUrl && r.collection == o.collection && r.owner == o.owner
    ensures r.description == o.description
    ensures r.currentMood == Normal
    ensures o.traits == None <==> r.traits == None
    ensures o.traits.Some? ==> r.traits == Some(TraitsMap(o.traits.value))
  {
    var name := if IsTruthy(o.name) then o.name.value else "#" + o.identifier;
    var traits: Option<map<string, string>> := None;
    if o.traits.Some? {
      var folded := ReduceTraits(o.traits.value);
      traits := Some(folded);
    }
    r := Nft(o.identifier, name, o.imageUrl, o.collection, o.owner, Normal, o.description, traits);
  }

  // ---------------------------------------------------------------------
  // Search filter
  // ---------------------------------------------------------------------

  /** Lower-casing of one character, restricted to ASCII letters. */
  function LowerChar(c: char): char
  {
    if 'A' <= c <= 'Z' then (c as int + 32) as char else c
  }

  /** Lower-casing of a string, character by character. */
  function ToLower(s: string): (r: string)
    ensures |r| == |s|
    ensures forall i :: 0 <= i < |s| ==> r[i] == LowerChar(s[i])
  {
    if s == [] then [] else [LowerChar(s[0])] + ToLower(s[1..])
  }

  /** `t` occurs in `s` starting at position `i`. */
  predicate OccursAt(s: string, t: string, i: nat)
  {
    i + |t| <= |s| && s[i..i + |t|] == t
  }

  /** `t` occurs somewhere in `s`. */
  ghost predicate Occurs(s: string, t: string)
  {
    exists i: nat :: OccursAt(s, t, i)
  }

  /** `s.includes(t)`, by scanning the start positions from the left. */
  function Includes(s: string, t: string): (r: bool)
    ensures r <==> Occurs(s, t)
  {
    if |t| <= |s| && s[..|t|] == t then
      assert OccursAt(s, t, 0);
      true
    else if s == [] then
      assert forall i: nat :: !OccursAt(s, t, i);
      false
    else
      var rest := Includes(s[1..], t);
      if rest then
        var i: nat :| OccursAt(s[1..], t, i);
        assert s[i + 1..i + 1 + |t|] == s[1..][i..i + |t|];
        assert OccursAt(s, t, i + 1);
        true
      else
        assert forall i: nat :: !OccursAt(s, t, i) by {
          forall i: nat ensures !OccursAt(s, t, i) {
            if i > 0 && OccursAt(s, t, i) {
              assert s[1..][i - 1..i - 1 + |t|] == s[i..i + |t|];
              assert OccursAt(s[1..], t, i - 1);
            }
          }
        }
        false
  }

  /** The search predicate: the lower-cased name or collection contains the
      lower-cased term. The empty term matches every item. */
  predicate MatchesSearch(n: Nft, term: string): (r: bool)
    ensures r <==> Occurs(ToLower(n.name), ToLower(term)) || Occurs(ToLower(n.collection), ToLower(term))
    ensures term == "" ==> r
  {
    assert term == "" ==> OccursAt(ToLower(n.name), ToLower(term), 0);
    Includes(ToLower(n.name), ToLower(term)) || Includes(ToLower(n.collection), ToLower(term))
  }

  /** The filtered list: the items that match, in their original order. */
  function FilterBySearch(nfts: seq<Nft>, term: string): (r: seq<Nft>)
    ensures |r| <= |nfts|
    ensures forall n :: n in r ==> n in nfts && MatchesSearch(n, term)
    ensures forall n :: n in nfts && MatchesSearch(n, term) ==> n in r
  {
    if nfts == [] then []
    else (if MatchesSearch(nfts[0], term) then [nfts[0]] else []) + FilterBySearch(nfts[1..], term)
  }

  /** Filtering a concatenation filters each part in place, so the kept items
      keep their relative order. */
  lemma {:induction false} FilterBySearchAppend(a: seq<Nft>, b: seq<Nft>, term: string)
    ensures FilterBySearch(a + b, term) == FilterBySearch(a, term) + FilterBySearch(b, term)
  {
    if a != [] {
      assert (a + b)[1..] == a[1..] + b;
      FilterBySearchAppend(a[1..], b, term);
    } else {
      assert a + b == b;
    }
  }

  /** The empty search term keeps every item. */
  lemma {:induction false} FilterBySearchEmptyTerm(nfts: seq<Nft>)
    ensures FilterBySearch(nfts, "") == nfts
  {
    if nfts != [] {
      assert OccursAt(ToLower(nfts[0].name), ToLower(""), 0);
      FilterBySearchEmptyTerm(nfts[1..]);
    }
  }

  /** The search ignores the case of ASCII letters in the term. */
  lemma SearchIgnoresTermCase(n: Nft, term: string)
    ensures MatchesSearch(n, ToLower(term)) == MatchesSearch(n, term)
  {
    assert ToLower(ToLower(term)) == ToLower(term);
  }

  // ---------------------------------------------------------------------
  // Gallery owning its items
  // ---------------------------------------------------------------------

  /** A gallery that keeps its own list of items and a loading flag, and
      applies mood changes to its list locally. */
  class LocalGallery {
    var nfts: seq<Nft>
    var loading: bool

    /** Nothing fetched yet; loading. */
    constructor ()
      ensures nfts == [] && loading
    {
      nfts := [];
      loading := true;
    }

    /** The fetch template: it fetches nothing and only lowers the flag. */
    method FetchNfts()
      modifies this
      ensures nfts == old(nfts) && !loading
    {
      loading := false;
    }

    /** The local mood update: the same per-list update the hook uses. */
    method OnMoodChange(id: string, mood: Mood)
      modifies this
      ensures nfts == CollectionHook.SetMoodById(old(nfts), id, mood)
      ensures |nfts| == |old(nfts)| && loading == old(loading)
    {
      nfts := CollectionHook.SetMoodById(nfts, id, mood);
    }
  }
}
