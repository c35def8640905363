# Collection gallery state, in Dafny

This project models the logic behind a gallery of collectible items
("NFTs"). The user browses their own items and their friends' items, and can
give each of their own items a cosmetic mood. Four parts of the repository
are modelled:

- `nft_types.dfy` (module `NftTypes`) models the closed `Mood` enum, the item
  and profile records, the `MOODS` configuration table and the lookup a card
  does in it (`MOODS.find`).
- `mock_nfts.dfy` (module `MockNfts`) models the placeholder-image rule
  `generateNFTImage`, which uses JavaScript's truncating `%`. It also holds the
  development fixtures: six items of the current user, three friends holding
  3, 2 and 4 items, and the current user's profile.
- `collection_hook.dfy` (module `CollectionHook`) models the `useNFTCollection`
  hook as the class `NftCollection`. Its fields are the hook's five state
  variables `userNfts`, `friends`, `selectedFriend`, `isLoading` and `error`,
  plus the two options `useMockData` and `autoLoad`. The asynchronous
  `loadNFTs` suspends at its `await` when mock data is on, so it is split in
  two:
  - `StartLoad` is the part before the `await`;
  - `FinishLoad` is the part after it, and exists only for mock data.
  With mock data, other operations may run between the two. With mock data
  off there is no `await` on the path taken: the error is thrown, caught and
  recorded, and the loading flag lowered, all inside `StartLoad`.
  `LoadNfts`, `RefreshNfts` and `InitialLoad` run a whole load with nothing
  in between. `HandleMoodChange`
  applies the pure list update `SetMoodById`. The two derived views are
  `DisplayedNfts` and `IsOwnCollection`. The hook never checks whether a
  collection is read-only; the views do that. `ChangeMoodFromGallery` models
  that gate: the gallery hands the handler only to the user's own collection,
  and a card forwards a change only when it is editable and has a handler.
  Scenario methods at the end of the file chain the operations; the verifier
  checks their assertions. One shows a mood edit made while a load is suspended being
  overwritten when the load resumes.
- `nft_examples.dfy` (module `NftExamples`) models three of the integration
  examples:
  - `transformOpenSeaNFT`: a method. Its trait `reduce` is a loop
    (`ReduceTraits`) proved against the fold `TraitsMap`, and the fold's
    last-wins property is proved as lemmas.
  - The search filter of the search example (`FilterBySearch`).
  - The local mood update of the real-API template (`LocalGallery`). It
    reuses `CollectionHook.SetMoodById`, because the source writes the same
    `map` there.

The hook's own invariant is `NftCollection.Valid()`. It says that no error is
shown while a load runs, and that the only error ever reported is "Real API
integration not yet implemented". Every operation preserves it.
`HoldsProviderData()` says something stronger: the lists hold only fixture
data, up to the user's mood edits. Every operation except the raw setter
`SetUserNfts` preserves it.

## Behaviour worth noting

- **Refresh while loading.** `loadNFTs` has no in-flight guard. Its only
  guard is `!autoLoad && userNFTs.length > 0`
  (src/hooks/useNFTCollection.ts:60). So `StartLoad` may run again while a
  load is suspended.
- **Selecting a friend.** `setSelectedFriend` is a raw state setter
  (src/hooks/useNFTCollection.ts:54). It accepts any profile, whether or not
  it is in the roster, and so does `SetSelectedFriend`.
- **Mood changes on a friend's collection.** `handleMoodChange` does not look
  at `selectedFriend`. Only the views gate it: the page hands the handler to
  the gallery only for the own collection, and a card forwards only when
  editable (src/components/ui/nft/NFTCollection.tsx:72-73,
  src/components/ui/nft/NFTCard.tsx:28). That gate is
  `ChangeMoodFromGallery`. `HandleMoodChange` itself only maps over
  `userNfts`, so it never alters a friend's items in any case.
- **Load state.** The load state is an `isLoading` flag plus an `error`
  string. A successful load leaves `error` as it was, which is always null
  after the start.
- **The prototype key.** The trait fold assigns into a fresh object literal.
  A trait whose type is `__proto__` reaches the prototype setter, which
  ignores a string, so that trait adds no key.

## Model

| member | source | states |
|---|---|---|
| `NftTypes.MoodIsClosedSet` | src/types/nft.ts:8-15 | every mood is one of the six listed values, each listed once, and distinct moods have distinct run-time strings |
| `NftTypes.MoodsTableInEnumOrder` | src/types/nft.ts:56-63 | the table has one entry per mood, in enum order, with pairwise distinct ids |
| `NftTypes.FindConfig` | src/components/ui/nft/NFTCard.tsx:25 | `find` returns nothing iff no entry has the id; otherwise the first entry with that id |
| `NftTypes.FindMoodConfig` | src/components/ui/nft/NFTCard.tsx:25 | a card's lookup of its item's mood always finds an entry, and that entry is for the item's mood |
| `NftTypes.MoodLookupSucceeds` | src/types/nft.ts:56-63 | looking up any mood in the table succeeds and returns that mood's own entry |
| `MockNfts.JsRemainder` | src/lib/mockNFTs.ts:20 | JavaScript's `%` agrees with the Euclidean remainder on non-negative dividends, lies in (-b, 0] on negative ones, and always differs from the dividend by a multiple of the divisor |
| `MockNfts.GenerateNftImage` | src/lib/mockNFTs.ts:8-21 | an image, when there is one, is one of the eight gradients; every non-negative id has one |
| `MockNfts.GenerateNftImageDefined` | src/lib/mockNFTs.ts:8-21 | an image exists iff the id is non-negative or a multiple of 8; whenever it exists it is the gradient at the id modulo 8 (entry 0 for negative multiples) |
| `MockNfts.GenerateNftImagePeriodic` | src/lib/mockNFTs.ts:20 | for non-negative ids the image depends only on the id modulo 8 |
| `MockNfts.MockUserNftsShape` | src/lib/mockNFTs.ts:24-109 | six items with ids "1".."6" in order, all owned by "currentUser", and they are the current user's items |
| `MockNfts.MockFriendsShape` | src/lib/mockNFTs.ts:112-221 | three friends with fids 12345, 67890, 11111, flagged as friends, holding 3, 2 and 4 items, each owned by its profile's username |
| `MockNfts.MockIdsDistinct` | src/lib/mockNFTs.ts:24-221 | no item id occurs twice across the user's and the friends' items |
| `CollectionHook.SetMoodById` | src/hooks/useNFTCollection.ts:96-100 | same length and order; matching items take the new mood with all other fields kept; other items are untouched |
| `CollectionHook.SetMoodPreservesIds` | src/hooks/useNFTCollection.ts:96-100 | a mood change keeps the sequence of ids |
| `CollectionHook.SetMoodUnknownId` | src/hooks/useNFTCollection.ts:97-99 | a change for an id no item carries leaves the list unchanged |
| `CollectionHook.SetMoodLastWins` | src/hooks/useNFTCollection.ts:97-99 | of two changes for the same id, the second wins |
| `CollectionHook.SetMoodIdempotent` | src/hooks/useNFTCollection.ts:97-99 | applying the same change twice equals applying it once |
| `CollectionHook.SetMoodCommutes` | src/hooks/useNFTCollection.ts:97-99 | changes for different ids commute |
| `CollectionHook.NftCollection.DisplayedNfts` | src/hooks/useNFTCollection.ts:112 | the displayed items are the user's own or the selected friend's |
| `CollectionHook.NftCollection.IsOwnCollection` | src/hooks/useNFTCollection.ts:112-113 | when the own collection is reported the displayed items are the user's; otherwise a friend is selected and the displayed items are that friend's |
| `CollectionHook.NftCollection.constructor` | src/hooks/useNFTCollection.ts:48-56 | both options default to on; empty lists, no selected friend, not loading, no error |
| `CollectionHook.NftCollection.StartLoad` | src/hooks/useNFTCollection.ts:59-84 | skipped (nothing changes) iff loads are manual and items exist; otherwise, with mock data, loading is raised and the error cleared, and without it the load fails at once: not loading, the error message set; the lists and the selection are kept |
| `CollectionHook.NftCollection.FinishLoad` | src/hooks/useNFTCollection.ts:66-84 | after the timer of a mock-data load the fixtures replace both lists and overwrite mood edits; the error is kept; loading ends false; the selection, and a friend's displayed items, are untouched |
| `CollectionHook.NftCollection.LoadNfts` | src/hooks/useNFTCollection.ts:59-85 | an uninterrupted load: the outcome of start followed by finish, or no change when skipped |
| `CollectionHook.NftCollection.RefreshNfts` | src/hooks/useNFTCollection.ts:107-109 | a refresh has exactly the outcome of a load |
| `CollectionHook.NftCollection.InitialLoad` | src/hooks/useNFTCollection.ts:88-92 | on mount, loads iff `autoLoad` |
| `CollectionHook.NftCollection.HandleMoodChange` | src/hooks/useNFTCollection.ts:95-104 | only `userNfts` changes, by `SetMoodById`; friends, selection, loading and error are kept; a displayed friend collection is unaffected; the fixture-data invariant is kept |
| `CollectionHook.NftCollection.SetSelectedFriend` | src/hooks/useNFTCollection.ts:54 | any profile or none is accepted; afterwards the own collection is shown iff no friend is selected, and the displayed items are the friend's or the user's |
| `CollectionHook.NftCollection.SetUserNfts` | src/hooks/useNFTCollection.ts:52 | the raw setter replaces the user's items and nothing else |
| `CollectionHook.NftCollection.ChangeMoodFromGallery` | src/components/ui/nft/NFTCollection.tsx:70-74 | once loading is over (a loading gallery shows placeholders, not cards), a change reaches the hook iff the own collection is displayed, combining the handler and read-only props passed here with the card's own test at src/components/ui/nft/NFTCard.tsx:27-31; otherwise no state changes |
| `NftExamples.TraitsMap` | src/examples/nft-examples.tsx:294-297 | the folded dictionary never holds the `__proto__` key |
| `NftExamples.TraitsMapKeys` | src/examples/nft-examples.tsx:294-297 | a trait type is a key of the folded dictionary iff some trait carries it and it is not `__proto__` |
| `NftExamples.TraitsMapLastWins` | src/examples/nft-examples.tsx:294-297 | the value under a type other than `__proto__` is the value of the last trait with that type |
| `NftExamples.ReduceTraits` | src/examples/nft-examples.tsx:294-297 | the accumulating loop builds exactly the folded dictionary |
| `NftExamples.TransformOpenSeaNft` | src/examples/nft-examples.tsx:285-298 | identifier and plain fields are copied; the name falls back to "#"+identifier when missing or empty, so it is never empty; the mood is `Normal`; traits are absent iff the input has none, otherwise the folded dictionary |
| `NftExamples.ToLower` | src/examples/nft-examples.tsx:185-186 | lower-casing keeps the length and maps each ASCII letter to lower case |
| `NftExamples.Includes` | src/examples/nft-examples.tsx:185-186 | `includes` holds iff the term occurs at some position of the string |
| `NftExamples.MatchesSearch` | src/examples/nft-examples.tsx:185-186 | an item matches iff the lower-cased term occurs in its lower-cased name or collection; the empty term matches every item |
| `NftExamples.FilterBySearch` | src/examples/nft-examples.tsx:184-187 | the result keeps exactly the matching items and is no longer than the input |
| `NftExamples.FilterBySearchAppend` | src/examples/nft-examples.tsx:184-187 | filtering distributes over concatenation, so kept items stay in their original order |
| `NftExamples.FilterBySearchEmptyTerm` | src/examples/nft-examples.tsx:184-187 | the empty term keeps every item |
| `NftExamples.SearchIgnoresTermCase` | src/examples/nft-examples.tsx:184-187 | lower-casing the term first does not change the result |
| `NftExamples.LocalGallery.constructor` | src/examples/nft-examples.tsx:213-214 | starts with no items and loading |
| `NftExamples.LocalGallery.FetchNfts` | src/examples/nft-examples.tsx:216-235 | the template fetch only lowers the loading flag |
| `NftExamples.LocalGallery.OnMoodChange` | src/examples/nft-examples.tsx:241-249 | the local update is the hook's `SetMoodById`, keeping the length |

## Left out

- The view components (`NFTCard`, `MoodSelector`, `FriendsList`, `NFTGallery`, `NFTCollection`, the demo page, the tab) are markup, styling, animation and modal/dropdown flags. Only the read-only gate is modelled, as `ChangeMoodFromGallery`.
- The 800 ms `setTimeout` and the Promise machinery are not modelled. The suspension is only the split into `StartLoad` and `FinishLoad`.
- React's re-render and dependency semantics are not modelled. With `autoLoad`, `loadNFTs` is recreated when `userNFTs.length` changes, so the mount effect runs it again after the first load fills the list. `InitialLoad` models a single run of the effect. The guard in `loadNFTs` reads the length captured when the callback was created; the model reads the current length.
- `console.error` logging is not modelled. The catch branch's fallback message "Failed to load NFTs" is not modelled either, since the only error thrown is an `Error`.
- `localStorage` persistence (`useMoodPersistence`, `saveMoodToLocalStorage`, `loadMoodFromLocalStorage`) is external I/O. The commented-out marketplace `fetch` is a network call.
- The other examples (1 to 7 and 10) only compose views.
- NftExamples.ToLower: lower-cases ASCII letters only, because Unicode case mapping is out of scope. Other characters are left as they are.
- The traits dictionary of an item is a `map`, so it does not keep the insertion order of a JavaScript object's keys, where a reassigned key keeps its first position. Only the card's trait list (`Object.entries`) shows that order, and the views are not modelled.
- NftExamples.TransformOpenSeaNft: the input is typed. `identifier`, `image_url`, `collection` and `owner` are always-present strings; `name`, `description` and `traits` are strings or a trait list, or absent; trait types and values are strings. Missing required fields and other JavaScript values (numbers as trait values, non-string names) are not modelled.
- MockNfts.GenerateNftImage: non-integer ids are not modelled. Gradient, image and avatar strings are opaque.
