# Cosmic Codex: a Dafny model of the list and detail controllers

Cosmic Codex is a browser catalogue of Star Wars characters read from a
remote REST service (`https://swapi.dev/api`). Beneath its React markup lies
a little sequential logic, and that logic is what this project models and proves:

- **The detail page** (`CharacterDetail.tsx`) keeps five state cells:
  the loaded `character`, the scratch copy `editedChar`, `loading`,
  `error` and `isEditing`. It loads one record, toggles an edit mode, changes
  one form field at a time, saves the scratch into browser storage under
  `character_<id>`, and can cancel. A render function chooses between the
  spinner, the error text, "Character not found", the edit form and the
  read-only view. Here it is the class `CharacterDetail.DetailComponent`,
  with one method per handler, plus the pure `CharacterDetail.SelectView`.
- **The list page** (`CharacterList.tsx`) owns the settled search text and
  the page number (class `CharacterList.ListComponent`). Its pure parts
  are the page count `ceil(count / 10)`, the prefetch of the next page, the
  identifier a card navigates to (the last non-empty `/` segment of the
  record's URL), and the choice between the spinner, "Failed to fetch",
  "No characters found" and the cards.
- **The service layer** (`api.ts`, `localStorage.ts`) builds the listing
  request with its defaults (page 1, empty search) and the detail URL. It
  also keeps local edits in browser storage under two key schemes,
  `character-<id>` (`Api`) and `character_<id>` (`LocalStorageService`).
  Browser storage is the class `WebStorage.Storage` over a
  `map<string, Character>`. Serialising to JSON and parsing back is taken
  to be the identity.

Proved: each state transition's full effect. The store round-trips, keeps
ids apart, and lets the last write win. The two key schemes are disjoint, so
neither service can disturb the other. A save from the detail page is exactly
what `LocalStorageService.getCharacter` returns. The `ceil` bounds of the page
count hold, and a prefetched page never passes the last page. The derived id
is the last non-empty `/` segment of a URL, and there is none exactly when the
URL is all slashes. Deriving the id from the detail URL built for a non-empty
id without `/` gives that id back; the other direction is not claimed. Both
render precedences are proved. The
unit tests' scenarios are re-told as client methods: edit 172→175 and save
shows 175, edit and cancel shows 172.

Files: `records.dfy` (record shapes), `web_storage.dfy`, `segments.dfy`
(JavaScript `split`, `filter(Boolean)`, `pop`), `api.dfy`,
`local_storage.dfy`, `character_list.dfy` and `character_detail.dfy`.

`CharacterDetail.tsx` does not read a local override when it loads, and it
does not validate height or mass. `CharacterList.tsx` has no stale-response
guard of its own. It does not need one: React Query keys each fetch by
(search, page), so a late response only fills its own cache entry, and the
view reads the data of the current key. That library behaviour is not
modelled. The load effect of `CharacterDetail.tsx` has no cleanup, so a late
response for an earlier id could overwrite its state. The model rules this
out by fixing the id for the component's lifetime (see Left out).
`CharacterDetail.tsx` saves under one key per character,
`character_<id>`, not under one aggregate key.

## Model

| member | source | states |
|---|---|---|
| Api.GetCharacters | src/services/api.ts:29-35 | the listing request goes to `/people/`; an omitted page is 1 and an omitted search is `''`; given values pass through as the `page` and `search` parameters |
| Api.CharacterUrl | src/services/api.ts:39-41 | the detail URL is the base URL, `/people/`, the id, then a closing slash, so the id can be cut back out of it |
| Api.LocalEditKeyInjective | src/services/api.ts:46 | two ids with the same `character-` key are the same id |
| Api.SaveCharacterLocally | src/services/api.ts:45-47 | the store afterwards is the old store with `character-<id>` set to the record; `getLocalCharacter(id)` then returns it; every other id reads as before |
| Api.GetLocalCharacter | src/services/api.ts:49-52 | reads exactly the `character-<id>` entry: a record when that key is present, null otherwise |
| Api.LocalRoundTrip | src/services/api.ts:45-52 | `getLocalCharacter(id)` after `saveCharacterLocally(id, c)` returns `c` |
| Api.LocalMissing | src/services/api.ts:49-51 | an id for which nothing was saved reads as null |
| Api.LocalNonInterference | src/services/api.ts:46-50 | saving for `a` leaves `getLocalCharacter(b)` unchanged for every `b ≠ a` |
| Api.LocalLastWriteWins | src/services/api.ts:46 | two saves for one id leave the same store as the second save alone |
| LocalStorageService.StorageKeyInjective | src/services/localStorage.ts:5-10 | two ids with the same `character_` key are the same id |
| LocalStorageService.KeySchemesDisjoint | src/services/localStorage.ts:10 | no `character_` key equals any `character-` key of the other scheme |
| LocalStorageService.SaveCharacter | src/services/localStorage.ts:9-11 | the store gains `character_<id>` mapped to the record; `getCharacter(id)` returns it; other ids read as before; `getLocalCharacter` reads as before for every id |
| LocalStorageService.GetCharacter | src/services/localStorage.ts:4-7 | reads exactly the `character_<id>` entry: a record when that key is present, null otherwise |
| LocalStorageService.RoundTrip | src/services/localStorage.ts:4-11 | `getCharacter(id)` after `saveCharacter(id, c)` returns `c` |
| LocalStorageService.Missing | src/services/localStorage.ts:5-6 | an id for which nothing was saved reads as null |
| LocalStorageService.NonInterference | src/services/localStorage.ts:5-10 | saving for `a` leaves `getCharacter(b)` unchanged for every `b ≠ a` |
| LocalStorageService.LastWriteWins | src/services/localStorage.ts:10 | two saves for one id leave the same store as the second save alone |
| LocalStorageService.SaveKeepsLocalEdits | src/services/localStorage.ts:10 | a `saveCharacter` never changes what `getLocalCharacter` returns for any id |
| LocalStorageService.LocalEditsKeepSaved | src/services/api.ts:46 | a `saveCharacterLocally` never changes what `getCharacter` returns for any id |
| Segments.Split | src/components/CharacterList.tsx:91 | `split('/')` yields at least one piece and no piece contains the separator |
| Segments.NonEmpty | src/components/CharacterList.tsx:91 | `filter(Boolean)` keeps only non-empty pieces, each taken from the input, and keeps every non-empty piece of the input |
| Segments.Last | src/components/CharacterList.tsx:91 | `pop()` gives nothing exactly for an empty array, and otherwise its last element |
| Segments.NonEmptySingleton | src/components/CharacterList.tsx:91 | one piece is kept exactly when it is non-empty; with NonEmptyConcat this fixes the filtered result and its order for every input |
| Segments.NonEmptyLast | src/components/CharacterList.tsx:91 | the last piece kept is a non-empty piece of the input after which every piece is empty |
| Segments.NonEmptyOfEmptyPieces | src/components/CharacterList.tsx:91 | filtering only empty pieces keeps nothing |
| Segments.SplitOfSeparators | src/components/CharacterList.tsx:91 | a string of separators only splits into empty pieces |
| Segments.JoinOfEmptyPieces | src/components/CharacterList.tsx:91 | joining empty pieces gives separators only |
| Segments.JoinSplit | src/components/CharacterList.tsx:91 | joining the pieces of a split with the separator gives the string back |
| Segments.SplitWithoutSeparator | src/components/CharacterList.tsx:91 | a string without the separator splits into itself alone |
| Segments.SplitAtSeparator | src/components/CharacterList.tsx:91 | splitting `a + sep + b` gives the pieces of `a` followed by those of `b` |
| Segments.NonEmptyConcat | src/components/CharacterList.tsx:91 | filtering a concatenation is the concatenation of the filtered parts |
| CharacterList.TotalPages | src/components/CharacterList.tsx:58 | `ceil(count / 10)`: `10*(pages-1) < count <= 10*pages`; no negative page count for count ≥ 0; count 0 gives 0 pages |
| CharacterList.ToQueryResult | src/components/CharacterList.tsx:54-60 | the query keeps the response's records in order and its page count satisfies the `ceil` bounds for the response's count |
| CharacterList.KeyRequest | src/components/CharacterList.tsx:53-55 | the query for key (search, page) calls `getCharacters(page, search)` |
| CharacterList.DataOrDefault | src/components/CharacterList.tsx:52 | with no data the view works on an empty list and 0 pages; otherwise on the data itself |
| CharacterList.Prefetch | src/components/CharacterList.tsx:64-70 | a prefetch happens iff `totalPages > 0` and `page < totalPages`; its key is (search, page+1), and that page lies in 2..totalPages |
| CharacterList.DeriveId | src/components/CharacterList.tsx:91 | a derived id is non-empty and holds no `/` |
| CharacterList.DeriveIdIsLastSegment | src/components/CharacterList.tsx:91 | a derived id is some segment `j` of `url.split('/')` after which every segment is empty: the last non-empty segment |
| CharacterList.DeriveIdMissing | src/components/CharacterList.tsx:91 | no id is derived exactly when every character of the URL is `/` |
| CharacterList.DeriveIdOfFinalSegment | src/components/CharacterList.tsx:91 | for any prefix, the id of `prefix/id` (no closing slash) is `id` when `id` is non-empty and slash-free |
| CharacterList.NavigationTarget | src/components/CharacterList.tsx:92 | the route is `/character/` followed by the derived id, or by `undefined` when none is derived |
| CharacterList.DeriveIdOfTrailingSegment | src/components/CharacterList.tsx:91 | for any prefix, the id of `prefix/id/` is `id` when `id` is non-empty and slash-free |
| CharacterList.DetailUrlRoundTrip | src/components/CharacterList.tsx:91-92 | for a non-empty id without `/`, deriving the id from the detail URL of `src/services/api.ts:40` gives the id back, and the card navigates to `/character/<id>` |
| CharacterList.FirstCharacterRoute | tests/e2e/character-list.spec.ts:143-150 | `https://swapi.dev/api/people/1/` yields id `1` and the route `/character/1` |
| CharacterList.CardFor | src/components/CharacterList.tsx:243-324 | a card shows the record's name, birth year and gender, and a click goes to `/character/<derived id>` |
| CharacterList.SelectView | src/components/CharacterList.tsx:157-245 | spinner iff loading with no records; otherwise the error text "Failed to fetch" iff an `Error` was raised; otherwise "No characters found" iff the list is empty; otherwise exactly one card per record, in response order, each leading to its record's route; the listing carries the page count, the current page and a spinner overlay while loading |
| CharacterList.EmptyResponseShowsNoCharacters | src/__tests__/CharacterList.test.tsx:97-113 | a settled `count: 0, results: []` shows "No characters found" with 0 pages, not an error or a blank screen |
| CharacterList.ListComponent.constructor | src/components/CharacterList.tsx:31-32 | the list starts on page 1 with the empty search |
| CharacterList.ListComponent.SettleSearch | src/components/CharacterList.tsx:38-41 | a settled search sets the text and resets the page to 1 |
| CharacterList.ListComponent.HandlePageChange | src/components/CharacterList.tsx:86-88 | a page change sets only the page; the search is unchanged |
| CharacterList.InitialRenderScenario | src/__tests__/CharacterList.test.tsx:8-11 | on mount the spinner shows and the first fetch is for page 1 with the empty search |
| CharacterList.SearchScenario | src/pages/__tests__/CharacterList.test.tsx:62-71 | after a settled search for a value, from whatever page, the fetch is for (1, value) |
| CharacterList.PaginationScenario | src/pages/__tests__/CharacterList.test.tsx:73-86 | with 82 records, clicking page 2 fetches (2, '') and prefetches page 3 |
| CharacterList.NoPrefetchScenario | src/components/CharacterList.tsx:65 | there is no prefetch before data arrives, and none from the last page |
| CharacterDetail.WithField | src/components/CharacterDetail.tsx:99-153 | a field change replaces exactly that one form field; the other six and the remaining fields stay as they were; the record is unchanged iff the field already held the value |
| CharacterDetail.SelectView | src/components/CharacterDetail.tsx:62-93 | precedence: spinner iff loading; then the error text iff an error is set; then "Character not found" iff there is no record; then the form (titled with the committed name, showing the scratch) iff editing with a scratch copy; else the read-only record |
| CharacterDetail.DetailComponent.constructor | src/components/CharacterDetail.tsx:19-23 | at mount: loading, no record, no scratch, no error, not editing |
| CharacterDetail.DetailComponent.LoadEffect | src/components/CharacterDetail.tsx:25-40 | without an id nothing changes; with one, loading ends, and a fetched body becomes the record, while a rejection sets exactly "Failed to load character details." |
| CharacterDetail.DetailComponent.HandleEditToggle | src/components/CharacterDetail.tsx:42-47 | from view mode with a record the scratch becomes an exact copy and editing starts; from edit mode only the flag flips back |
| CharacterDetail.DetailComponent.HandleFieldChange | src/components/CharacterDetail.tsx:99-153 | the scratch becomes the old scratch with one field replaced; the record and every other cell are unchanged |
| CharacterDetail.DetailComponent.HandleSave | src/components/CharacterDetail.tsx:49-55 | with a scratch and an id: the store maps `character_<id>` to the scratch (so `getCharacter(id)` returns it), the scratch is committed and editing ends; otherwise nothing changes, the store included |
| CharacterDetail.DetailComponent.HandleCancel | src/components/CharacterDetail.tsx:57-60 | the scratch is dropped and editing ends; the record and the store are untouched |
| CharacterDetail.InitialRenderScenario | src/__tests__/CharacterDetail.test.tsx:40-43 | before the fetch settles the spinner shows |
| CharacterDetail.MissingIdScenario | src/components/CharacterDetail.tsx:27 | without an id the spinner stays, whatever the service would answer |
| CharacterDetail.LoadedScenario | src/__tests__/CharacterDetail.test.tsx:45-60 | a fetched record is shown read-only |
| CharacterDetail.NotFoundScenario | src/components/CharacterDetail.tsx:74-76 | a response without a record ends in "Character not found" |
| CharacterDetail.LoadErrorScenario | src/__tests__/CharacterDetail.test.tsx:62-72 | a rejected fetch shows exactly "Failed to load character details." |
| CharacterDetail.EditModeScenario | src/__tests__/CharacterDetail.test.tsx:74-91 | Edit opens the form on an exact copy of the loaded record |
| CharacterDetail.EditSaveScenario | src/__tests__/CharacterDetail.test.tsx:93-124 | edit the height from 172 to 175 and save: the view shows 175 and `character_1` holds the edited record |
| CharacterDetail.EditCancelScenario | src/__tests__/CharacterDetail.test.tsx:126-157 | edit the height, then cancel: the view shows the original 172 and nothing was stored |

## Left out

- HTTP transport: the axios calls of `getCharacters` and `getCharacter` are foreign I/O. The model keeps the request they issue (`PeopleRequest`, `CharacterUrl`). A settled detail fetch is the parameter `FetchOutcome`: a body, which may hold no record, or a rejection.
- React Query: its cache, the asynchronous run of the prefetch, and how it computes `isLoading`, `isError` and `error`. These become the parameters of the list views. The `error instanceof Error` test is a boolean parameter.
- lodash `debounce`: its timing, its collapsing of a burst of input into one call, and its cancellation on unmount. Only the settled callback is modelled (`SettleSearch`).
- Stale responses: on the list page React Query's per-key cache keeps a late response for an earlier (search, page) out of the current view. The cache is not modelled. On the detail page the load effect has no cleanup, so a late response for an earlier id could still set `character` or `error`. The model cannot show this, because its id is fixed (see the route-parameter line below).
- The intermediate render while the detail fetch is awaited: `LoadEffect` is the settled effect of the whole async function. During the await `loading` is already true, so the spinner shows either way.
- The route parameter is fixed for the lifetime of a `DetailComponent`. The effect re-running when the id changes is not modelled.
- JSON serialisation is the identity. A failing `setItem` (quota or serialisation) is not modelled.
- JavaScript numbers are unbounded integers here. A non-integral or non-finite `count` is not modelled.
- `LocalStorageService` imports its `Character` type from a `types` module that is not part of this model. The record shape of `src/services/api.ts:5-20` is used instead.
- `CharacterDetail.tsx:14,30` calls `api.characters.getCharacter` and `CharacterList.tsx:16,55,70` calls `api.characters.getCharacters`, both through a default export that `src/services/api.ts` does not have. The model takes the detail fetch as the abstract outcome above, and binds the list calls to the named `getCharacters` of `api.ts:29-37` (`CharacterList.KeyRequest` calls `Api.GetCharacters`).
- Navigation itself (`navigate`, and the back button to `/`) is left out. Only the route string a card click builds is modelled (`NavigationTarget`).
- CharacterList.ListComponent.HandlePageChange: page numbers below 1 are not modelled, because the pagination control only offers pages 1..count.
- Presentation: the starfield animation, the layout, the theme, the app and router wiring, the page wrappers and all styling.
- Some tests in the repository were written for other versions of the components. What only they assert is not in `CharacterDetail.tsx` or `CharacterList.tsx`, so it is not modelled: height/mass validation, the `PUT` save path, reading a local override on load, and `fetchCharacters`.
