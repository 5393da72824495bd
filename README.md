# Gen 4 catalog viewer: state layer in Dafny

This project models the client-side state layer of a browser viewer for
creatures 387 to 493 of a public creature-data REST API (`script.js`). The
viewer loads the catalog list once. It then fetches detail records in chunks
of 24, memoises detail records in a session cache, resolves search queries
to a single record, and lets the user step through the loaded records in a
detail overlay.

The module state (`offset`, `pokemon`, `pokemonData`, `isLoading`,
`currentIndex`, `cache`) is the class `State.Pokedex`. It has one more
field, `overlayShown`, for the "show" class of the overlay: this is the
Open/Closed state of the detail view. Each async function is one atomic
method. The network is a parameter. `net` maps a request URL to its reply,
and `listReply` is the reply to the list-window request. A reply is a
rejected `fetch`, or a response with its `ok` status and a body that
`res.json()` parses or rejects. Every method also returns `sent`, the URLs
it requested, so that "no request is sent" can be stated.

Each stateful method is specified by a pure function:

- `DetailCache.Get` specifies `getPokemon`.
- `Loader.LoadChunk` specifies `loadChunkDetails`.
- `Search.Resolve` specifies the resolution step of `doSearch`.
- `Navigator.NavLanding` specifies where `nav` leaves the selection.

The lemmas next to these functions state the properties. The class
invariant `Valid()` says that the cursor equals the number of loaded
records and never passes the end of the catalog (`0 <= offset ==
|pokemon| <= |pokemonData|`). It also says the selection is never below -1.
The operations `LoadMore`, `OpenModal`, `Nav`, `DoSearch`, `ResetHome` and
`Init` keep it, and so do the steps `RunQuery`, `ShowSearchResult` and
`LoadFirstChunk`. The setters `SetLoading`, `LoaderTimeout` and `CloseModal`
change no field it reads. `LoadGenList`, `GetPokemon` and `LoadChunkDetails` neither
require nor ensure it. They are steps, and the operations call them on a
valid state with the chunk starting at the cursor or, after a reset, at 0
(`Loader.ChunkAtCursor`).

The bound `offset <= |pokemonData|` holds only because the numeric test at
script.js:171 never succeeds (see Findings). A search can resolve a key
only through a catalog name, so a search that sets the cursor to 1 always
has a non-empty catalog; `ShowSearchResult` requires that. With the
intended test, a search for "400" after a failed list fetch would fetch
record 400 and set the cursor to 1 over an empty catalog.

Behaviour of the code worth noting:

- The numeric test at script.js:171 accepts only a backslash followed by
  `d`s (see Findings), so a digit query such as "387" goes to the name
  search. `State.Pokedex.DoSearch` uses this test. The all-digits test is
  modelled beside it as `Search.DigitTest.Intended`.
- The loader delay is `max(0, 1200 - elapsed)`. The 5000 ms bound in the
  expression never shortens a positive delay, so nothing caps the visible
  loading time at 5000 ms (`Loader.LoaderDelay`).
- `renderContent` (script.js:106-120) throws on a loaded record without
  types, because `cardHTML` reads `p.types[0]` (script.js:55). After
  `loadMorePokemon`, `resetHome` or `init` loads such a record, the call
  ends in its catch block; the records stay loaded (`Helpers.Renderable`).
- `loadMorePokemon` reports "all loaded" after every successful call that
  finds the cursor at the end, not only on the first one. After the first
  time it is kept from running again only because the "Load more" button is
  no longer rendered.
- `closeModal` keeps `currentIndex`. `nav` is not all-or-nothing:
  - While a load is in flight, `nav` moves the selection, and then
    `openModal` returns at its gate without showing anything.
  - `openModal` looks the record up again by id. When the loaded set holds
    the same id twice, the selection lands on the first copy
    (`Navigator.NavOntoDuplicateJumpsBack`). This can happen after a search
    followed by "load more", because the chunk starts at catalog position 1
    whatever record the search found.
- The chunk requests (script.js:100) do not check the response status.
  A non-ok response whose body parses is appended like a record
  (`Records.UncheckedBody`). `getPokemon` and the list fetch do check the
  status (`Records.CheckedBody`).
- `doSearch` has no gate of its own. The event handlers that call it test
  `isLoading` first (script.js:163, 217, 221). Its `finally` clears the
  flag, so it clears the flag even when it is called while a load is in
  flight.

## Model

| member | source | states |
|---|---|---|
| `Records.CheckedBody` | script.js:91-93 | a request yields a value exactly when the response arrived, its status is ok and its body parses |
| `Records.UncheckedBody` | script.js:100 | a chunk request yields a value exactly when a response arrived and its body parses, whatever the status |
| `Helpers.Cap` | script.js:20 | same length, first letter upper-case and the same letter case-insensitively, rest unchanged; "" stays "" |
| `Helpers.CapIdempotent` | script.js:20 | capitalising twice is capitalising once |
| `Helpers.StatVal` | script.js:62 | the base value of the first stat with the requested name, 0 when no stat has it |
| `Helpers.SpriteUrl` | script.js:23-28 | the front sprite, else the red/blue one, else the yellow one, else ""; "" exactly when none is present and non-empty |
| `Helpers.PadId` | script.js:53 | at least 3 characters: the decimal string of the id, preceded only by `0`s |
| `Helpers.PadIdRoundTrip` | script.js:53 | the padded id has 3 characters below 1000 (its own digits above) and reads back as the id |
| `DetailCache.NormaliseKey` | script.js:89 | an id key becomes its decimal string, a name key its lower-cased form |
| `DetailCache.DetailUrlNamesTheKey` | script.js:91 | the request is the API's `/pokemon/` path followed by the normalised key, so distinct keys give distinct URLs |
| `DetailCache.Get` | script.js:88-96 | a hit returns the stored record and sends nothing; a miss sends one request; a failure leaves the cache unchanged; success stores the record under the normalised key; nothing is evicted or overwritten |
| `DetailCache.RepeatIsServedFromCache` | script.js:90 | after a successful lookup, the same key is answered from the cache with no request, whatever the network says |
| `DetailCache.NamesAreCaseInsensitive` | script.js:89 | a name and its lower-cased form have the same lookup |
| `DetailCache.IdsAndDigitStringsShareEntries` | script.js:89 | a numeric id and its decimal string have the same lookup |
| `Loader.ListUrlRequestsTheRange` | script.js:82 | the list request is `<API>/pokemon?limit=107&offset=386`: ids 387 to 493 |
| `Loader.ChunkSlice` | script.js:99 | for non-negative bounds, entries `[start, min(start+count, n))`, empty when `start >= n`, never more than `count` |
| `Loader.FetchAll` | script.js:100 | all records in slice order when every request yields a body, a failure as soon as one does not |
| `Loader.LoadChunk` | script.js:98-103 | all slice URLs requested; on success the old set is a prefix, each appended record is its slice entry's reply, and the cursor advances by the slice length; on failure set and cursor are unchanged |
| `Loader.ChunkAtCursor` | script.js:129-131 | a chunk from the cursor keeps it within the catalog, adds at most `count`, and at the end sends nothing and changes nothing |
| `Loader.FirstChunkOfFullCatalog` | script.js:207 | on the 107-entry catalog a successful first chunk loads entries 0-23 in order and sets the cursor to 24 |
| `Loader.LoaderDelay` | script.js:137-139 | the delay is `max(0, 1200 - elapsed)`: never negative, at most 1200, and elapsed plus delay reaches 1200 |
| `Search.NormaliseQuery` | script.js:166 | the query is as long as the trimmed input, has no upper-case ASCII letter and no white space at either end |
| `Search.NormalisedAt` | script.js:166 | the query is the trimmed input lower-cased: each character is the lower-cased input character at the same place after the leading white space |
| `Search.LiteralPatternIsNeverANumber` | script.js:171-172 | a string the as-written pattern accepts is not all digits and does not parse as a decimal |
| `Search.FirstContaining` | script.js:177 | the position of the first name containing the query, -1 exactly when none does |
| `Search.Resolve` | script.js:170-179 | an id key is in [387, 493] and is the query's value; a name key is a catalog name containing the query |
| `Search.ResolutionOrder` | script.js:171-179 | numeric query: resolves iff its value is in range; else an exact name wins; else the first containing name in list order; else no match |
| `Search.AsWrittenResolvesOnlyNames` | script.js:171-173 | with the test as written the numeric branch never resolves, so a hit is a catalog name and the catalog is non-empty |
| `Search.AsWrittenMissesDigitQuery` | script.js:171 | "387" fails the as-written test and resolves to nothing when no name contains "387" |
| `Search.IntendedResolvesEveryRangeId` | script.js:171-173 | with the all-digits test, the decimal string of each id in [387, 493] resolves to that id |
| `Search.IntendedRejectsNeighbours` | script.js:173 | with the all-digits test, "386" and "494" do not resolve |
| `Navigator.IndexOfId` | script.js:147 | the first position holding the id, -1 exactly when none does |
| `Navigator.CanNavigate` | script.js:159 | true exactly when `current + n` is a position of the loaded set |
| `Navigator.NavLanding` | script.js:160 | the selection ends at or before `current + n`, on the first record with that record's id |
| `Navigator.NavMovesByExactlyN` | script.js:160 | with distinct ids, `nav(n)` moves the selection by exactly `n` |
| `Navigator.NavOntoDuplicateJumpsBack` | script.js:160 | in `[p, q, p]`, "next" from position 1 lands on position 0 |
| `State.Pokedex.constructor` | script.js:11-16 | cursor 0, empty set, empty catalog, flag clear, selection -1, empty cache |
| `State.Pokedex.SetLoading` | script.js:37 | the flag takes the requested value |
| `State.Pokedex.LoadGenList` | script.js:81-86 | one list request; the catalog is replaced on a good response and unchanged otherwise |
| `State.Pokedex.GetPokemon` | script.js:88-96 | result, new cache and requests are those of `DetailCache.Get` on the old cache |
| `State.Pokedex.LoadChunkDetails` | script.js:98-103 | set, cursor and requests are those of `Loader.LoadChunk` on the old set and cursor |
| `State.Pokedex.LoadMore` | script.js:123-142 | while loading: nothing changes; else a chunk from the cursor; the try block completes iff the chunk succeeded and every loaded record has a type; "all loaded" iff it completed and the cursor is at the end; the delay of `LoaderDelay`; the flag left set |
| `State.Pokedex.LoaderTimeout` | script.js:140 | the flag is cleared |
| `State.Pokedex.OpenModal` | script.js:145-157 | while loading or for an unknown id nothing changes; else the selection is the first position with the id and the record is fetched through the cache and shown when it has a type |
| `State.Pokedex.CloseModal` | script.js:158 | the overlay is hidden and the selection kept |
| `State.Pokedex.CanNav` | script.js:159 | true exactly when `currentIndex + n` is a position of the loaded set |
| `State.Pokedex.Nav` | script.js:160 | no-op when `CanNav(n)` fails; while loading only the selection moves by `n`; else the selection ends at `NavLanding` and that record is fetched through the cache |
| `State.Pokedex.DoSearch` | script.js:165-185 | a query under 3 characters changes nothing, not even the flag; else the as-written resolution, and on a fetched record the set becomes that record with cursor 1; no match or failed fetch leaves set and cursor; the flag ends clear |
| `State.Pokedex.RunQuery` | script.js:168-184 | the as-written resolution against the catalog names; a resolved key is fetched through the cache and shown; no match sends nothing and changes nothing; the flag ends clear |
| `State.Pokedex.ShowSearchResult` | script.js:180-181 | the record is fetched through the cache and, if it comes back, is the whole set with cursor 1 |
| `State.Pokedex.ResetHome` | script.js:188-200 | while loading nothing changes; else set and cursor are cleared first, the catalog is fetched only if empty, a failure leaves the set empty, a success holds the first chunk; it succeeds iff the chunk loads and every record has a type; the flag ends clear |
| `State.Pokedex.LoadFirstChunk` | script.js:194-195 | the first chunk is loaded from position 0 onto the empty set; it succeeds iff the chunk loads and every loaded record has a type |
| `State.Pokedex.Init` | script.js:203-211 | the catalog is fetched, then the first chunk loaded; a failed list fetch loads nothing; it succeeds iff the chunk loads and every record has a type; the flag ends clear |

## Findings

| source | as written | input that shows it | evidently intended | confidence | as-written member | corrected member |
|---|---|---|---|---|---|---|
| script.js:171 | `/^\\d+$/` in a regular-expression literal accepts a backslash followed by one or more `d`, so no digit string takes the numeric branch | query "387" over a catalog of letter-only names: no match, and "No results in Gen 4" | `/^\d+$/`: a digit string in [387, 493] resolves to that id | high; not executed | `Search.AsWrittenMissesDigitQuery` | `Search.IntendedResolvesEveryRangeId` |

The stateful model (`State.Pokedex.DoSearch`) keeps the as-written test,
because it describes what the program does. The corrected resolver is
`Search.Resolve` with `Search.DigitTest.Intended`. Its properties are
`Search.IntendedResolvesEveryRangeId`, `Search.IntendedRejectsNeighbours`
and `Search.ResolutionOrder`.

## Left out

- Presentation is not modelled: `cardHTML`, `statsHTML`, `renderContent`, `getTypeClass`, `showToast`, `showLucarioLoader`, the modal's DOM updates, the button disabling in `setLoading`, the clearing of the search box in `resetHome` and the scroll to the top.
- `fetch` and `res.json()` are parameters. `net` is one function from URL to reply, so within one operation the same URL always gets the same reply.
- `debounce`, `setTimeout` and the event listeners of `init` are timer and event wiring, so they are not modelled. The timer callback of `loadMorePokemon` is the separate method `LoaderTimeout`. The search gate in the listeners is not modelled.
- Interleaving of async operations is not modelled: each operation is one atomic step, with `isLoading` as its guard. Results arriving after a reset are therefore not covered.
- `performance.now()` is not modelled; the elapsed time is a whole number of milliseconds.
- `toLowerCase` and `toUpperCase` change only the ASCII letters, because Unicode case mapping is not modelled.
- Characters are Unicode scalar values rather than UTF-16 code units. A query with characters outside the Basic Multilingual Plane is therefore measured differently from `q.length`.
- `Number(q)` is modelled only on the strings the numeric branch can receive: it gives the value of a digit string and NaN for anything else.
- Fields of the records other than `id`, `name`, the type names, `stats` and the three sprite references are not modelled.
- Malformed records are not modelled: a missing `results` or `stats` array, or a `base_stat` that is null. The one exception is a record with an empty `types` list, which cannot be rendered: the loading operations treat it as their catch path (`Helpers.Renderable`), and `OpenModal` does not show it.
- State.Pokedex.DoSearch: reports `Found` even when the fetched record has no type. `renderContent` then throws, and the program shows the "No results in Gen 4" toast instead. The state after the call is the same either way.
- The chain of optional accesses leading to each sprite is collapsed into one optional value per sprite.
- State.Pokedex.Init: requires the page-load cursor of 0, because `init` runs once, on the state of script.js:11-16.
- State.Pokedex.CanNav: returns `false` where the source returns the number 0 for an empty set, since both are falsy to its callers.
