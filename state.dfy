/** The viewer's module state (script.js:11-16) and the operations that
    update it in place. Each async function is one atomic step: the
    network's answers are the parameters `net` (what each detail request
    gets back) and `listReply` (what the list-window request gets back),
    and every operation reports the requests it sent. */
module State {

  import opened Wrappers
  import opened Records
  import Helpers
  import Search
  import DetailCache
  import Loader
  import Navigator

  /** What `loadMorePokemon` did: returned at the gate, or ran its try block
      to the end (`ok`) or into its catch, found the catalog fully loaded,
      and chose the loader's delay. */
  datatype LoadMoreOutcome = Skipped | Finished(ok: bool, allLoaded: bool, delay: int)

  /** What `doSearch` did: nothing (query too short), no key resolved, the
      key's record could not be fetched, or the record now shown alone. */
  datatype SearchOutcome = TooShort | NoMatch | FetchFailed | Found(record: Pokemon)

  class Pokedex {
    /** Number of catalog entries consumed by chunk loads: the next chunk's start. */
    var offset: int
    /** The loaded records, in load order. */
    var pokemon: seq<Pokemon>
    /** The catalog list window. */
    var pokemonData: seq<CatalogEntry>
    /** The single in-flight-operation flag. */
    var isLoading: bool
    /** Position of the record last opened in the detail view, -1 before any. */
    var currentIndex: int
    /** Detail records by normalised key. */
    var cache: map<string, Pokemon>
    /** Whether the detail overlay carries its "show" class. */
    var overlayShown: bool

    /** The cursor counts the loaded records and never passes the end of
        the catalog; the selection is never below -1. The bound on the
        cursor survives `doSearch` only because its numeric test never
        succeeds (script.js:171): a resolved key is then a catalog name, so
        the catalog is non-empty when the cursor is set to 1. With the
        all-digits test, a search for "400" after a failed list fetch would
        set the cursor to 1 over an empty catalog. */
    ghost predicate Valid()
      reads this
    {
      0 <= offset == |pokemon| <= |pokemonData| && -1 <= currentIndex
    }

    /** The state at page load (script.js:11-16). */
    constructor ()
      ensures Valid()
      ensures offset == 0 && pokemon == [] && pokemonData == [] && !isLoading
      ensures currentIndex == -1 && cache == map[] && !overlayShown
    {
      offset := 0;
      pokemon := [];
      pokemonData := [];
      isLoading := false;
      currentIndex := -1;
      cache := map[];
      overlayShown := false;
    }

    /** The state part of `setLoading(show)` (script.js:37). */
    method SetLoading(show: bool)
      modifies this`isLoading
      ensures isLoading == show
    {
      isLoading := show;
    }

    /** `loadGenList()` (script.js:81-86): the catalog is replaced by the
        list of a good response; any failure leaves it as it was. */
    method LoadGenList(listReply: Reply<seq<CatalogEntry>>) returns (ok: bool, sent: seq<string>)
      modifies this`pokemonData
      ensures sent == [Loader.ListUrl()]
      ensures ok == CheckedBody(listReply).Some?
      ensures pokemonData == if ok then CheckedBody(listReply).value else old(pokemonData)
    {
      sent := [Loader.ListUrl()];
      var body := CheckedBody(listReply);
      ok := body.Some?;
      if ok {
        pokemonData := body.value;
      }
    }

    /** `getPokemon(key)` (script.js:88-96) on the `cache` map. */
    method GetPokemon(key: Key, net: string -> Reply<Pokemon>) returns (r: Option<Pokemon>, sent: seq<string>)
      modifies this`cache
      ensures DetailCache.Lookup(r, cache, sent) == DetailCache.Get(old(cache), key, net)
    {
      var k := DetailCache.NormaliseKey(key);
      if k in cache {
        return Some(cache[k]), [];
      }
      var url := DetailCache.DetailUrl(k);
      sent := [url];
      r := CheckedBody(net(url));
      if r.Some? {
        cache := cache[k := r.value];
      }
    }

    /** `loadChunkDetails(start, count)` (script.js:98-103): the assignments
        to `pokemon` and `offset` follow the joint await, so they happen
        only when every request of the chunk succeeds. */
    method LoadChunkDetails(start: int, count: int, net: string -> Reply<Pokemon>) returns (ok: bool, sent: seq<string>)
      modifies this`pokemon, this`offset
      ensures Loader.Chunk(ok, pokemon, offset, sent) == Loader.LoadChunk(old(pokemon), old(offset), pokemonData, start, count, net)
    {
      var slice := Loader.ChunkSlice(pokemonData, start, count);
      sent := Urls(slice);
      var details := Loader.FetchAll(slice, net);
      ok := details.Some?;
      if ok {
        pokemon := pokemon + details.value;
        offset := offset + |details.value|;
      }
    }

    /** `loadMorePokemon()` (script.js:123-142), with `elapsed` the whole
        milliseconds the chunk took. Nothing happens while a load is in
        flight. Otherwise the next chunk is loaded from the cursor. The try
        block completes (`ok`) when the chunk succeeds and every loaded record
        can be rendered; only then is the catalog reported fully loaded, when
        the cursor has reached its end. The flag stays set: it is cleared by
        the timer that fires after `delay` (`LoaderTimeout`). */
    method LoadMore(net: string -> Reply<Pokemon>, elapsed: int) returns (outcome: LoadMoreOutcome, sent: seq<string>)
      requires Valid()
      modifies this`pokemon, this`offset, this`isLoading
      ensures Valid()
      ensures old(isLoading) ==> outcome == Skipped && sent == [] && unchanged(this)
      ensures !old(isLoading) ==>
        isLoading && outcome.Finished? && outcome.delay == Loader.LoaderDelay(elapsed) &&
        var c := Loader.LoadChunk(old(pokemon), old(offset), pokemonData, old(offset), PAGE_SIZE, net);
        pokemon == c.pokemon && offset == c.offset && sent == c.sent &&
        outcome.ok == (c.ok && Helpers.Renderable(pokemon)) &&
        outcome.allLoaded == (outcome.ok && offset == |pokemonData|)
    {
      if isLoading {
        return Skipped, [];
      }
      SetLoading(true);
      Loader.ChunkAtCursor(pokemon, pokemonData, offset, PAGE_SIZE, net);
      var loaded;
      loaded, sent := LoadChunkDetails(offset, PAGE_SIZE, net);
      // renderContent() throws on a record without types, skipping the check below
      var ok := loaded && Helpers.Renderable(pokemon);
      var allLoaded := ok && offset >= |pokemonData|;
      outcome := Finished(ok, allLoaded, Loader.LoaderDelay(elapsed));
    }

    /** The timer callback of `loadMorePokemon` (script.js:140): the flag is cleared. */
    method LoaderTimeout()
      modifies this`isLoading
      ensures !isLoading
    {
      SetLoading(false);
    }

    /** `openModal(id)` (script.js:145-157). Nothing happens while a load is
        in flight or when no loaded record has the id. Otherwise the
        selection moves to the first record with the id, the record is
        fetched through the cache, and the overlay is shown when the record
        came back with at least one type to colour it by. */
    method OpenModal(id: int, net: string -> Reply<Pokemon>) returns (shown: Option<Pokemon>, sent: seq<string>)
      requires Valid()
      modifies this`currentIndex, this`cache, this`overlayShown
      ensures Valid()
      ensures old(isLoading) || Navigator.IndexOfId(pokemon, id) < 0 ==>
        shown == None && sent == [] && unchanged(this)
      ensures !old(isLoading) && Navigator.IndexOfId(pokemon, id) >= 0 ==>
        currentIndex == Navigator.IndexOfId(pokemon, id) &&
        var l := DetailCache.Get(old(cache), IdKey(id), net);
        cache == l.cache && sent == l.sent &&
        shown == (if l.result.Some? && |l.result.value.types| > 0 then l.result else None) &&
        overlayShown == (shown.Some? || old(overlayShown))
    {
      shown, sent := None, [];
      if isLoading {
        return;
      }
      var idx := Navigator.IndexOfId(pokemon, id);
      if idx < 0 {
        return;
      }
      currentIndex := idx;
      var data;
      data, sent := GetPokemon(IdKey(id), net);
      if data.Some? && |data.value.types| > 0 {
        shown := data;
        overlayShown := true;
      }
    }

    /** `closeModal()` (script.js:158): the overlay is hidden; the selection is kept. */
    method CloseModal()
      modifies this`overlayShown
      ensures !overlayShown
    {
      overlayShown := false;
    }

    /** `canNav(n)` (script.js:159). */
    function CanNav(n: int): (b: bool)
      reads this
      ensures b <==> 0 <= currentIndex + n < |pokemon|
    {
      Navigator.CanNavigate(|pokemon|, currentIndex, n)
    }

    /** `nav(n)` (script.js:160): nothing happens when `canNav(n)` fails.
        Otherwise the selection moves by `n` and the record there is
        re-opened; while a load is in flight `openModal` returns at its gate
        and the moved selection is all that changes, else the selection ends
        at the first record sharing that record's id. */
    method Nav(n: int, net: string -> Reply<Pokemon>) returns (shown: Option<Pokemon>, sent: seq<string>)
      requires Valid()
      modifies this`currentIndex, this`cache, this`overlayShown
      ensures Valid()
      ensures !old(CanNav(n)) ==> shown == None && sent == [] && unchanged(this)
      ensures old(CanNav(n)) && old(isLoading) ==>
        currentIndex == old(currentIndex) + n && shown == None && sent == [] &&
        cache == old(cache) && overlayShown == old(overlayShown)
      ensures old(CanNav(n)) && !old(isLoading) ==>
        currentIndex == Navigator.NavLanding(pokemon, old(currentIndex), n) &&
        var l := DetailCache.Get(old(cache), IdKey(pokemon[old(currentIndex) + n].id), net);
        cache == l.cache && sent == l.sent &&
        shown == (if l.result.Some? && |l.result.value.types| > 0 then l.result else None) &&
        overlayShown == (shown.Some? || old(overlayShown))
    {
      if !CanNav(n) {
        return None, [];
      }
      currentIndex := currentIndex + n;
      shown, sent := OpenModal(pokemon[currentIndex].id, net);
    }

    /** `doSearch()` on the text `input` of the search box (script.js:165-185).
        A query shorter than three characters changes nothing, not even the
        flag. Otherwise the query is resolved with the test as written; a
        resolved key is fetched through the cache, and a fetched record
        replaces the loaded set with a cursor of 1. The flag is clear at the end. */
    method DoSearch(input: string, net: string -> Reply<Pokemon>) returns (outcome: SearchOutcome, sent: seq<string>)
      requires Valid()
      modifies this`pokemon, this`offset, this`isLoading, this`cache
      ensures Valid()
      ensures |Search.NormaliseQuery(input)| < Search.MIN_QUERY_LENGTH ==>
        outcome == TooShort && sent == [] && unchanged(this)
      ensures |Search.NormaliseQuery(input)| >= Search.MIN_QUERY_LENGTH ==>
        !isLoading &&
        var key := Search.Resolve(Search.AsWritten, Search.NormaliseQuery(input), Names(pokemonData));
        (key.None? ==>
          outcome == NoMatch && sent == [] && cache == old(cache) && pokemon == old(pokemon) && offset == old(offset)) &&
        (key.Some? ==>
          var l := DetailCache.Get(old(cache), key.value, net);
          cache == l.cache && sent == l.sent &&
          (l.result.Some? ==> outcome == Found(l.result.value) && pokemon == [l.result.value] && offset == 1) &&
          (l.result.None? ==> outcome == FetchFailed && pokemon == old(pokemon) && offset == old(offset)))
    {
      var q := Search.NormaliseQuery(input);
      if |q| < Search.MIN_QUERY_LENGTH {
        return TooShort, [];
      }
      outcome, sent := RunQuery(q, net);
    }

    /** The part of `doSearch` after the length gate (script.js:168-184):
        with the flag set, the query is resolved with the test as written
        against the catalog names; a resolved key is fetched through the
        cache and shown. The flag is clear at the end. */
    method RunQuery(q: string, net: string -> Reply<Pokemon>) returns (outcome: SearchOutcome, sent: seq<string>)
      requires Valid() && |q| >= Search.MIN_QUERY_LENGTH
      modifies this`pokemon, this`offset, this`isLoading, this`cache
      ensures Valid() && !isLoading
      ensures var key := Search.Resolve(Search.AsWritten, q, Names(pokemonData));
        (key.None? ==>
          outcome == NoMatch && sent == [] && cache == old(cache) && pokemon == old(pokemon) && offset == old(offset)) &&
        (key.Some? ==>
          var l := DetailCache.Get(old(cache), key.value, net);
          cache == l.cache && sent == l.sent &&
          (l.result.Some? ==> outcome == Found(l.result.value) && pokemon == [l.result.value] && offset == 1) &&
          (l.result.None? ==> outcome == FetchFailed && pokemon == old(pokemon) && offset == old(offset)))
    {
      SetLoading(true);
      var names := Names(pokemonData);
      var key := Search.Resolve(Search.AsWritten, q, names);
      Search.AsWrittenResolvesOnlyNames(q, names);
      if key.None? {
        outcome, sent := NoMatch, [];
      } else {
        outcome, sent := ShowSearchResult(key.value, net);
      }
      SetLoading(false);
    }

    /** The part of `doSearch` after a key is resolved (script.js:180-181):
        the key's record is fetched through the cache and, when it comes
        back, becomes the whole loaded set with a cursor of 1. */
    method ShowSearchResult(key: Key, net: string -> Reply<Pokemon>) returns (outcome: SearchOutcome, sent: seq<string>)
      requires Valid() && |pokemonData| > 0
      modifies this`pokemon, this`offset, this`cache
      ensures Valid()
      ensures var l := DetailCache.Get(old(cache), key, net);
        cache == l.cache && sent == l.sent &&
        (l.result.Some? ==> outcome == Found(l.result.value) && pokemon == [l.result.value] && offset == 1) &&
        (l.result.None? ==> outcome == FetchFailed && pokemon == old(pokemon) && offset == old(offset))
    {
      var p;
      p, sent := GetPokemon(key, net);
      if p.Some? {
        pokemon, offset := [p.value], 1;
        outcome := Found(p.value);
      } else {
        outcome := FetchFailed;
      }
    }

    /** The first chunk of `resetHome` and `init` (script.js:194-195,
        207-208), loaded from position 0 onto the empty set and then
        rendered: it succeeds (`ok`) when the chunk loads and every loaded
        record can be rendered. */
    method LoadFirstChunk(net: string -> Reply<Pokemon>) returns (ok: bool, sent: seq<string>)
      requires Valid() && offset == 0
      modifies this`pokemon, this`offset
      ensures Valid()
      ensures var c := Loader.LoadChunk([], 0, pokemonData, 0, PAGE_SIZE, net);
        ok == (c.ok && Helpers.Renderable(pokemon)) && pokemon == c.pokemon && offset == c.offset && sent == c.sent
    {
      Loader.ChunkAtCursor(pokemon, pokemonData, 0, PAGE_SIZE, net);
      ok, sent := LoadChunkDetails(0, PAGE_SIZE, net);
      // renderContent() throws on a record without types
      ok := ok && Helpers.Renderable(pokemon);
    }

    /** `resetHome()` (script.js:188-200). Nothing happens while a load is in
        flight. Otherwise the loaded set and the cursor are cleared first;
        the catalog is fetched only when it is empty, and then the first
        chunk is loaded from position 0. A failure at either step leaves the
        set empty. It succeeds (`ok`) when the chunk loads and every loaded
        record can be rendered. The flag is clear at the end; the selection
        is not touched. */
    method ResetHome(listReply: Reply<seq<CatalogEntry>>, net: string -> Reply<Pokemon>)
      returns (ran: bool, ok: bool, sent: seq<string>)
      requires Valid()
      modifies this`pokemon, this`offset, this`pokemonData, this`isLoading
      ensures Valid()
      ensures ran == !old(isLoading)
      ensures !ran ==> !ok && sent == [] && unchanged(this)
      ensures ran && old(pokemonData) == [] && CheckedBody(listReply).None? ==>
        !isLoading && !ok && pokemon == [] && offset == 0 && pokemonData == [] && sent == [Loader.ListUrl()]
      ensures ran && (old(pokemonData) != [] || CheckedBody(listReply).Some?) ==>
        !isLoading &&
        pokemonData == (if old(pokemonData) == [] then CheckedBody(listReply).value else old(pokemonData)) &&
        var c := Loader.LoadChunk([], 0, pokemonData, 0, PAGE_SIZE, net);
        ok == (c.ok && Helpers.Renderable(pokemon)) && pokemon == c.pokemon && offset == c.offset &&
        sent == (if old(pokemonData) == [] then [Loader.ListUrl()] else []) + c.sent
    {
      if isLoading {
        return false, false, [];
      }
      ran := true;
      SetLoading(true);
      offset, pokemon := 0, [];
      sent := [];
      if |pokemonData| == 0 {
        var listed;
        listed, sent := LoadGenList(listReply);
        if !listed {
          SetLoading(false);
          return ran, false, sent;
        }
      }
      var chunkSent;
      ok, chunkSent := LoadFirstChunk(net);
      sent := sent + chunkSent;
      SetLoading(false);
    }

    /** The state updates of `init()` (script.js:203-211), run once on the
        page-load state: the catalog is fetched, then the first chunk is
        loaded; a failed catalog fetch loads nothing. It succeeds (`ok`) when
        the chunk loads and every loaded record can be rendered. The flag is
        clear at the end. */
    method Init(listReply: Reply<seq<CatalogEntry>>, net: string -> Reply<Pokemon>) returns (ok: bool, sent: seq<string>)
      requires Valid() && offset == 0
      modifies this`pokemon, this`offset, this`pokemonData, this`isLoading
      ensures Valid() && !isLoading
      ensures CheckedBody(listReply).None? ==>
        !ok && sent == [Loader.ListUrl()] && pokemonData == old(pokemonData) && pokemon == [] && offset == 0
      ensures CheckedBody(listReply).Some? ==>
        pokemonData == CheckedBody(listReply).value &&
        var c := Loader.LoadChunk([], 0, pokemonData, 0, PAGE_SIZE, net);
        ok == (c.ok && Helpers.Renderable(pokemon)) && pokemon == c.pokemon && offset == c.offset && sent == [Loader.ListUrl()] + c.sent
    {
      SetLoading(true);
      var listed;
      listed, sent := LoadGenList(listReply);
      if !listed {
        SetLoading(false);
        return false, sent;
      }
      var chunkSent;
      ok, chunkSent := LoadFirstChunk(net);
      sent := sent + chunkSent;
      SetLoading(false);
    }
  }
}
