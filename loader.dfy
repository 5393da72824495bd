/** The pure side of the incremental loader: which catalog entries one
    chunk covers, what a joint fetch of their detail records yields, what a
    chunk load does to the loaded set and the cursor, and how long the
    loading indicator is kept up afterwards (script.js:81-103, 137-139). */
module Loader {

  import opened Wrappers
  import opened Records
  import opened Text
  import opened Arrays

  /** The list-window request of `loadGenList` (script.js:82). */
  function ListUrl(): string {
    API + "/pokemon?limit=" + IntToString(TOTAL_LIMIT) + "&offset=" + IntToString(BASE_OFFSET)
  }

  /** The list request asks for the 107 entries after the first 386: ids
      387 to 493. */
  lemma ListUrlRequestsTheRange()
    ensures ListUrl() == API + "/pokemon?limit=" + "107" + "&offset=" + "386"
  {
    assert NatToString(107) == "107";
    assert NatToString(386) == "386";
  }

  function Min(a: int, b: int): int { if a <= b then a else b }

  /** `pokemonData.slice(start, start + count)` (script.js:99): for the
      non-negative bounds the program passes, the entries from `start` up to
      `start + count` clamped to the end of the list, and none at all when
      `start` is past the end. */
  function ChunkSlice(data: seq<CatalogEntry>, start: int, count: int): (slice: seq<CatalogEntry>)
    ensures 0 <= start && 0 <= count ==>
      slice == if start < |data| then data[start..Min(start + count, |data|)] else []
    ensures 0 <= count ==> |slice| <= count
  {
    Slice(data, start, start + count)
  }

  /** `Promise.all(slice.map(r => fetch(r.url).then(x => x.json())))`
      (script.js:100): every record in slice order if every request yields
      a parsed body, otherwise a rejection. The status is not checked. */
  function FetchAll(slice: seq<CatalogEntry>, net: string -> Reply<Pokemon>): (r: Option<seq<Pokemon>>)
    ensures r.Some? <==> forall i :: 0 <= i < |slice| ==> UncheckedBody(net(slice[i].url)).Some?
    ensures r.Some? ==> |r.value| == |slice|
    ensures r.Some? ==> forall i :: 0 <= i < |slice| ==> UncheckedBody(net(slice[i].url)) == Some(r.value[i])
  {
    if slice == [] then Some([])
    else
      match (UncheckedBody(net(slice[0].url)), FetchAll(slice[1..], net))
      case (Some(p), Some(rest)) => Some([p] + rest)
      case _ => None
  }

  /** The loaded set, the cursor and the requests sent after one chunk load. */
  datatype Chunk = Chunk(ok: bool, pokemon: seq<Pokemon>, offset: int, sent: seq<string>)

  /** `loadChunkDetails(start, count)` (script.js:98-103) from the loaded set
      `pokemon` and cursor `offset`: on success the records of the slice are
      appended in slice order and the cursor advances by their number; on
      any failure neither changes. All requests of the slice are sent. */
  function LoadChunk(pokemon: seq<Pokemon>, offset: int, data: seq<CatalogEntry>, start: int, count: int,
                     net: string -> Reply<Pokemon>): (c: Chunk)
    ensures c.sent == Urls(ChunkSlice(data, start, count))
    ensures c.ok <==> forall i :: 0 <= i < |ChunkSlice(data, start, count)| ==>
      UncheckedBody(net(ChunkSlice(data, start, count)[i].url)).Some?
    ensures c.ok ==>
      var slice := ChunkSlice(data, start, count);
      |c.pokemon| == |pokemon| + |slice| && c.pokemon[..|pokemon|] == pokemon &&
      c.offset == offset + |slice| &&
      forall i :: 0 <= i < |slice| ==> UncheckedBody(net(slice[i].url)) == Some(c.pokemon[|pokemon| + i])
    ensures !c.ok ==> c.pokemon == pokemon && c.offset == offset
  {
    var slice := ChunkSlice(data, start, count);
    match FetchAll(slice, net)
    case Some(details) => Chunk(true, pokemon + details, offset + |details|, Urls(slice))
    case None => Chunk(false, pokemon, offset, Urls(slice))
  }

  /** A chunk that starts at the cursor keeps the cursor within the catalog,
      appends at most `count` records and, once the cursor is at the end,
      sends nothing and changes nothing. */
  lemma {:induction false} ChunkAtCursor(pokemon: seq<Pokemon>, data: seq<CatalogEntry>, offset: nat, count: nat,
                                         net: string -> Reply<Pokemon>)
    requires offset <= |data|
    ensures var c := LoadChunk(pokemon, offset, data, offset, count, net);
      offset <= c.offset <= |data| && c.offset - offset <= count &&
      (offset == |data| ==> c == Chunk(true, pokemon, offset, []))
  {
  }

  /** Starting from an empty set, a successful first chunk of 24 over the
      107-entry catalog loads entries 0 to 23, in order, and puts the cursor at 24. */
  lemma FirstChunkOfFullCatalog(data: seq<CatalogEntry>, net: string -> Reply<Pokemon>)
    requires |data| == TOTAL_LIMIT
    requires LoadChunk([], 0, data, 0, PAGE_SIZE, net).ok
    ensures var c := LoadChunk([], 0, data, 0, PAGE_SIZE, net);
      |c.pokemon| == 24 && c.offset == 24 && c.sent == Urls(data[..24]) &&
      forall i :: 0 <= i < 24 ==> UncheckedBody(net(data[i].url)) == Some(c.pokemon[i])
  {
  }

  /** The delay before the loader is hidden (script.js:137-139), with the
      elapsed time in whole milliseconds: `max(0, min(5000 - elapsed,
      max(0, 1200 - elapsed)))`. The indicator stays up until 1200 ms have
      passed; the 5000 ms bound never shortens a positive delay. */
  function LoaderDelay(elapsed: int): (d: int)
    ensures d == if elapsed < 1200 then 1200 - elapsed else 0
    ensures 0 <= d && (0 <= elapsed ==> d <= 1200)
    ensures elapsed + d >= 1200
  {
    var min := 1200;
    var max := 5000;
    var inner := if 0 < min - elapsed then min - elapsed else 0;
    var capped := if max - elapsed < inner then max - elapsed else inner;
    if 0 < capped then capped else 0
  }
}
