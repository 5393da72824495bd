/** The data the viewer works on: its fixed configuration (script.js:3-8),
    the catalog entries and detail records it receives from the remote
    creature API, the keys it looks records up by, and the replies the
    network gives. */
module Records {

  import opened Wrappers

  const API: string := "https://pokeapi.co/api/v2"
  /** Number of detail records fetched per chunk. */
  const PAGE_SIZE: nat := 24
  /** First and last id of the restricted range (the fourth generation). */
  const START_ID: int := 387
  const END_ID: int := 493
  const TOTAL_LIMIT: int := END_ID - START_ID + 1
  const BASE_OFFSET: int := START_ID - 1

  /** One `{name, url}` item of the list window. */
  datatype CatalogEntry = CatalogEntry(name: string, url: string)

  /** One entry of a record's `stats` array: `stat.name` and `base_stat`. */
  datatype Stat = Stat(name: string, baseStat: int)

  /** The three sprite references the viewer reads. Each is `None` when the
      optional chain leading to it (`sprites?.versions?...`) breaks off. */
  datatype Sprites = Sprites(
    frontDefault: Option<string>,
    redBlueTransparent: Option<string>,
    yellowTransparent: Option<string>)

  /** A detail record, reduced to the fields the viewer reads: `id`, `name`,
      the type names of `types[k].type.name` in order, `stats` and `sprites`. */
  datatype Pokemon = Pokemon(
    id: int,
    name: string,
    types: seq<string>,
    stats: seq<Stat>,
    sprites: Sprites)

  /** What `getPokemon` is called with: a numeric id (from a card or the
      numeric search branch) or a name (from the name search branches). */
  datatype Key = IdKey(id: int) | NameKey(name: string)

  /** What the network answers to one request: the promise of `fetch`
      rejects (`NetworkError`), or a response arrives with its `ok` status
      and a body that `res.json()` parses (`Some`) or rejects (`None`). */
  datatype Reply<+T> = NetworkError | Response(ok: bool, body: Option<T>)

  /** The value of `await fetch(u)` followed by `if(!res.ok) throw ...;
      await res.json()`: both the status and the body must be good. */
  function CheckedBody<T>(reply: Reply<T>): (r: Option<T>)
    ensures r.Some? <==> reply.Response? && reply.ok && reply.body.Some?
    ensures r.Some? ==> r == reply.body
  {
    match reply
    case NetworkError => None
    case Response(ok, body) => if ok then body else None
  }

  /** The value of `fetch(u).then(x => x.json())`: the status is not looked
      at, so a non-ok response whose body parses still yields a value. */
  function UncheckedBody<T>(reply: Reply<T>): (r: Option<T>)
    ensures r.Some? <==> reply.Response? && reply.body.Some?
    ensures r.Some? ==> r == reply.body
  {
    match reply
    case NetworkError => None
    case Response(_, body) => body
  }

  /** The names of the catalog, in list order (`pokemonData.map(r=>r.name)`). */
  function Names(entries: seq<CatalogEntry>): (names: seq<string>)
    ensures |names| == |entries|
    ensures forall i :: 0 <= i < |entries| ==> names[i] == entries[i].name
  {
    seq(|entries|, i requires 0 <= i < |entries| => entries[i].name)
  }

  /** The URLs of the catalog entries, in list order (`slice.map(r => r.url)`). */
  function Urls(entries: seq<CatalogEntry>): (urls: seq<string>)
    ensures |urls| == |entries|
    ensures forall i :: 0 <= i < |entries| ==> urls[i] == entries[i].url
  {
    seq(|entries|, i requires 0 <= i < |entries| => entries[i].url)
  }
}
