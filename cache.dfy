/** The detail cache behind `getPokemon` (script.js:88-96): records are
    memoised under the lower-cased string form of the key they were asked
    for, and never evicted. */
module DetailCache {

  import opened Wrappers
  import opened Records
  import opened Text

  /** `String(key).toLowerCase()`: an id becomes its decimal digits, a name
      is lower-cased (script.js:89). */
  function NormaliseKey(key: Key): (k: string)
    ensures key.IdKey? ==> k == IntToString(key.id)
    ensures key.NameKey? ==> k == Lower(key.name)
  {
    match key
    case IdKey(n) => LowerOfIntToString(n); Lower(IntToString(n))
    case NameKey(s) => Lower(s)
  }

  /** The request `getPokemon` sends on a miss (script.js:91). */
  function DetailUrl(k: string): string {
    API + "/pokemon/" + k
  }

  /** A detail request is the API's `/pokemon/` path followed by the key,
      so distinct cache keys are requested under distinct URLs. */
  lemma DetailUrlNamesTheKey(a: string, b: string)
    ensures DetailUrl(a)[..|API| + 9] == API + "/pokemon/" && DetailUrl(a)[|API| + 9..] == a
    ensures DetailUrl(a) == DetailUrl(b) <==> a == b
  {
  }

  /** What one `getPokemon` call yields: the record or nothing (the promise
      rejects), the cache afterwards, and the requests it sent. */
  datatype Lookup = Lookup(result: Option<Pokemon>, cache: map<string, Pokemon>, sent: seq<string>)

  /** `getPokemon(key)` on cache `cache`, with `net` answering requests. */
  function Get(cache: map<string, Pokemon>, key: Key, net: string -> Reply<Pokemon>): (l: Lookup)
    // a hit answers from the cache and sends nothing
    ensures NormaliseKey(key) in cache ==> l == Lookup(Some(cache[NormaliseKey(key)]), cache, [])
    // a miss sends exactly one request and yields what a good response carries
    ensures NormaliseKey(key) !in cache ==>
      l.sent == [DetailUrl(NormaliseKey(key))] && l.result == CheckedBody(net(DetailUrl(NormaliseKey(key))))
    // nothing is evicted or overwritten, and only the normalised key is added
    ensures forall k :: k in cache ==> k in l.cache && l.cache[k] == cache[k]
    ensures l.cache.Keys <= cache.Keys + {NormaliseKey(key)}
    // a record is returned exactly when it is now stored under the key
    ensures l.result.Some? <==> NormaliseKey(key) in l.cache
    ensures l.result.Some? ==> l.cache[NormaliseKey(key)] == l.result.value
    // a failure leaves the cache as it was
    ensures l.result.None? ==> l.cache == cache
  {
    var k := NormaliseKey(key);
    if k in cache then Lookup(Some(cache[k]), cache, [])
    else
      var url := DetailUrl(k);
      match CheckedBody(net(url))
      case None => Lookup(None, cache, [url])
      case Some(p) => Lookup(Some(p), cache[k := p], [url])
  }

  /** Asking again for a key that was fetched successfully gives the same
      record from the cache, sends no request and changes nothing, whatever
      the network would answer now. */
  lemma {:induction false} RepeatIsServedFromCache(
    cache: map<string, Pokemon>, key: Key, net: string -> Reply<Pokemon>, later: string -> Reply<Pokemon>)
    requires Get(cache, key, net).result.Some?
    ensures var first := Get(cache, key, net);
      Get(first.cache, key, later) == Lookup(first.result, first.cache, [])
  {
  }

  /** A name and its lower-cased form share one cache entry. */
  lemma {:induction false} NamesAreCaseInsensitive(cache: map<string, Pokemon>, s: string, net: string -> Reply<Pokemon>)
    ensures Get(cache, NameKey(s), net) == Get(cache, NameKey(Lower(s)), net)
  {
    LowerIdempotent(s);
  }

  /** An id and its decimal string share one cache entry. */
  lemma {:induction false} IdsAndDigitStringsShareEntries(cache: map<string, Pokemon>, n: int, net: string -> Reply<Pokemon>)
    ensures Get(cache, IdKey(n), net) == Get(cache, NameKey(IntToString(n)), net)
  {
  }
}
