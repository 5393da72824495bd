/** The small display helpers whose results the cards and the detail view
    show: capitalising a name, reading one base stat, choosing a sprite and
    writing an id with three digits. */
module Helpers {

  import opened Wrappers
  import opened Records
  import opened Text
  import opened Arrays

  /** `cap(s)`: the first letter upper-cased, the rest of `s` as it was;
      an empty string is returned unchanged (script.js:20). */
  function Cap(s: string): (r: string)
    ensures |r| == |s|
    ensures s != [] ==> r[1..] == s[1..] && !IsAsciiLower(r[0]) && LowerChar(r[0]) == LowerChar(s[0])
  {
    if s == [] then s else [UpperChar(s[0])] + s[1..]
  }

  /** Capitalising a capitalised name changes nothing. */
  lemma CapIdempotent(s: string)
    ensures Cap(Cap(s)) == Cap(s)
  {
  }

  /** Whether a stat list has an entry named `key`. */
  predicate HasStat(stats: seq<Stat>, key: string) {
    exists i :: 0 <= i < |stats| && stats[i].name == key
  }

  /** `statVal(d, key)`: the base value of the first stat named `key`, or 0
      when the record has no such stat (script.js:62). */
  function StatVal(stats: seq<Stat>, key: string): (v: int)
    ensures !HasStat(stats, key) ==> v == 0
    ensures HasStat(stats, key) ==>
      exists i :: 0 <= i < |stats| && stats[i].name == key && v == stats[i].baseStat &&
        (forall j :: 0 <= j < i ==> stats[j].name != key)
  {
    var i := FindIndex(stats, (st: Stat) => st.name == key);
    if i < 0 then 0 else stats[i].baseStat
  }

  /** A sprite reference JavaScript's `||` accepts: present and non-empty. */
  predicate Truthy(o: Option<string>) {
    o.Some? && o.value != ""
  }

  /** `spriteUrl(p)`: the front sprite if there is one, else the red/blue
      transparent sprite, else the yellow one, else "" (script.js:23-28). */
  function SpriteUrl(sp: Sprites): (r: string)
    ensures Truthy(sp.frontDefault) ==> r == sp.frontDefault.value
    ensures !Truthy(sp.frontDefault) && Truthy(sp.redBlueTransparent) ==> r == sp.redBlueTransparent.value
    ensures !Truthy(sp.frontDefault) && !Truthy(sp.redBlueTransparent) && Truthy(sp.yellowTransparent) ==>
      r == sp.yellowTransparent.value
    ensures r == "" <==> !Truthy(sp.frontDefault) && !Truthy(sp.redBlueTransparent) && !Truthy(sp.yellowTransparent)
  {
    if Truthy(sp.frontDefault) then sp.frontDefault.value
    else if Truthy(sp.redBlueTransparent) then sp.redBlueTransparent.value
    else if Truthy(sp.yellowTransparent) then sp.yellowTransparent.value
    else ""
  }

  /** Whether `renderContent` (script.js:106-120) can build a card for every
      loaded record: `cardHTML` reads `p.types[0]` (script.js:55), which
      throws for a record without types. */
  predicate Renderable(pokemon: seq<Pokemon>) {
    forall i :: 0 <= i < |pokemon| ==> |pokemon[i].types| > 0
  }

  /** `String(id).padStart(3, "0")`, the number shown on a card and in the
      detail view (script.js:53, 69). */
  function PadId(id: int): (r: string)
    ensures |r| >= 3
    ensures |IntToString(id)| <= |r| && r[|r| - |IntToString(id)|..] == IntToString(id)
    ensures forall i :: 0 <= i < |r| - |IntToString(id)| ==> r[i] == '0'
  {
    PadStart(IntToString(id), 3, '0')
  }

  /** For a non-negative id the padded number has at least three digits,
      exactly three below 1000, and still denotes the id. */
  lemma PadIdRoundTrip(id: nat)
    ensures |PadId(id)| == if id < 1000 then 3 else |NatToString(id)|
    ensures ParseDecimal(PadId(id)) == Some(id)
  {
    var s := NatToString(id);
    var r := PadId(id);
    var z := r[..|r| - |s|];
    assert r == z + s;
    LeadingZerosIgnored(z, s);
    DecimalRoundTrip(id);
    NatToStringLength(id);
  }

  /** `String(n)` has at most three digits exactly when `n` is below 1000. */
  lemma {:induction false} NatToStringLength(n: nat)
    ensures |NatToString(n)| <= 3 <==> n < 1000
  {
    if n >= 10 {
      NatToStringLength(n / 10);
    }
  }
}
