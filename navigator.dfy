/** The pure side of the detail view's navigation (script.js:145-160):
    finding a record's position by id, the bounds check of `canNav`, and
    where `nav` leaves the selection once `openModal` has looked the record
    up again by its id. */
module Navigator {

  import opened Records
  import opened Arrays

  /** `pokemon.findIndex(p => p.id === id)` (script.js:147). */
  function IndexOfId(pokemon: seq<Pokemon>, id: int): (i: int)
    ensures -1 <= i < |pokemon|
    ensures i >= 0 ==> pokemon[i].id == id && forall j :: 0 <= j < i ==> pokemon[j].id != id
    ensures i < 0 <==> forall j :: 0 <= j < |pokemon| ==> pokemon[j].id != id
  {
    FindIndex(pokemon, (p: Pokemon) => p.id == id)
  }

  /** `canNav(n)` over a loaded set of `count` records and selection
      `current` (script.js:159); the emptiness test is redundant with the
      bounds test. */
  function CanNavigate(count: nat, current: int, n: int): (b: bool)
    ensures b <==> 0 <= current + n < count
  {
    count != 0 && 0 <= current + n && current + n < count
  }

  /** Where the selection ends when `nav(n)` re-opens the record at
      `current + n`: `openModal` looks its id up again and takes the first
      position with that id (script.js:147-149, 160). */
  function NavLanding(pokemon: seq<Pokemon>, current: int, n: int): (i: int)
    requires CanNavigate(|pokemon|, current, n)
    ensures 0 <= i <= current + n
    ensures pokemon[i].id == pokemon[current + n].id
    ensures forall j :: 0 <= j < i ==> pokemon[j].id != pokemon[current + n].id
  {
    IndexOfId(pokemon, pokemon[current + n].id)
  }

  /** No two loaded records share an id. */
  predicate DistinctIds(pokemon: seq<Pokemon>) {
    forall i, j :: 0 <= i < j < |pokemon| ==> pokemon[i].id != pokemon[j].id
  }

  /** With distinct ids, `nav(n)` moves the selection by exactly `n`. */
  lemma NavMovesByExactlyN(pokemon: seq<Pokemon>, current: int, n: int)
    requires CanNavigate(|pokemon|, current, n)
    requires DistinctIds(pokemon)
    ensures NavLanding(pokemon, current, n) == current + n
  {
  }

  /** When a record appears twice (a search result followed by a chunk that
      loads the same entry again), navigating onto the second copy moves the
      selection back to the first one: from position 1, "next" lands on 0. */
  lemma NavOntoDuplicateJumpsBack(p: Pokemon, q: Pokemon)
    requires p.id != q.id
    ensures CanNavigate(3, 1, 1)
    ensures NavLanding([p, q, p], 1, 1) == 0
  {
  }
}
