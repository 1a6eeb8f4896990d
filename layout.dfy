/**
 * C arrays written with designated initialisers, `[ID] = entry`: the array has
 * one slot past the largest index named, every named slot holds its entry and
 * every slot no initialiser names is zero-filled.
 */
module Layout {
  /** A numbering of symbolic IDs that gives distinct IDs distinct indices. */
  ghost predicate Injective<N(!new)>(index: N -> nat) {
    forall a, b :: index(a) == index(b) ==> a == b
  }

  ghost predicate InjectiveOn<N>(ids: seq<N>, index: N -> nat) {
    forall a, b :: a in ids && b in ids && index(a) == index(b) ==> a == b
  }

  /** ARRAY_SIZE of the initialised array: one past the largest index named. */
  function Size<N>(ids: seq<N>, index: N -> nat): (n: nat)
    ensures forall a :: a in ids ==> index(a) < n
    ensures ids == [] ==> n == 0
    ensures ids != [] ==> exists a :: a in ids && index(a) == n - 1
  {
    if ids == [] then 0
    else
      var init, last := ids[..|ids| - 1], ids[|ids| - 1];
      assert ids == init + [last];
      var m := Size(init, index);
      if m <= index(last) then index(last) + 1 else m
  }

  /** Store `e` at slot `i`, zero-filling the slots the array grows over. */
  function Place<E>(t: seq<E>, i: nat, e: E, zero: E): (r: seq<E>)
    ensures |r| == if i < |t| then |t| else i + 1
    ensures r[i] == e
    ensures forall j :: 0 <= j < |r| && j != i ==> r[j] == if j < |t| then t[j] else zero
  {
    if i < |t| then t[i := e] else t + seq(i - |t|, _ => zero) + [e]
  }

  /** The array `{ [ids[0]] = entry(ids[0]), [ids[1]] = entry(ids[1]), ... }`. */
  function Fill<N, E>(ids: seq<N>, index: N -> nat, entry: N -> E, zero: E): (t: seq<E>)
    ensures |t| == Size(ids, index)
  {
    if ids == [] then []
    else Place(Fill(ids[..|ids| - 1], index, entry, zero), index(ids[|ids| - 1]), entry(ids[|ids| - 1]), zero)
  }

  /**
   * With distinct indices, every named ID finds its own entry and every slot
   * that no ID names is the zero entry.
   */
  lemma {:induction false} FillSpec<N, E>(ids: seq<N>, index: N -> nat, entry: N -> E, zero: E)
    requires InjectiveOn(ids, index)
    ensures forall a :: a in ids ==>
              index(a) < |Fill(ids, index, entry, zero)| && Fill(ids, index, entry, zero)[index(a)] == entry(a)
    ensures forall i :: 0 <= i < |Fill(ids, index, entry, zero)| && (forall a :: a in ids ==> index(a) != i) ==>
              Fill(ids, index, entry, zero)[i] == zero
  {
    if ids != [] {
      var init, last := ids[..|ids| - 1], ids[|ids| - 1];
      assert ids == init + [last];
      assert forall a :: a in init ==> a in ids;
      FillSpec(init, index, entry, zero);
      var t0 := Fill(init, index, entry, zero);
      assert Fill(ids, index, entry, zero) == Place(t0, index(last), entry(last), zero);
    }
  }

  /**
   * FillSpec for a list that names every ID of its type, under a numbering
   * that is injective on the whole type.
   */
  lemma FillAll<N(!new), E>(ids: seq<N>, index: N -> nat, entry: N -> E, zero: E)
    requires Injective(index) && forall a :: a in ids
    ensures forall a :: index(a) < |Fill(ids, index, entry, zero)| && Fill(ids, index, entry, zero)[index(a)] == entry(a)
    ensures forall i :: 0 <= i < |Fill(ids, index, entry, zero)| && (forall a :: index(a) != i) ==>
              Fill(ids, index, entry, zero)[i] == zero
  {
    FillSpec(ids, index, entry, zero);
  }
}
