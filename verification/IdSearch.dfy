/** The search for an unused id, which handles, saved results and ORM objects share: the successor of a key of the map,
    for the first key in the map's own order whose successor is not a key. Ids are unsigned 32-bit numbers. */
module IdSearch {

  const WORD: nat := 0x1_0000_0000

  function Successor(k: nat): (r: nat)
    ensures r < WORD
  {
    (k + 1) % WORD
  }

  /** An order in which the map may be walked. */
  ghost predicate Enumerates(order: seq<nat>, keys: set<nat>) {
    && (forall k :: k in keys <==> k in order)
    && (forall i, j :: 0 <= i < j < |order| ==> order[i] != order[j])
  }

  ghost predicate Ids(keys: set<nat>) {
    forall k :: k in keys ==> k < WORD
  }

  /** Ids run out only when all are in use. */
  ghost predicate Vacant(keys: set<nat>) {
    exists m: nat :: m < WORD && m !in keys
  }

  /** The first id found from position i on. */
  function Found(order: seq<nat>, keys: set<nat>, i: nat): nat
    requires i <= |order|
    decreases |order| - i
  {
    if i == |order| then 1
    else if Successor(order[i]) !in keys then Successor(order[i])
    else Found(order, keys, i + 1)
  }

  /** If every key's successor were a key, all numbers of 32 bits would be keys. */
  lemma {:induction false} Climb(keys: set<nat>, k: nat, n: nat)
    requires k in keys && k < WORD && forall x :: x in keys ==> Successor(x) in keys
    ensures (k + n) % WORD in keys
  {
    if n > 0 {
      Climb(keys, k, n - 1);
      assert Successor((k + (n - 1)) % WORD) == (k + n) % WORD;
    }
  }

  lemma SomeSuccessorFree(keys: set<nat>, k: nat)
    requires Ids(keys) && Vacant(keys) && k in keys
    ensures exists x :: x in keys && Successor(x) !in keys
  {
    var m: nat :| m < WORD && m !in keys;
    if forall x :: x in keys ==> Successor(x) in keys {
      Climb(keys, k, m + WORD - k);
      assert false;
    }
  }

  /** For an empty map the id is 1; otherwise the walk ends before the map does. */
  method NextId(keys: set<nat>, order: seq<nat>) returns (id: nat)
    requires Enumerates(order, keys) && Ids(keys) && Vacant(keys)
    ensures id == Found(order, keys, 0) && id < WORD && id !in keys
    ensures WORD - 1 !in keys ==> id != 0
  {
    id := 1;
    if |order| > 0 {
      SomeSuccessorFree(keys, order[0]);
      ghost var x :| x in keys && Successor(x) !in keys;
      ghost var at :| 0 <= at < |order| && order[at] == x;
      var i := 0;
      id := Successor(order[i]);
      i := i + 1;
      while id in keys
        invariant 1 <= i <= at + 1 <= |order|
        invariant id == Successor(order[i - 1]) && order[i - 1] in keys
        invariant Found(order, keys, 0) == Found(order, keys, i - 1)
        decreases |order| - i
      {
        id := Successor(order[i]);
        i := i + 1;
      }
    }
  }

  /** The id 0, which stands for no object everywhere else, comes out for some order of the map exactly if the greatest
      number of 32 bits is a key and 0 is none. */
  lemma ZeroFound(keys: set<nat>)
    requires Ids(keys)
    ensures (exists order :: Enumerates(order, keys) && Found(order, keys, 0) == 0)
            <==> (WORD - 1 in keys && 0 !in keys)
  {
    if WORD - 1 in keys && 0 !in keys {
      var rest := Order(keys - {WORD - 1});
      var order := [WORD - 1] + rest;
      assert Enumerates(order, keys);
      assert Found(order, keys, 0) == 0;
    }
    forall order | Enumerates(order, keys) && Found(order, keys, 0) == 0 ensures WORD - 1 in keys && 0 !in keys {
      FoundZero(order, keys, 0);
    }
  }

  lemma {:induction false} FoundZero(order: seq<nat>, keys: set<nat>, i: nat)
    requires i <= |order| && Ids(keys) && Enumerates(order, keys) && Found(order, keys, i) == 0
    ensures WORD - 1 in keys && 0 !in keys
    decreases |order| - i
  {
    if i < |order| && Successor(order[i]) in keys {
      FoundZero(order, keys, i + 1);
    } else if i < |order| {
      assert order[i] in keys;
    }
  }

  ghost function Order(keys: set<nat>): (order: seq<nat>)
    ensures Enumerates(order, keys)
  {
    if keys == {} then []
    else
      var k :| k in keys;
      [k] + Order(keys - {k})
  }
}
