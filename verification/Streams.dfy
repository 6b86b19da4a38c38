/** Merging sorted streams: what one step of several cursors over key lists consumes. */
module Streams {
  import opened Base
  import opened Totals

  // The place of a key in a list, the first one when there are several.
  function Find(keys: seq<nat>, key: nat): (place: Option<nat>)
    ensures place.Some? ==> place.value < |keys| && keys[place.value] == key
    ensures place.None? ==> key !in keys
    decreases |keys|
  {
    if keys == [] then None
    else if keys[0] == key then Some(0)
    else
      match Find(keys[1..], key)
      case None => None
      case Some(i) => Some(i + 1)
  }

  function Head(keys: seq<nat>, i: nat): Option<nat> {
    if i < |keys| then Some(keys[i]) else None
  }

  function Least(a: Option<nat>, b: Option<nat>): Option<nat> {
    if a.None? then b else if b.None? || a.value <= b.value then a else b
  }

  function Advance(keys: seq<nat>, i: nat, key: nat): nat {
    if Head(keys, i) == Some(key) then i + 1 else i
  }

  // A cursor splits its list at the last key that was handled.
  predicate Covered(keys: seq<nat>, i: nat, last: int) {
    i <= |keys| && (forall j :: 0 <= j < i ==> keys[j] <= last) && (forall j :: i <= j < |keys| ==> keys[j] > last)
  }

  // The next key is none of the list's, or the one at the cursor; it skips nothing.
  lemma StreamStep(keys: seq<nat>, i: nat, last: int, key: nat)
    requires Increasing(keys) && Covered(keys, i, last) && last < key && (i < |keys| ==> key <= keys[i])
    ensures Covered(keys, Advance(keys, i, key), key)
    ensures Find(keys, key) == if Head(keys, i) == Some(key) then Some(i) else None
    ensures forall k :: k in keys && k > last ==> k >= key
  {
    var place := Find(keys, key);
    assert forall j :: i < j < |keys| ==> keys[i] < keys[j];
  }

  // Neighbours in order up to a place.
  predicate OrderedTo(keys: seq<nat>, i: nat) {
    forall j :: 0 < j < |keys| && j <= i ==> keys[j - 1] < keys[j]
  }

  lemma {:induction false} OrderedIncreases(keys: seq<nat>)
    requires OrderedTo(keys, |keys|)
    ensures Increasing(keys)
    decreases |keys|
  {
    if |keys| > 1 {
      var front := keys[..|keys| - 1];
      OrderedIncreases(front);
      forall i, j | 0 <= i < j < |keys| ensures keys[i] < keys[j] {
        if j == |keys| - 1 {
          assert keys[j - 1] == front[j - 1];
          assert i < j - 1 ==> front[i] < front[j - 1];
        } else {
          assert front[i] < front[j];
        }
      }
    }
  }

  // The keys handled so far are those of four lists up to the last one.
  ghost predicate Listed(done: seq<nat>, a: seq<nat>, b: seq<nat>, c: seq<nat>, d: seq<nat>, last: int) {
    Increasing(done) && forall k :: k in done <==> k <= last && (k in a || k in b || k in c || k in d)
  }

  lemma ListedStep(done: seq<nat>, a: seq<nat>, b: seq<nat>, c: seq<nat>, d: seq<nat>, last: int, key: nat)
    requires Listed(done, a, b, c, d, last) && last < key && (key in a || key in b || key in c || key in d)
    requires forall k :: (k in a || k in b || k in c || k in d) && k > last ==> k >= key
    ensures Listed(done + [key], a, b, c, d, key)
  {
    forall i | 0 <= i < |done| ensures done[i] < key {
      assert done[i] in done;
    }
  }
}
