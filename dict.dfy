/**
 * The dictionary a JavaScript loop builds with `Map.set`, starting from an
 * empty `Map`: entries whose key is absent are skipped, and a later entry with
 * the same key overwrites an earlier one.
 */
module Dict {
  import opened Wrappers

  /** The map left by `for (const x of xs) if (key(x) present) m.set(key(x), val(x))`. */
  function Fill<T, K(==), V>(xs: seq<T>, key: T -> Option<K>, val: T -> V): map<K, V>
  {
    if xs == [] then map[]
    else
      var m := Fill(xs[..|xs| - 1], key, val);
      var x := xs[|xs| - 1];
      if key(x).Some? then m[key(x).value := val(x)] else m
  }

  /** A key is in the map exactly when some entry carries it. */
  lemma {:induction false} FillKeys<T, K, V>(xs: seq<T>, key: T -> Option<K>, val: T -> V, k: K)
    ensures k in Fill(xs, key, val) <==> exists i :: 0 <= i < |xs| && key(xs[i]) == Some(k)
  {
    if xs != [] {
      var init := xs[..|xs| - 1];
      FillKeys(init, key, val, k);
      if exists i :: 0 <= i < |xs| && key(xs[i]) == Some(k) {
        var i :| 0 <= i < |xs| && key(xs[i]) == Some(k);
        if i < |xs| - 1 {
          assert key(init[i]) == Some(k);
        }
      }
      forall i | 0 <= i < |init| && key(init[i]) == Some(k)
        ensures key(xs[i]) == Some(k)
      {
      }
    }
  }

  /** The entry with a key that no later entry carries is the one the map keeps. */
  lemma {:induction false} FillLastWins<T, K, V>(xs: seq<T>, key: T -> Option<K>, val: T -> V, i: int)
    requires 0 <= i < |xs| && key(xs[i]).Some?
    requires forall j :: i < j < |xs| ==> key(xs[j]) != key(xs[i])
    ensures key(xs[i]).value in Fill(xs, key, val)
    ensures Fill(xs, key, val)[key(xs[i]).value] == val(xs[i])
  {
    if i < |xs| - 1 {
      var init := xs[..|xs| - 1];
      assert init[i] == xs[i];
      FillLastWins(init, key, val, i);
    }
  }

  /** Every value in the map was set by the last entry carrying its key. */
  lemma {:induction false} FillValue<T, K, V>(xs: seq<T>, key: T -> Option<K>, val: T -> V, k: K)
    requires k in Fill(xs, key, val)
    ensures exists i :: 0 <= i < |xs| && key(xs[i]) == Some(k) && val(xs[i]) == Fill(xs, key, val)[k]
                        && forall j :: i < j < |xs| ==> key(xs[j]) != Some(k)
  {
    var init := xs[..|xs| - 1];
    var last := |xs| - 1;
    if key(xs[last]) == Some(k) {
      assert val(xs[last]) == Fill(xs, key, val)[k];
    } else {
      FillValue(init, key, val, k);
      var i :| 0 <= i < |init| && key(init[i]) == Some(k) && val(init[i]) == Fill(init, key, val)[k]
               && forall j :: i < j < |init| ==> key(init[j]) != Some(k);
      assert key(xs[i]) == Some(k);
      assert forall j :: i < j < |xs| ==> key(xs[j]) != Some(k) by {
        forall j | i < j < |xs| ensures key(xs[j]) != Some(k) {
          if j < last { assert xs[j] == init[j]; }
        }
      }
    }
  }
}
