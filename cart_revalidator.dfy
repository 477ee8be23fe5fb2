/**
 * The cart revalidator: once any fetcher that posted to a cart route has come
 * back idle with a cart (or an analytics cart id), the page's loaders are
 * asked to revalidate.
 */
module CartRevalidator {
  import opened Text
  import opened Fetchers

  /** `(formAction || '').includes('/cart')`: `/api/cart` and `/cart-id` count as well. */
  predicate IsCartPost(f: Fetcher) {
    Contains(f.formAction, "/cart")
  }

  /** Idle with a truthy `data.cart` or `data.analytics.cartId`. */
  predicate HasCartResult(f: Fetcher) {
    f.state == Idle && f.data.Some? && (f.data.value.cart.Some? || f.data.value.analyticsCartId != "")
  }

  predicate CompletedCartPost(f: Fetcher) {
    IsCartPost(f) && HasCartResult(f)
  }

  /** anyCartCompleted: `fetchers.some(...)`, scanning from the front. */
  function AnyCartCompleted(fs: seq<Fetcher>): (b: bool)
    ensures b <==> exists i :: 0 <= i < |fs| && CompletedCartPost(fs[i])
  {
    if fs == [] then false
    else if CompletedCartPost(fs[0]) then true
    else
      var b := AnyCartCompleted(fs[1..]);
      assert b <==> exists i :: 1 <= i < |fs| && CompletedCartPost(fs[i]) by {
        assert forall i :: 1 <= i < |fs| ==> fs[i] == fs[1..][i - 1];
        if b {
          var j :| 0 <= j < |fs[1..]| && CompletedCartPost(fs[1..][j]);
          assert CompletedCartPost(fs[j + 1]);
        }
      }
      b
  }

  /** The effect: `revalidate()` is called once when the flag is set, and not at all otherwise. */
  function RevalidateCalls(fs: seq<Fetcher>): (n: nat)
    ensures n <= 1
    ensures n == 1 <==> exists i :: 0 <= i < |fs| && CompletedCartPost(fs[i])
  {
    if AnyCartCompleted(fs) then 1 else 0
  }

  /** A fetcher that never posted, or is still at work, changes nothing wherever it sits in the list. */
  lemma InertFetcherChangesNothing(before: seq<Fetcher>, f: Fetcher, after: seq<Fetcher>)
    requires f.formAction == "" || f.state != Idle
    ensures AnyCartCompleted(before + [f] + after) == AnyCartCompleted(before + after)
  {
    var all := before + [f] + after;
    var rest := before + after;
    assert !CompletedCartPost(f) by {
      if f.formAction == "" {
        assert !OccursAt(f.formAction, "/cart", 0);
      }
    }
    if exists i :: 0 <= i < |all| && CompletedCartPost(all[i]) {
      var i :| 0 <= i < |all| && CompletedCartPost(all[i]);
      if i < |before| {
        assert rest[i] == all[i];
      } else {
        assert i > |before|;
        assert rest[i - 1] == all[i];
      }
    }
    if exists i :: 0 <= i < |rest| && CompletedCartPost(rest[i]) {
      var i :| 0 <= i < |rest| && CompletedCartPost(rest[i]);
      if i < |before| {
        assert all[i] == rest[i];
      } else {
        assert all[i + 1] == rest[i];
      }
    }
  }

  /** The substring test accepts any action holding `/cart`, the API routes such as `/api/cart` included. */
  lemma ApiCartRouteCounts(before: string, after: string)
    ensures Contains(before + "/cart" + after, "/cart")
  {
    var action := before + "/cart" + after;
    assert action[|before|..|before| + 5] == "/cart";
    assert OccursAt(action, "/cart", |before|);
  }
}
