/**
 * The orientation pricing script: every Shopify product is priced by the shape
 * of its first image (landscape, portrait or square), and each variant whose
 * price is missing, zero or half a dollar or more away from that price is set
 * to it. Only an update that Shopify accepts counts as touched, and a dry run
 * sends and touches nothing. Prices are integer cents.
 */
module OrientationPricing {
  import opened Wrappers
  import opened Text
  import PriceRule
  import Counting

  /** APPLY: SYNC_APPLY reads "true" in any letter case. */
  function ApplyMode(syncApply: string): (apply: bool)
    ensures apply <==> |syncApply| == 4 && forall i :: 0 <= i < 4 ==> LowerChar(syncApply[i]) == "true"[i]
  {
    LowerIsTrue(syncApply);
    Lower(syncApply) == "true"
  }

  datatype Image = Image(width: int, height: int)

  datatype Orientation = Landscape | Portrait | Square | Unknown

  /**
   * A missing image or dimension is Unknown; sides within 2 pixels of each
   * other are Square; otherwise the longer side decides.
   */
  function OrientationOf(img: Option<Image>): (o: Orientation)
    ensures o == Unknown <==> img.None? || img.value.width == 0 || img.value.height == 0
    ensures o == Square <==> o != Unknown && PriceRule.Abs(img.value.width - img.value.height) <= 2
    ensures o == Landscape <==> o != Unknown && img.value.width > img.value.height + 2
    ensures o == Portrait <==> o != Unknown && img.value.height > img.value.width + 2
  {
    if img.None? then Unknown
    else
      var w, h := img.value.width, img.value.height;
      if w == 0 || h == 0 then Unknown
      else if PriceRule.Abs(w - h) <= 2 then Square
      else if w > h then Landscape
      else Portrait
  }

  function Turned(o: Orientation): Orientation {
    match o
    case Landscape => Portrait
    case Portrait => Landscape
    case _ => o
  }

  /** Turning an image a quarter turn swaps landscape and portrait and keeps the rest. */
  lemma OrientationOfTurned(w: int, h: int)
    ensures OrientationOf(Some(Image(h, w))) == Turned(OrientationOf(Some(Image(w, h))))
  {
  }

  /** The price per orientation (ORIENTATION_PRICE_LANDSCAPE, _PORTRAIT and _SQUARE). */
  datatype Prices = Prices(landscape: int, portrait: int, square: int)

  /** The defaults: 139.99, 129.99 and 134.99. */
  const DefaultPrices: Prices := Prices(13999, 12999, 13499)

  /** priceForOrientation: no price for an Unknown orientation. */
  function PriceFor(o: Orientation, prices: Prices): (r: Option<int>)
    ensures r.None? <==> o == Unknown
    ensures o == Landscape ==> r == Some(prices.landscape)
    ensures o == Portrait ==> r == Some(prices.portrait)
    ensures o == Square ==> r == Some(prices.square)
  {
    match o
    case Landscape => Some(prices.landscape)
    case Portrait => Some(prices.portrait)
    case Square => Some(prices.square)
    case Unknown => None
  }

  datatype Variant = Variant(id: string, price: Option<int>)
  datatype Product = Product(handle: string, image: Option<Image>, variants: seq<Variant>)
  datatype Update = Update(variantId: string, cents: int)

  function TargetOf(p: Product, prices: Prices): Option<int> {
    PriceFor(OrientationOf(p.image), prices)
  }

  /** The updates for the variants of a product priced at `target`, in their order. */
  function VariantUpdates(vs: seq<Variant>, target: int): (us: seq<Update>)
    ensures |us| <= |vs|
  {
    if vs == [] then []
    else
      var v := vs[|vs| - 1];
      VariantUpdates(vs[..|vs| - 1], target)
      + (if PriceRule.NeedsUpdate(v.price, target) then [Update(v.id, target)] else [])
  }

  /** Every update the script attempts, product by product. */
  function Plan(ps: seq<Product>, prices: Prices): seq<Update> {
    if ps == [] then []
    else
      var p := ps[|ps| - 1];
      Plan(ps[..|ps| - 1], prices)
      + (if TargetOf(p, prices).Some? then VariantUpdates(p.variants, TargetOf(p, prices).value) else [])
  }

  /** The products skipped for want of an orientation. */
  function Skipped(ps: seq<Product>, prices: Prices): (n: nat)
    ensures n <= |ps|
  {
    if ps == [] then 0
    else Skipped(ps[..|ps| - 1], prices) + (if TargetOf(ps[|ps| - 1], prices).None? then 1 else 0)
  }

  /** The updates Shopify accepts without user errors. */
  function Accepted(us: seq<Update>, accepts: Update -> bool): (n: nat)
    ensures n <= |us|
  {
    if us == [] then 0
    else Accepted(us[..|us| - 1], accepts) + (if accepts(us[|us| - 1]) then 1 else 0)
  }

  lemma {:induction false} AcceptedAppend(a: seq<Update>, b: seq<Update>, accepts: Update -> bool)
    ensures Accepted(a + b, accepts) == Accepted(a, accepts) + Accepted(b, accepts)
  {
    if b == [] {
      assert a + b == a;
    } else {
      var b' := b[..|b| - 1];
      assert (a + b)[..|a + b| - 1] == a + b';
      assert (a + b)[|a + b| - 1] == b[|b| - 1];
      AcceptedAppend(a, b', accepts);
    }
  }

  /** Every planned update sets a variant to the price of its product's orientation, and only when it is off. */
  lemma {:induction false} PlanSound(ps: seq<Product>, prices: Prices, u: Update)
    requires u in Plan(ps, prices)
    ensures exists k, j :: 0 <= k < |ps| && 0 <= j < |ps[k].variants|
              && TargetOf(ps[k], prices) == Some(u.cents)
              && u.variantId == ps[k].variants[j].id
              && PriceRule.NeedsUpdate(ps[k].variants[j].price, u.cents)
  {
    var init := ps[..|ps| - 1];
    var p := ps[|ps| - 1];
    if u in Plan(init, prices) {
      PlanSound(init, prices, u);
      var k, j :| 0 <= k < |init| && 0 <= j < |init[k].variants|
                  && TargetOf(init[k], prices) == Some(u.cents)
                  && u.variantId == init[k].variants[j].id
                  && PriceRule.NeedsUpdate(init[k].variants[j].price, u.cents);
      assert ps[k] == init[k];
    } else {
      var j := VariantUpdatesSound(p.variants, TargetOf(p, prices).value, u);
      assert ps[|ps| - 1] == p;
    }
  }

  lemma {:induction false} VariantUpdatesSound(vs: seq<Variant>, target: int, u: Update) returns (j: int)
    requires u in VariantUpdates(vs, target)
    ensures 0 <= j < |vs| && u == Update(vs[j].id, target) && PriceRule.NeedsUpdate(vs[j].price, target)
  {
    var init := vs[..|vs| - 1];
    if u in VariantUpdates(init, target) {
      j := VariantUpdatesSound(init, target, u);
      assert vs[j] == init[j];
    } else {
      j := |vs| - 1;
    }
  }

  /** Every variant whose price is off gets an update to the target. */
  lemma {:induction false} VariantUpdatesComplete(vs: seq<Variant>, target: int, j: int)
    requires 0 <= j < |vs| && PriceRule.NeedsUpdate(vs[j].price, target)
    ensures Update(vs[j].id, target) in VariantUpdates(vs, target)
  {
    if j < |vs| - 1 {
      var init := vs[..|vs| - 1];
      assert init[j] == vs[j];
      VariantUpdatesComplete(init, target, j);
    }
  }

  /**
   * Conversely, every variant of a product with a known orientation whose
   * price is off that orientation's price is in the plan.
   */
  lemma {:induction false} PlanComplete(ps: seq<Product>, prices: Prices, k: int, j: int)
    requires 0 <= k < |ps| && 0 <= j < |ps[k].variants|
    requires TargetOf(ps[k], prices).Some?
    requires PriceRule.NeedsUpdate(ps[k].variants[j].price, TargetOf(ps[k], prices).value)
    ensures Update(ps[k].variants[j].id, TargetOf(ps[k], prices).value) in Plan(ps, prices)
  {
    if k < |ps| - 1 {
      var init := ps[..|ps| - 1];
      assert init[k] == ps[k];
      PlanComplete(init, prices, k, j);
    } else {
      VariantUpdatesComplete(ps[k].variants, TargetOf(ps[k], prices).value, j);
    }
  }

  /** The skipped count is the number of products whose orientation is Unknown. */
  lemma {:induction false} SkippedCountsUnknown(ps: seq<Product>, prices: Prices)
    ensures Skipped(ps, prices) == |set i | 0 <= i < |ps| && OrientationOf(ps[i].image) == Unknown|
  {
    if ps != [] {
      var init, last := ps[..|ps| - 1], |ps| - 1;
      SkippedCountsUnknown(init, prices);
      var before := set i | 0 <= i < |init| && OrientationOf(init[i].image) == Unknown;
      var after := set i | 0 <= i < |ps| && OrientationOf(ps[i].image) == Unknown;
      var hit := OrientationOf(ps[last].image) == Unknown;
      forall i
        ensures i in after <==> i in before || (hit && i == last)
      {
        if 0 <= i < last {
          assert init[i] == ps[i];
        }
      }
      Counting.SnocCount(before, after, last, hit);
    }
  }

  /** Variants already at their orientation's price are left alone. */
  lemma {:induction false} SettledVariantsNeedNoUpdates(vs: seq<Variant>, target: int)
    requires target != 0
    requires forall j :: 0 <= j < |vs| ==> vs[j].price == Some(target)
    ensures VariantUpdates(vs, target) == []
  {
    if vs != [] {
      var init := vs[..|vs| - 1];
      assert forall j :: 0 <= j < |init| ==> init[j] == vs[j];
      SettledVariantsNeedNoUpdates(init, target);
    }
  }

  /** The inner loop over one product's variants. */
  method PriceVariants(vs: seq<Variant>, target: int, apply: bool, accepts: Update -> bool)
    returns (touched: nat, issued: seq<Update>)
    ensures touched == if apply then Accepted(VariantUpdates(vs, target), accepts) else 0
    ensures issued == if apply then VariantUpdates(vs, target) else []
  {
    touched, issued := 0, [];
    for i := 0 to |vs|
      invariant touched == if apply then Accepted(VariantUpdates(vs[..i], target), accepts) else 0
      invariant issued == if apply then VariantUpdates(vs[..i], target) else []
    {
      var v := vs[i];
      assert vs[..i + 1][..i] == vs[..i];
      var before := VariantUpdates(vs[..i], target);
      if PriceRule.NeedsUpdate(v.price, target) {
        var u := Update(v.id, target);
        assert VariantUpdates(vs[..i + 1], target) == before + [u];
        AcceptedAppend(before, [u], accepts);
        assert [u][..0] == [];
        if apply {
          issued := issued + [u];
          if accepts(u) {
            touched := touched + 1;
          }
        }
      } else {
        assert VariantUpdates(vs[..i + 1], target) == before + [];
        assert before + [] == before;
      }
    }
    assert vs[..|vs|] == vs;
  }

  lemma PlanStep(ps: seq<Product>, i: int, prices: Prices)
    requires 0 <= i < |ps|
    ensures Plan(ps[..i + 1], prices) == Plan(ps[..i], prices)
              + (if TargetOf(ps[i], prices).Some? then VariantUpdates(ps[i].variants, TargetOf(ps[i], prices).value) else [])
    ensures Skipped(ps[..i + 1], prices) == Skipped(ps[..i], prices) + (if TargetOf(ps[i], prices).None? then 1 else 0)
  {
    assert ps[..i + 1][..i] == ps[..i];
  }

  /**
   * main over the listed products: `touched` counts the updates Shopify
   * accepted, `skipped` the products without an orientation, and `issued` is
   * what was sent, nothing in a dry run.
   */
  method Run(products: seq<Product>, prices: Prices, apply: bool, accepts: Update -> bool)
    returns (touched: nat, skipped: nat, issued: seq<Update>)
    ensures touched == if apply then Accepted(Plan(products, prices), accepts) else 0
    ensures skipped == Skipped(products, prices)
    ensures issued == if apply then Plan(products, prices) else []
  {
    touched, skipped, issued := 0, 0, [];
    for i := 0 to |products|
      invariant touched == if apply then Accepted(Plan(products[..i], prices), accepts) else 0
      invariant skipped == Skipped(products[..i], prices)
      invariant issued == if apply then Plan(products[..i], prices) else []
    {
      var p := products[i];
      PlanStep(products, i, prices);
      var o := OrientationOf(p.image);
      var target := PriceFor(o, prices);
      if target.None? {
        skipped := skipped + 1;
        assert Plan(products[..i], prices) + [] == Plan(products[..i], prices);
        continue;
      }
      var n, sent := PriceVariants(p.variants, target.value, apply, accepts);
      AcceptedAppend(Plan(products[..i], prices), VariantUpdates(p.variants, target.value), accepts);
      touched := touched + n;
      issued := issued + sent;
    }
    assert products[..|products|] == products;
  }
}
