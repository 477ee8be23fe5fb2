/**
 * The Printify-to-Shopify sync script: for every Printify product it finds the
 * Shopify product published from it, fills in a blank description, and brings
 * every matched variant's price to the Printify cost times the markup, clamped
 * to [PRICE_MIN, PRICE_MAX] and ending in 99 cents. In dry-run mode nothing is
 * sent to Shopify, yet every price that would change is counted as updated.
 * Prices are integer cents.
 */
module SyncFromPrintify {
  import opened Wrappers
  import opened Text
  import Dict
  import opened PrintifyShops
  import PriceRule
  import Counting

  // ---------------------------------------------------------------- run mode

  /** APPLY: SYNC_APPLY reads "true" in any letter case and DRY_RUN is unset or empty. */
  function ApplyMode(syncApply: string, dryRun: string): (apply: bool)
    ensures apply <==> |syncApply| == 4 && (forall i :: 0 <= i < 4 ==> LowerChar(syncApply[i]) == "true"[i])
                       && dryRun == ""
  {
    LowerIsTrue(syncApply);
    Lower(syncApply) == "true" && dryRun == ""
  }

  // ---------------------------------------------------------------- pricing

  /** PRICE_MIN and PRICE_MAX when unset: 39 and 199 dollars. */
  const DefaultMinCents: int := 3900
  const DefaultMaxCents: int := 19900

  /** `Math.max(lo, Math.min(hi, x))`: the upper bound applies first, so `lo` wins when the bounds cross. */
  function Clamp(x: int, lo: int, hi: int): (r: int)
    ensures lo <= hi ==> lo <= r <= hi
    ensures lo <= x <= hi ==> r == x
    ensures lo <= hi && x < lo ==> r == lo
    ensures lo <= hi && hi < x ==> r == hi
    ensures hi < lo ==> r == lo
  {
    var capped := if x < hi then x else hi;
    if capped < lo then lo else capped
  }

  /** `Math.floor(price) + 0.99`: the whole dollars are kept and the cents become 99. */
  function NiceEnding(cents: int): (r: int)
    ensures r % 100 == 99
    ensures cents <= r < cents + 100
  {
    cents / 100 * 100 + 99
  }

  /**
   * computePrice: the marked-up Printify cost (rounding to cents is left to the
   * markup), clamped to the configured bounds, with a .99 ending.
   */
  function ComputePriceCents(markedUp: int, minCents: int, maxCents: int): (r: int)
    ensures r % 100 == 99
    ensures var c := Clamp(markedUp, minCents, maxCents); c <= r < c + 100
    ensures minCents <= maxCents ==> NiceEnding(minCents) <= r <= NiceEnding(maxCents)
    ensures minCents <= maxCents ==> minCents <= r < maxCents + 100
  {
    ClampedEndingBounds(markedUp, minCents, maxCents);
    NiceEnding(Clamp(markedUp, minCents, maxCents))
  }

  lemma ClampedEndingBounds(x: int, lo: int, hi: int)
    ensures lo <= hi ==> NiceEnding(lo) <= NiceEnding(Clamp(x, lo, hi)) <= NiceEnding(hi)
  {
    if lo <= hi {
      NiceEndingMonotone(lo, Clamp(x, lo, hi));
      NiceEndingMonotone(Clamp(x, lo, hi), hi);
    }
  }

  lemma NiceEndingMonotone(a: int, b: int)
    requires a <= b
    ensures NiceEnding(a) <= NiceEnding(b)
  {
    assert a / 100 <= b / 100;
  }

  /** A higher cost never gives a lower price. */
  lemma ComputePriceMonotone(a: int, b: int, minCents: int, maxCents: int)
    requires a <= b
    ensures ComputePriceCents(a, minCents, maxCents) <= ComputePriceCents(b, minCents, maxCents)
  {
    NiceEndingMonotone(Clamp(a, minCents, maxCents), Clamp(b, minCents, maxCents));
  }

  /** A price that already ends in 99 and lies within the bounds is its own price. */
  lemma ComputePriceFixedPoint(price: int, minCents: int, maxCents: int)
    requires price % 100 == 99 && minCents <= price <= maxCents
    ensures ComputePriceCents(price, minCents, maxCents) == price
  {
    assert price == price / 100 * 100 + 99;
  }

  /** With the default bounds every price lies between 39.99 and 199.99. */
  lemma DefaultPriceRange(markedUp: int)
    ensures 3999 <= ComputePriceCents(markedUp, DefaultMinCents, DefaultMaxCents) <= 19999
  {
    assert NiceEnding(DefaultMinCents) == 3999;
    assert NiceEnding(DefaultMaxCents) == 19999;
  }

  // ---------------------------------------------------------------- descriptions

  predicate IsMarkup(c: char) {
    c == '&' || c == '<' || c == '>'
  }

  function EscapeChar(c: char): (r: string)
    ensures '<' !in r && '>' !in r && |r| >= 1
  {
    if c == '&' then "&amp;" else if c == '<' then "&lt;" else if c == '>' then "&gt;" else [c]
  }

  /** escapeHtml: every `&`, `<` and `>` becomes its entity; quotes are kept. */
  function EscapeHtml(s: string): (r: string)
    ensures '<' !in r && '>' !in r
    ensures |r| >= |s|
    ensures (forall i :: 0 <= i < |s| ==> !IsMarkup(s[i])) ==> r == s
  {
    if s == [] then ""
    else
      var head := EscapeChar(s[0]);
      var tail := EscapeHtml(s[1..]);
      assert forall i :: 0 <= i < |s[1..]| ==> s[1..][i] == s[i + 1];
      head + tail
  }

  /** The inverse of EscapeHtml: the three entities are read back, everything else is kept. */
  function UnescapeHtml(s: string): (r: string)
  {
    if s == [] then ""
    else if |s| >= 5 && s[..5] == "&amp;" then "&" + UnescapeHtml(s[5..])
    else if |s| >= 4 && s[..4] == "&lt;" then "<" + UnescapeHtml(s[4..])
    else if |s| >= 4 && s[..4] == "&gt;" then ">" + UnescapeHtml(s[4..])
    else [s[0]] + UnescapeHtml(s[1..])
  }

  lemma UnescapeEscapedChar(c: char, rest: string)
    ensures UnescapeHtml(EscapeChar(c) + rest) == [c] + UnescapeHtml(rest)
  {
    var s := EscapeChar(c) + rest;
    if c == '&' {
      assert s[..5] == "&amp;" && s[5..] == rest;
    } else if c == '<' {
      assert s[1] == 'l';
      assert |s| >= 5 ==> s[..5][1] == 'l';
      assert s[..4] == "&lt;" && s[4..] == rest;
    } else if c == '>' {
      assert s[1] == 'g';
      assert |s| >= 5 ==> s[..5][1] == 'g';
      assert s[..4][1] == 'g';
      assert s[..4] == "&gt;" && s[4..] == rest;
    } else {
      assert s[0] == c;
      assert |s| >= 5 ==> s[..5][0] == c;
      assert |s| >= 4 ==> s[..4][0] == c;
      assert s[1..] == rest;
    }
  }

  /** Escaping loses nothing: the text is recovered from the markup. */
  lemma {:induction false} UnescapeEscape(s: string)
    ensures UnescapeHtml(EscapeHtml(s)) == s
  {
    if s != [] {
      UnescapeEscapedChar(s[0], EscapeHtml(s[1..]));
      UnescapeEscape(s[1..]);
      assert s == [s[0]] + s[1..];
    }
  }

  /** The fixed second paragraph of every generated description. */
  const CanvasBlurb: string :=
    "\n\nMuseum-grade gallery wrapped canvas, hand-stretched over solid wood, ready to hang. Printed and fulfilled by Printify."

  datatype PrintifyVariant = PrintifyVariant(sku: string, priceCents: int)
  datatype PrintifyProduct = PrintifyProduct(title: string, description: string, handle: string,
                                             variants: seq<PrintifyVariant>)

  /** `desc || title`, where a missing title reads 'Artwork'. */
  function DescriptionText(p: PrintifyProduct): (t: string)
    ensures t != ""
    ensures p.description != "" ==> t == p.description
    ensures p.description == "" && p.title != "" ==> t == p.title
    ensures p.description == "" && p.title == "" ==> t == "Artwork"
  {
    if p.description != "" then p.description else if p.title != "" then p.title else "Artwork"
  }

  /** Two HTML paragraphs. */
  function Paragraphs(first: string, second: string): string {
    "<p>" + first + "</p><p>" + second + "</p>"
  }

  /** buildDescription: the product's text, then the blurb, each escaped, as two paragraphs. */
  function BuildDescription(p: PrintifyProduct): (html: string)
  {
    Paragraphs(EscapeHtml(DescriptionText(p)), EscapeHtml(CanvasBlurb))
  }

  /** The longest prefix of `s` without `c`. */
  function TakeUntil(s: string, c: char): (r: string)
    ensures c !in r && |r| <= |s| && r == s[..|r|]
  {
    if s == [] || s[0] == c then "" else [s[0]] + TakeUntil(s[1..], c)
  }

  lemma {:induction false} TakeUntilStops(a: string, rest: string, c: char)
    requires c !in a
    ensures TakeUntil(a + [c] + rest, c) == a
  {
    if a != [] {
      assert (a + [c] + rest)[1..] == a[1..] + [c] + rest;
      TakeUntilStops(a[1..], rest, c);
    }
  }

  /** The text of the first paragraph of a description, unescaped. */
  function FirstParagraph(html: string): Option<string> {
    if |html| >= 3 && html[..3] == "<p>" then Some(UnescapeHtml(TakeUntil(html[3..], '<'))) else None
  }

  lemma FirstOfParagraphs(first: string, second: string)
    requires '<' !in first
    ensures FirstParagraph(Paragraphs(first, second)) == Some(UnescapeHtml(first))
  {
    var rest := "/p><p>" + second + "</p>";
    var html := Paragraphs(first, second);
    assert html == "<p>" + (first + ['<'] + rest);
    assert html[3..] == first + ['<'] + rest;
    TakeUntilStops(first, rest, '<');
  }

  /** The text of the second paragraph of a description, unescaped. */
  function SecondParagraph(html: string): Option<string> {
    if |html| >= 3 && html[..3] == "<p>" then AfterFirstParagraph(html[3..]) else None
  }

  /** Past the first paragraph's text: the text of the paragraph that follows it, unescaped. */
  function AfterFirstParagraph(t: string): Option<string> {
    var rest := t[|TakeUntil(t, '<')|..];
    if |rest| >= 7 && rest[..7] == "</p><p>" then Some(UnescapeHtml(TakeUntil(rest[7..], '<'))) else None
  }

  lemma AfterFirstOf(t: string, first: string, tail: string)
    requires TakeUntil(t, '<') == first && t[|first|..] == "</p><p>" + tail
    ensures AfterFirstParagraph(t) == Some(UnescapeHtml(TakeUntil(tail, '<')))
  {
    var rest := t[|first|..];
    assert rest[..7] == "</p><p>" && rest[7..] == tail;
  }

  /** Text without `<`, then anything opening with `<`: the text is what is taken, and the rest follows it. */
  lemma TakeUntilTag(first: string, tag: string, tail: string)
    requires '<' !in first && |tag| > 0 && tag[0] == '<'
    ensures TakeUntil(first + tag + tail, '<') == first
    ensures (first + tag + tail)[|first|..] == tag + tail
  {
    assert first + tag + tail == first + ['<'] + (tag[1..] + tail);
    TakeUntilStops(first, tag[1..] + tail, '<');
  }

  lemma ParagraphAfterFirst(first: string, tail: string)
    requires '<' !in first
    ensures AfterFirstParagraph(first + "</p><p>" + tail) == Some(UnescapeHtml(TakeUntil(tail, '<')))
  {
    TakeUntilTag(first, "</p><p>", tail);
    AfterFirstOf(first + "</p><p>" + tail, first, tail);
  }

  lemma Regroup(a: string, b: string, c: string, d: string, e: string)
    ensures a + b + c + d + e == a + (b + c + (d + e))
    ensures (a + (b + c + (d + e)))[..|a|] == a && (a + (b + c + (d + e)))[|a|..] == b + c + (d + e)
  {
  }

  lemma SecondOfParagraphs(first: string, second: string)
    requires '<' !in first && '<' !in second
    ensures SecondParagraph(Paragraphs(first, second)) == Some(UnescapeHtml(second))
  {
    Regroup("<p>", first, "</p><p>", second, "</p>");
    ParagraphAfterFirst(first, second + "</p>");
    TakeUntilTag(second, "</p>", []);
    assert second + "</p>" + [] == second + "</p>";
  }

  /** The second paragraph of a generated description is the canvas blurb. */
  lemma DescriptionBlurb(p: PrintifyProduct)
    ensures SecondParagraph(BuildDescription(p)) == Some(CanvasBlurb)
  {
    SecondOfParagraphs(EscapeHtml(DescriptionText(p)), EscapeHtml(CanvasBlurb));
    UnescapeEscape(CanvasBlurb);
  }

  /** The first paragraph of a generated description is the product's own text. */
  lemma DescriptionRoundTrip(p: PrintifyProduct)
    ensures FirstParagraph(BuildDescription(p)) == Some(DescriptionText(p))
  {
    FirstOfParagraphs(EscapeHtml(DescriptionText(p)), EscapeHtml(CanvasBlurb));
    UnescapeEscape(DescriptionText(p));
  }

  // ---------------------------------------------------------------- shop

  /**
   * findShopId: the configured id, else the id of the first shop listed; an
   * empty or unreadable list is an error.
   */
  function FindShopId(configured: string, shops: Option<seq<Shop>>): (r: Result<string>)
    ensures r.Ok? <==> configured != "" || (shops.Some? && |shops.value| > 0)
    ensures configured != "" ==> r == Ok(configured)
    ensures configured == "" && r.Ok? ==> AllDigits(r.value) && |r.value| > 0
    ensures r.Err? ==> r.message == "No Printify shops found"
  {
    if configured != "" then Ok(configured)
    else if shops.Some? && |shops.value| > 0 then Ok(NatToString(shops.value[0].id))
    else Err("No Printify shops found")
  }

  /** A listed shop is read back as the number Printify gave it. */
  lemma FindShopIdReadsBack(shops: seq<Shop>)
    requires |shops| > 0
    ensures FindShopId("", Some(shops)).Ok?
    ensures DigitsValue(FindShopId("", Some(shops)).value) == shops[0].id
  {
    DigitsValueOfNatToString(shops[0].id);
  }

  // ---------------------------------------------------------------- Shopify side

  datatype ShopifyVariant = ShopifyVariant(id: string, sku: string, price: Option<int>)
  datatype ShopifyProduct = ShopifyProduct(id: string, handle: string, bodyHtml: string,
                                           descriptionHtml: string, variants: seq<ShopifyVariant>)

  datatype Mutation = SetDescription(productId: string, html: string) | SetPrice(variantId: string, cents: int)

  /**
   * The answers of the Shopify Admin API: the product found by a SKU search,
   * the product with a handle (`None` also when the query fails), and whether a
   * mutation is accepted without errors.
   */
  datatype Store = Store(bySku: string -> Option<ShopifyProduct>,
                         byHandle: string -> Option<ShopifyProduct>,
                         accepts: Mutation -> bool)

  /** The markup (PRINTIFY_MARKUP applied to a cost in cents) and the bounds. */
  datatype PriceConfig = PriceConfig(markup: int -> int, minCents: int, maxCents: int)

  predicate FoundBySku(p: PrintifyProduct, store: Store) {
    |p.variants| > 0 && p.variants[0].sku != "" && store.bySku(p.variants[0].sku).Some?
  }

  /** The product is looked up by its first variant's SKU, then by its handle. */
  function FindShopifyProduct(p: PrintifyProduct, store: Store): (sp: Option<ShopifyProduct>)
    ensures FoundBySku(p, store) ==> sp == store.bySku(p.variants[0].sku)
    ensures !FoundBySku(p, store) ==> sp == (if p.handle != "" then store.byHandle(p.handle) else None)
  {
    var viaSku := if |p.variants| > 0 && p.variants[0].sku != "" then store.bySku(p.variants[0].sku) else None;
    if viaSku.Some? then viaSku
    else if p.handle != "" then store.byHandle(p.handle)
    else None
  }

  /** Neither `bodyHtml` nor `descriptionHtml` holds anything. */
  predicate NeedsDescription(sp: ShopifyProduct) {
    sp.bodyHtml == "" && sp.descriptionHtml == ""
  }

  function SkuKey(v: PrintifyVariant): Option<string> {
    Some(v.sku)
  }

  function Itself(v: PrintifyVariant): PrintifyVariant {
    v
  }

  /** `bySku`: the Printify variants by SKU; a later variant with the same SKU wins. */
  function SkuIndex(vs: seq<PrintifyVariant>): map<string, PrintifyVariant> {
    Dict.Fill(vs, SkuKey, Itself)
  }

  function TargetPrice(pv: PrintifyVariant, cfg: PriceConfig): int {
    ComputePriceCents(cfg.markup(pv.priceCents), cfg.minCents, cfg.maxCents)
  }

  /** The price mutation, if any, for one Shopify variant. */
  function PriceUpdate(v: ShopifyVariant, index: map<string, PrintifyVariant>, cfg: PriceConfig): seq<Mutation> {
    if v.sku != "" && v.sku in index && PriceRule.NeedsUpdate(v.price, TargetPrice(index[v.sku], cfg))
    then [SetPrice(v.id, TargetPrice(index[v.sku], cfg))]
    else []
  }

  /** The price mutations for a product's Shopify variants, in their order. */
  function PriceUpdates(vs: seq<ShopifyVariant>, index: map<string, PrintifyVariant>, cfg: PriceConfig): (ms: seq<Mutation>)
    ensures |ms| <= |vs|
  {
    if vs == [] then [] else PriceUpdates(vs[..|vs| - 1], index, cfg) + PriceUpdate(vs[|vs| - 1], index, cfg)
  }

  /** Everything the script sends for one matched product. */
  function ProductMutations(p: PrintifyProduct, sp: ShopifyProduct, cfg: PriceConfig): seq<Mutation> {
    (if NeedsDescription(sp) then [SetDescription(sp.id, BuildDescription(p))] else [])
    + PriceUpdates(sp.variants, SkuIndex(p.variants), cfg)
  }

  /** Everything the script sends for a list of Printify products, in order. */
  function RunMutations(ps: seq<PrintifyProduct>, store: Store, cfg: PriceConfig): seq<Mutation> {
    if ps == [] then []
    else
      var sp := FindShopifyProduct(ps[|ps| - 1], store);
      RunMutations(ps[..|ps| - 1], store, cfg) + (if sp.Some? then ProductMutations(ps[|ps| - 1], sp.value, cfg) else [])
  }

  /** The products with no Shopify counterpart. */
  function Skipped(ps: seq<PrintifyProduct>, store: Store): (n: nat)
    ensures n <= |ps|
  {
    if ps == [] then 0
    else Skipped(ps[..|ps| - 1], store) + (if FindShopifyProduct(ps[|ps| - 1], store).None? then 1 else 0)
  }

  /** A price update counts as done when it is not sent (dry run) or Shopify accepts it. */
  predicate CountsAsUpdated(m: Mutation, apply: bool, accepts: Mutation -> bool) {
    m.SetPrice? && (!apply || accepts(m))
  }

  function Updated(ms: seq<Mutation>, apply: bool, accepts: Mutation -> bool): (n: nat)
    ensures n <= |ms|
  {
    if ms == [] then 0
    else Updated(ms[..|ms| - 1], apply, accepts) + (if CountsAsUpdated(ms[|ms| - 1], apply, accepts) then 1 else 0)
  }

  lemma {:induction false} UpdatedAppend(a: seq<Mutation>, b: seq<Mutation>, apply: bool, accepts: Mutation -> bool)
    ensures Updated(a + b, apply, accepts) == Updated(a, apply, accepts) + Updated(b, apply, accepts)
  {
    if b == [] {
      assert a + b == a;
    } else {
      var b' := b[..|b| - 1];
      assert (a + b)[..|a + b| - 1] == a + b';
      assert (a + b)[|a + b| - 1] == b[|b| - 1];
      UpdatedAppend(a, b', apply, accepts);
    }
  }

  lemma UpdatedSnoc(ms: seq<Mutation>, m: Mutation, apply: bool, accepts: Mutation -> bool)
    ensures Updated(ms + [m], apply, accepts)
         == Updated(ms, apply, accepts) + (if CountsAsUpdated(m, apply, accepts) then 1 else 0)
  {
    assert (ms + [m])[..|ms|] == ms;
  }

  // ---------------------------------------------------------------- what the plan means

  /** The price mutation for one Shopify variant comes from the last Printify variant with its SKU. */
  lemma PriceUpdateSound(v: ShopifyVariant, pvs: seq<PrintifyVariant>, cfg: PriceConfig, m: Mutation) returns (j: int)
    requires m in PriceUpdate(v, SkuIndex(pvs), cfg)
    ensures 0 <= j < |pvs| && v.sku != "" && pvs[j].sku == v.sku
    ensures forall j' :: j < j' < |pvs| ==> pvs[j'].sku != v.sku
    ensures m == SetPrice(v.id, TargetPrice(pvs[j], cfg)) && PriceRule.NeedsUpdate(v.price, TargetPrice(pvs[j], cfg))
  {
    var index := SkuIndex(pvs);
    Dict.FillValue(pvs, SkuKey, Itself, v.sku);
    j :| 0 <= j < |pvs| && SkuKey(pvs[j]) == Some(v.sku) && Itself(pvs[j]) == index[v.sku]
         && forall j' :: j < j' < |pvs| ==> SkuKey(pvs[j']) != Some(v.sku);
    forall j' | j < j' < |pvs| ensures pvs[j'].sku != v.sku {
      assert SkuKey(pvs[j']) != Some(v.sku);
    }
  }

  /**
   * A price mutation is sent exactly for the Shopify variants whose SKU names a
   * Printify variant and whose current price needs the update; the price sent
   * is the target computed from the last Printify variant with that SKU.
   */
  lemma {:induction false} PriceUpdatesSound(vs: seq<ShopifyVariant>, pvs: seq<PrintifyVariant>, cfg: PriceConfig, m: Mutation)
    requires m in PriceUpdates(vs, SkuIndex(pvs), cfg)
    ensures exists k, j :: 0 <= k < |vs| && 0 <= j < |pvs| && vs[k].sku != "" && pvs[j].sku == vs[k].sku
              && (forall j' :: j < j' < |pvs| ==> pvs[j'].sku != vs[k].sku)
              && m == SetPrice(vs[k].id, TargetPrice(pvs[j], cfg))
              && PriceRule.NeedsUpdate(vs[k].price, TargetPrice(pvs[j], cfg))
  {
    var index := SkuIndex(pvs);
    var init := vs[..|vs| - 1];
    var v := vs[|vs| - 1];
    if m in PriceUpdates(init, index, cfg) {
      PriceUpdatesSound(init, pvs, cfg, m);
      var k, j :| 0 <= k < |init| && 0 <= j < |pvs| && init[k].sku != "" && pvs[j].sku == init[k].sku
                  && (forall j' :: j < j' < |pvs| ==> pvs[j'].sku != init[k].sku)
                  && m == SetPrice(init[k].id, TargetPrice(pvs[j], cfg))
                  && PriceRule.NeedsUpdate(init[k].price, TargetPrice(pvs[j], cfg));
      assert vs[k] == init[k];
    } else {
      assert m in PriceUpdate(v, index, cfg);
      var j := PriceUpdateSound(v, pvs, cfg, m);
    }
  }

  /** Conversely, every Shopify variant whose SKU has a Printify variant and whose price is off gets its update. */
  lemma {:induction false} PriceUpdatesComplete(vs: seq<ShopifyVariant>, pvs: seq<PrintifyVariant>, cfg: PriceConfig, k: int, j: int)
    requires 0 <= k < |vs| && 0 <= j < |pvs| && vs[k].sku != "" && pvs[j].sku == vs[k].sku
    requires forall j' :: j < j' < |pvs| ==> pvs[j'].sku != vs[k].sku
    requires PriceRule.NeedsUpdate(vs[k].price, TargetPrice(pvs[j], cfg))
    ensures SetPrice(vs[k].id, TargetPrice(pvs[j], cfg)) in PriceUpdates(vs, SkuIndex(pvs), cfg)
  {
    var index := SkuIndex(pvs);
    if k < |vs| - 1 {
      var init := vs[..|vs| - 1];
      assert init[k] == vs[k];
      PriceUpdatesComplete(init, pvs, cfg, k, j);
    } else {
      Dict.FillLastWins(pvs, SkuKey, Itself, j);
      assert index[vs[k].sku] == pvs[j];
      assert PriceUpdate(vs[k], index, cfg) == [SetPrice(vs[k].id, TargetPrice(pvs[j], cfg))];
    }
  }

  /** Variant prices that already match their targets produce no price mutation: a second run is quiet. */
  lemma {:induction false} SettledPricesNeedNoUpdates(vs: seq<ShopifyVariant>, pvs: seq<PrintifyVariant>, cfg: PriceConfig)
    requires forall k :: 0 <= k < |vs| && vs[k].sku in SkuIndex(pvs) ==>
               vs[k].price == Some(TargetPrice(SkuIndex(pvs)[vs[k].sku], cfg))
    ensures PriceUpdates(vs, SkuIndex(pvs), cfg) == []
  {
    if vs != [] {
      var init := vs[..|vs| - 1];
      assert forall k :: 0 <= k < |init| ==> init[k] == vs[k];
      SettledPricesNeedNoUpdates(init, pvs, cfg);
    }
  }

  // ---------------------------------------------------------------- the run

  /** `bySku`, built by the script's loop over the Printify variants. */
  method BuildSkuIndex(vs: seq<PrintifyVariant>) returns (index: map<string, PrintifyVariant>)
    ensures index == SkuIndex(vs)
  {
    index := map[];
    for i := 0 to |vs|
      invariant index == SkuIndex(vs[..i])
    {
      assert vs[..i + 1][..i] == vs[..i];
      index := index[vs[i].sku := vs[i]];
    }
    assert vs[..|vs|] == vs;
  }

  /** The inner loop's body: the price of one Shopify variant. */
  method UpdatePrice(v: ShopifyVariant, index: map<string, PrintifyVariant>, cfg: PriceConfig,
                     apply: bool, accepts: Mutation -> bool)
    returns (updated: nat, issued: seq<Mutation>)
    ensures updated == Updated(PriceUpdate(v, index, cfg), apply, accepts)
    ensures issued == if apply then PriceUpdate(v, index, cfg) else []
  {
    updated, issued := 0, [];
    if !(v.sku != "" && v.sku in index) {
      return;
    }
    var target := ComputePriceCents(cfg.markup(index[v.sku].priceCents), cfg.minCents, cfg.maxCents);
    if PriceRule.NeedsUpdate(v.price, target) {
      var m := SetPrice(v.id, target);
      UpdatedSnoc([], m, apply, accepts);
      assert [] + [m] == [m];
      if apply {
        issued := [m];
        if accepts(m) {
          updated := 1;
        }
      } else {
        updated := 1;
      }
    }
  }

  lemma PriceUpdatesStep(vs: seq<ShopifyVariant>, i: int, index: map<string, PrintifyVariant>, cfg: PriceConfig)
    requires 0 <= i < |vs|
    ensures PriceUpdates(vs[..i + 1], index, cfg) == PriceUpdates(vs[..i], index, cfg) + PriceUpdate(vs[i], index, cfg)
  {
    assert vs[..i + 1][..i] == vs[..i];
  }

  /** The inner loop: one price mutation per Shopify variant whose price is off. */
  method UpdatePrices(vs: seq<ShopifyVariant>, index: map<string, PrintifyVariant>, cfg: PriceConfig,
                      apply: bool, accepts: Mutation -> bool)
    returns (updated: nat, issued: seq<Mutation>)
    ensures updated == Updated(PriceUpdates(vs, index, cfg), apply, accepts)
    ensures issued == if apply then PriceUpdates(vs, index, cfg) else []
  {
    updated, issued := 0, [];
    for i := 0 to |vs|
      invariant updated == Updated(PriceUpdates(vs[..i], index, cfg), apply, accepts)
      invariant apply ==> issued == PriceUpdates(vs[..i], index, cfg)
      invariant !apply ==> issued == []
    {
      ghost var done := PriceUpdates(vs[..i], index, cfg);
      ghost var step := PriceUpdate(vs[i], index, cfg);
      PriceUpdatesStep(vs, i, index, cfg);
      UpdatedAppend(done, step, apply, accepts);
      var n, sent := UpdatePrice(vs[i], index, cfg, apply, accepts);
      assert n == Updated(step, apply, accepts);
      updated := updated + n;
      issued := issued + sent;
    }
    assert vs[..|vs|] == vs;
  }

  /** One matched product: the description if it is blank, then the prices. */
  method SyncProduct(p: PrintifyProduct, sp: ShopifyProduct, cfg: PriceConfig, apply: bool, accepts: Mutation -> bool)
    returns (updated: nat, issued: seq<Mutation>)
    ensures updated == Updated(ProductMutations(p, sp, cfg), apply, accepts)
    ensures issued == if apply then ProductMutations(p, sp, cfg) else []
  {
    var desc: seq<Mutation> := if NeedsDescription(sp) then [SetDescription(sp.id, BuildDescription(p))] else [];
    assert Updated(desc, apply, accepts) == 0 by {
      if desc != [] { assert desc[..0] == []; }
    }
    var index := BuildSkuIndex(p.variants);
    var prices;
    updated, prices := UpdatePrices(sp.variants, index, cfg, apply, accepts);
    UpdatedAppend(desc, PriceUpdates(sp.variants, index, cfg), apply, accepts);
    issued := if apply then desc + prices else [];
  }

  /** What the run plans for the products up to and including `ps[i]`, from what it planned before. */
  lemma RunStep(ps: seq<PrintifyProduct>, i: int, store: Store, cfg: PriceConfig)
    requires 0 <= i < |ps|
    ensures RunMutations(ps[..i + 1], store, cfg) == RunMutations(ps[..i], store, cfg)
              + (var sp := FindShopifyProduct(ps[i], store);
                 if sp.Some? then ProductMutations(ps[i], sp.value, cfg) else [])
    ensures Skipped(ps[..i + 1], store)
         == Skipped(ps[..i], store) + (if FindShopifyProduct(ps[i], store).None? then 1 else 0)
  {
    assert ps[..i + 1][..i] == ps[..i];
  }

  /**
   * main after the shop is chosen and the products are fetched: `updated`
   * counts the price updates made (or, in dry run, that would be made),
   * `skipped` the products with no Shopify counterpart, and `issued` is what
   * was sent to Shopify, nothing at all in dry run.
   */
  method Sync(products: seq<PrintifyProduct>, store: Store, cfg: PriceConfig, apply: bool)
    returns (updated: nat, skipped: nat, issued: seq<Mutation>)
    ensures updated == Updated(RunMutations(products, store, cfg), apply, store.accepts)
    ensures skipped == Skipped(products, store)
    ensures issued == if apply then RunMutations(products, store, cfg) else []
  {
    updated, skipped, issued := 0, 0, [];
    for i := 0 to |products|
      invariant updated == Updated(RunMutations(products[..i], store, cfg), apply, store.accepts)
      invariant skipped == Skipped(products[..i], store)
      invariant issued == if apply then RunMutations(products[..i], store, cfg) else []
    {
      var p := products[i];
      RunStep(products, i, store, cfg);
      var sp := FindShopifyProduct(p, store);
      if sp.None? {
        skipped := skipped + 1;
        assert RunMutations(products[..i], store, cfg) + [] == RunMutations(products[..i], store, cfg);
      } else {
        var n, sent := SyncProduct(p, sp.value, cfg, apply, store.accepts);
        UpdatedAppend(RunMutations(products[..i], store, cfg), ProductMutations(p, sp.value, cfg), apply, store.accepts);
        updated := updated + n;
        issued := issued + sent;
      }
    }
    assert products[..|products|] == products;
  }

  /** The skipped count is the number of Printify products with no Shopify counterpart. */
  lemma {:induction false} SkippedCountsUnmatched(ps: seq<PrintifyProduct>, store: Store)
    ensures Skipped(ps, store) == |set i | 0 <= i < |ps| && FindShopifyProduct(ps[i], store).None?|
  {
    if ps != [] {
      var init, last := ps[..|ps| - 1], |ps| - 1;
      SkippedCountsUnmatched(init, store);
      var before := set i | 0 <= i < |init| && FindShopifyProduct(init[i], store).None?;
      var after := set i | 0 <= i < |ps| && FindShopifyProduct(ps[i], store).None?;
      var hit := FindShopifyProduct(ps[last], store).None?;
      forall i
        ensures i in after <==> i in before || (hit && i == last)
      {
        if 0 <= i < last {
          assert init[i] == ps[i];
        }
      }
      Counting.SnocCount(before, after, last, hit);
    }
  }

  /** Products with no Shopify counterpart cause no mutation at all. */
  lemma {:induction false} UnmatchedProductsSendNothing(ps: seq<PrintifyProduct>, store: Store, cfg: PriceConfig)
    requires forall i :: 0 <= i < |ps| ==> FindShopifyProduct(ps[i], store).None?
    ensures RunMutations(ps, store, cfg) == []
  {
    if ps != [] {
      var init := ps[..|ps| - 1];
      assert forall i :: 0 <= i < |init| ==> init[i] == ps[i];
      UnmatchedProductsSendNothing(init, store, cfg);
    }
  }

  /** A dry run sends nothing and counts every planned price update. */
  lemma {:induction false} DryRunCountsEveryPrice(ms: seq<Mutation>, accepts: Mutation -> bool)
    ensures Updated(ms, false, accepts) == |set i | 0 <= i < |ms| && ms[i].SetPrice?|
  {
    if ms != [] {
      var init := ms[..|ms| - 1];
      DryRunCountsEveryPrice(init, accepts);
      var before := set i | 0 <= i < |init| && init[i].SetPrice?;
      var after := set i | 0 <= i < |ms| && ms[i].SetPrice?;
      if ms[|ms| - 1].SetPrice? {
        assert after == before + {|ms| - 1};
      } else {
        assert after == before;
      }
    }
  }
}
