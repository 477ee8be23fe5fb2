/**
 * The add-to-cart button: the cart permalink `/cart/<id>:<qty>,...` built from
 * cart lines, the effect that opens the cart drawer once an add completes (or
 * falls back to the permalink when the add failed), and the button's
 * disabled state and label.
 */
module AddToCart {
  import opened Wrappers
  import opened Text
  import JsNumber
  import opened Fetchers

  // ---------------------------------------------------------------- cart permalink

  /** A cart line input; a missing id is "" and a missing quantity `None`. */
  datatype Line = Line(merchandiseId: string, variantId: string, quantity: Option<int>)

  /** `merchandiseId || variantId || ''`. */
  function LineId(l: Line): string {
    if l.merchandiseId != "" then l.merchandiseId else l.variantId
  }

  /** The segment after the last `/` of the line's id: the numeric id of a `gid://` reference. */
  function LineNumber(l: Line): (n: string)
    ensures '/' !in n
  {
    LastSegment(LineId(l), '/')
  }

  /** `Math.max(1, Number(quantity || 1))`. */
  function Quantity(l: Line): (q: int)
    ensures q >= 1
    ensures l.quantity.None? || l.quantity == Some(0) ==> q == 1
    ensures l.quantity.Some? && l.quantity.value >= 1 ==> q == l.quantity.value
  {
    var n := if l.quantity.None? || l.quantity.value == 0 then 1 else l.quantity.value;
    if n < 1 then 1 else n
  }

  /** A line id is usable when it is non-empty and `Number` reads it as a number. */
  predicate UsableNumber(n: string) {
    n != "" && JsNumber.ParsesAsNumber(n)
  }

  function LinePart(l: Line, includeQty: bool): string {
    if includeQty then LineNumber(l) + ":" + NatToString(Quantity(l)) else LineNumber(l)
  }

  /**
   * `lines.map(...)` followed by `parts.some((p) => !p)`: the parts of the
   * path, one per line in order, or `None` when some line's id is unusable.
   */
  function LineParts(ls: seq<Line>, includeQty: bool): Option<seq<string>> {
    if ls == [] then Some([])
    else
      var rest := LineParts(ls[1..], includeQty);
      if !UsableNumber(LineNumber(ls[0])) || rest.None? then None
      else Some([LinePart(ls[0], includeQty)] + rest.value)
  }

  /** Every line's id is usable, checked line by line. */
  predicate AllUsable(ls: seq<Line>) {
    ls == [] || (UsableNumber(LineNumber(ls[0])) && AllUsable(ls[1..]))
  }

  /** `AllUsable` holds exactly when each line's id is usable. */
  lemma {:induction false} AllUsableEvery(ls: seq<Line>)
    ensures AllUsable(ls) <==> forall i :: 0 <= i < |ls| ==> UsableNumber(LineNumber(ls[i]))
  {
    if ls != [] {
      var tail := ls[1..];
      AllUsableEvery(tail);
      if UsableNumber(LineNumber(ls[0])) && AllUsable(tail) {
        forall i | 0 <= i < |ls| ensures UsableNumber(LineNumber(ls[i])) {
          if i > 0 { assert ls[i] == tail[i - 1]; }
        }
      }
      if forall i :: 0 <= i < |ls| ==> UsableNumber(LineNumber(ls[i])) {
        forall i | 0 <= i < |tail| ensures UsableNumber(LineNumber(tail[i])) {
          assert tail[i] == ls[i + 1];
        }
      }
    }
  }

  /** The parts exist exactly when every line's id is usable. */
  lemma {:induction false} LinePartsExist(ls: seq<Line>, includeQty: bool)
    ensures LineParts(ls, includeQty).Some? <==> AllUsable(ls)
  {
    if ls != [] {
      LinePartsExist(ls[1..], includeQty);
    }
  }

  /** When the parts exist there is one per line: part `i` is line `i`'s. */
  lemma {:induction false} LinePartAt(ls: seq<Line>, includeQty: bool, i: nat)
    requires LineParts(ls, includeQty).Some? && i < |ls|
    ensures |LineParts(ls, includeQty).value| == |ls|
    ensures LineParts(ls, includeQty).value[i] == LinePart(ls[i], includeQty)
    decreases |ls|
  {
    var tail := ls[1..];
    var rest := LineParts(tail, includeQty).value;
    if i == 0 {
      if tail != [] {
        LinePartAt(tail, includeQty, 0);
      }
    } else {
      LinePartAt(tail, includeQty, i - 1);
      assert ls[i] == tail[i - 1];
    }
  }

  /**
   * buildCartLinesHref: `/cart/` and the line parts joined by commas; `None`
   * for a missing or empty line list and for any line whose id is unusable.
   */
  function BuildCartLinesHref(lines: Option<seq<Line>>, includeQty: bool): (href: Option<string>)
    ensures lines.None? || lines.value == [] ==> href.None?
    ensures lines.Some? && lines.value != [] ==> (href.Some? <==> AllUsable(lines.value))
    ensures href.Some? ==> |href.value| > 6 && href.value[..6] == "/cart/"
  {
    if lines.None? || lines.value == [] then None
    else
      var parts := LineParts(lines.value, includeQty);
      LinePartsExist(lines.value, includeQty);
      if parts.None? then None
      else
        var joined := Join(parts.value, ',');
        assert |joined| > 0 by {
          assert |LinePart(lines.value[0], includeQty)| > 0;
          JoinFirst(parts.value, ',');
        }
        Some("/cart/" + joined)
  }

  /** A single usable line gives the permalink with just its part. */
  lemma SingleLineHref(ls: seq<Line>)
    requires |ls| == 1 && UsableNumber(LineNumber(ls[0]))
    ensures BuildCartLinesHref(Some(ls), true) == Some("/cart/" + LinePart(ls[0], true))
  {
    var part := LinePart(ls[0], true);
    assert ls[1..] == [];
    assert LineParts(ls, true) == Some([part] + []);
    assert [part] + [] == [part];
    assert Join([part], ',') == part;
  }

  lemma JoinFirst(xs: seq<string>, sep: char)
    requires |xs| >= 1
    ensures |Join(xs, sep)| >= |xs[0]|
  {
  }

  /** A path part read back: the id and, after a `:`, the quantity. */
  datatype PathItem = PathItem(number: string, quantity: int)

  /** How the cart route reads the path `/cart/<id>:<qty>,...` back into items. */
  function ParseCartPath(path: string): Option<seq<PathItem>> {
    if |path| < 6 || path[..6] != "/cart/" then None
    else ParseItems(Split(path[6..], ','))
  }

  function ParseItems(parts: seq<string>): Option<seq<PathItem>> {
    if parts == [] then Some([])
    else
      var fields := Split(parts[0], ':');
      var rest := ParseItems(parts[1..]);
      if |fields| != 2 || !AllDigits(fields[1]) || rest.None? then None
      else Some([PathItem(fields[0], DigitsValue(fields[1]))] + rest.value)
  }

  /** What a line becomes in the path. */
  function ItemOf(l: Line): PathItem {
    PathItem(LineNumber(l), Quantity(l))
  }

  /** The quantity never holds a path separator. */
  lemma QuantityDigits(l: Line)
    ensures ',' !in NatToString(Quantity(l)) && ':' !in NatToString(Quantity(l))
  {
    var q := NatToString(Quantity(l));
    assert forall i :: 0 <= i < |q| ==> IsDigit(q[i]);
  }

  /** One part with its quantity reads back as the line's item. */
  lemma ParsePart(l: Line)
    requires UsableNumber(LineNumber(l))
    ensures var fields := Split(LinePart(l, true), ':');
            |fields| == 2 && AllDigits(fields[1]) && PathItem(fields[0], DigitsValue(fields[1])) == ItemOf(l)
  {
    var n := LineNumber(l);
    var q := NatToString(Quantity(l));
    JsNumber.NoPathSeparators(n);
    QuantityDigits(l);
    SplitJoin([n, q], ':');
    assert Join([n, q], ':') == n + ":" + q;
    DigitsValueOfNatToString(Quantity(l));
  }

  /** What the lines become in the path, in order. */
  function Items(ls: seq<Line>): seq<PathItem> {
    if ls == [] then [] else [ItemOf(ls[0])] + Items(ls[1..])
  }

  lemma {:induction false} ItemsLength(ls: seq<Line>)
    ensures |Items(ls)| == |ls|
  {
    if ls != [] {
      ItemsLength(ls[1..]);
    }
  }

  lemma ParseItemsCons(p: string, more: seq<string>)
    ensures ParseItems([p] + more)
         == (var fields := Split(p, ':');
             var rest := ParseItems(more);
             if |fields| != 2 || !AllDigits(fields[1]) || rest.None? then None
             else Some([PathItem(fields[0], DigitsValue(fields[1]))] + rest.value))
  {
    assert ([p] + more)[1..] == more;
  }

  /** A line's part in front of other parts reads back as the line's item in front of theirs. */
  lemma ParseLineCons(l: Line, more: seq<string>)
    requires UsableNumber(LineNumber(l))
    ensures ParseItems([LinePart(l, true)] + more)
         == if ParseItems(more).Some? then Some([ItemOf(l)] + ParseItems(more).value) else None
  {
    ParsePart(l);
    ParseItemsCons(LinePart(l, true), more);
  }

  lemma {:induction false} ParseLineParts(ls: seq<Line>)
    requires LineParts(ls, true).Some?
    ensures ParseItems(LineParts(ls, true).value) == Some(Items(ls))
  {
    if ls != [] {
      ParseLineParts(ls[1..]);
      ParseLineCons(ls[0], LineParts(ls[1..], true).value);
    }
  }

  /**
   * The permalink with quantities reads back as the lines' numeric ids and
   * quantities, in order: the commas and colons it adds are never part of an id.
   */
  lemma CartPathRoundTrip(ls: seq<Line>)
    requires BuildCartLinesHref(Some(ls), true).Some?
    ensures ParseCartPath(BuildCartLinesHref(Some(ls), true).value)
         == Some(Items(ls))
  {
    AllUsableEvery(ls);
    LinePartsExist(ls, true);
    LinePartAt(ls, true, 0);
    var parts := LineParts(ls, true).value;
    var href := BuildCartLinesHref(Some(ls), true).value;
    assert href[6..] == Join(parts, ',');
    forall k | 0 <= k < |parts| ensures ',' !in parts[k] {
      LinePartAt(ls, true, k);
      JsNumber.NoPathSeparators(LineNumber(ls[k]));
      QuantityDigits(ls[k]);
    }
    SplitJoin(parts, ',');
    ParseLineParts(ls);
  }

  // ---------------------------------------------------------------- the completion effect

  /** What the effect does outside the component, in order. */
  datatype Effect =
    | StoreLastCart(cart: Cart)         // window.__lastCart = cart
    | DispatchCartUpdated(cart: Cart)   // the 'cart:updated' event
    | OpenCartAside                     // open('cart')
    | FallbackGet(url: string)          // fetch(url, {method: 'GET'})

  /** An add has completed successfully: the fetcher is idle and holds a cart. */
  predicate AddSucceeded(f: Fetcher) {
    f.state == Idle && f.data.Some? && f.data.value.cart.Some?
  }

  /** An add has completed with a failure: no cart, or a non-empty error list. */
  predicate AddFailed(f: Fetcher) {
    f.state == Idle && f.data.Some? && (f.data.value.cart.None? || |f.data.value.errors| > 0)
  }

  /** The `openedRef` flag after one run of the effect. */
  function OpenedAfter(openedRef: bool, fetcher: Option<Fetcher>): (r: bool)
    ensures r <==> openedRef || (fetcher.Some? && AddSucceeded(fetcher.value))
  {
    if fetcher.Some? && AddSucceeded(fetcher.value) then true else openedRef
  }

  /** The effects of one run of the effect, given the flag before it. */
  function EffectRun(openedRef: bool, fetcher: Option<Fetcher>, lines: Option<seq<Line>>): seq<Effect> {
    if fetcher.None? then []
    else
      var f := fetcher.value;
      var success := if AddSucceeded(f) && !openedRef
        then [StoreLastCart(f.data.value.cart.value), DispatchCartUpdated(f.data.value.cart.value), OpenCartAside]
        else [];
      var href := BuildCartLinesHref(lines, true);
      var fallback := if AddFailed(f) && lines.Some? && !OpenedAfter(openedRef, fetcher) && href.Some?
        then [FallbackGet(href.value + "?silent=1")]
        else [];
      success + fallback
  }

  function CountOpens(es: seq<Effect>): nat {
    if es == [] then 0 else (if es[0] == OpenCartAside then 1 else 0) + CountOpens(es[1..])
  }

  predicate HasFallback(es: seq<Effect>) {
    exists i :: 0 <= i < |es| && es[i].FallbackGet?
  }

  /** A completed add opens the drawer once when the flag is clear, and then no fallback follows. */
  lemma SuccessOpensOnce(fetcher: Fetcher, lines: Option<seq<Line>>)
    requires AddSucceeded(fetcher)
    ensures CountOpens(EffectRun(false, Some(fetcher), lines)) == 1
    ensures !HasFallback(EffectRun(false, Some(fetcher), lines))
    ensures CountOpens(EffectRun(true, Some(fetcher), lines)) == 0
  {
    var es := EffectRun(false, Some(fetcher), lines);
    var cart := fetcher.data.value.cart.value;
    assert es == [StoreLastCart(cart), DispatchCartUpdated(cart), OpenCartAside];
    assert es[1..] == [DispatchCartUpdated(cart), OpenCartAside];
    assert es[1..][1..] == [OpenCartAside];
    assert es[1..][1..][1..] == [];
    assert CountOpens(es[1..][1..]) == 1;
    assert CountOpens(es[1..]) == 1;
    assert EffectRun(true, Some(fetcher), lines) == [];
  }

  /**
   * A failed add whose answer has no cart (one with a cart and errors takes
   * the success branch as well) issues at most one request, the permalink with quantities
   * and `?silent=1`, and issues it exactly when the permalink exists and the
   * flag is clear.
   */
  lemma FailureFallsBack(openedRef: bool, fetcher: Fetcher, lines: seq<Line>)
    requires AddFailed(fetcher) && fetcher.data.value.cart.None?
    ensures var es := EffectRun(openedRef, Some(fetcher), Some(lines));
            var href := BuildCartLinesHref(Some(lines), true);
            (HasFallback(es) <==> !openedRef && href.Some?)
            && (HasFallback(es) ==> es == [FallbackGet(href.value + "?silent=1")])
            && CountOpens(es) == 0
  {
    var es := EffectRun(openedRef, Some(fetcher), Some(lines));
    if !openedRef && BuildCartLinesHref(Some(lines), true).Some? {
      assert es == [FallbackGet(BuildCartLinesHref(Some(lines), true).value + "?silent=1")];
      assert es[0].FallbackGet? && es[1..] == [];
    } else {
      assert es == [];
    }
  }

  /** A fetcher still at work does nothing. */
  lemma BusyFetcherDoesNothing(openedRef: bool, fetcher: Fetcher, lines: Option<seq<Line>>)
    requires fetcher.state != Idle
    ensures EffectRun(openedRef, Some(fetcher), lines) == []
  {
  }

  /**
   * The submit button's effect state: the `openedRef` flag and the effects
   * performed so far.
   */
  class SubmitButton {
    var openedRef: bool
    var effects: seq<Effect>

    constructor()
      ensures !openedRef && effects == []
    {
      openedRef := false;
      effects := [];
    }

    /** One run of the effect after the fetcher's state or data changed. */
    method OnFetcherChange(fetcher: Option<Fetcher>, lines: Option<seq<Line>>)
      modifies this
      ensures openedRef == OpenedAfter(old(openedRef), fetcher)
      ensures effects == old(effects) + EffectRun(old(openedRef), fetcher, lines)
    {
      if fetcher.None? {
        return;
      }
      var f := fetcher.value;
      var start := effects;
      var wasOpened := openedRef;
      var done := f.state == Idle && f.data.Some? && f.data.value.cart.Some?;
      if done && !openedRef {
        openedRef := true;
        var cart := f.data.value.cart.value;
        effects := effects + [StoreLastCart(cart), DispatchCartUpdated(cart)];
        effects := effects + [OpenCartAside];
      }
      var failed := f.state == Idle && f.data.Some? && (f.data.value.cart.None? || |f.data.value.errors| > 0);
      if failed && lines.Some? && !openedRef {
        var href := BuildCartLinesHref(lines, true);
        if href.Some? {
          effects := effects + [FallbackGet(href.value + "?silent=1")];
        }
      }
      assert effects == start + EffectRun(wasOpened, fetcher, lines);
    }

    /** The timer set on success fires: later adds may open the drawer again. */
    method OnResetTimer()
      modifies this
      ensures !openedRef && effects == old(effects)
    {
      openedRef := false;
    }

    /** The fallback request answered; a cart in the answer is stored, announced and shown. */
    method OnFallbackResponse(cart: Option<Cart>)
      modifies this
      ensures openedRef == old(openedRef)
      ensures effects == old(effects) + (if cart.Some? then [StoreLastCart(cart.value), DispatchCartUpdated(cart.value), OpenCartAside] else [])
    {
      if cart.Some? {
        effects := effects + [StoreLastCart(cart.value), DispatchCartUpdated(cart.value), OpenCartAside];
      }
    }
  }

  // ---------------------------------------------------------------- the button

  /** `fetcher?.state !== 'idle'`: a missing fetcher counts as submitting. */
  function IsSubmitting(fetcher: Option<Fetcher>): (b: bool)
    ensures b <==> fetcher.None? || fetcher.value.state != Idle
  {
    fetcher.None? || fetcher.value.state != Idle
  }

  /** `disabled ?? isSubmitting`: an explicit `disabled` prop wins. */
  function ButtonDisabled(disabled: Option<bool>, fetcher: Option<Fetcher>): (b: bool)
    ensures disabled.Some? ==> b == disabled.value
    ensures disabled.None? ==> (b <==> IsSubmitting(fetcher))
  {
    if disabled.Some? then disabled.value else IsSubmitting(fetcher)
  }

  /** The label while submitting; `None` means the button shows its children. */
  function ButtonLabel(fetcher: Option<Fetcher>): (r: Option<string>)
    ensures r.Some? <==> IsSubmitting(fetcher)
    ensures r.Some? ==> r.value == "Adding\U{2026}"
  {
    if IsSubmitting(fetcher) then Some("Adding\U{2026}") else None
  }
}
