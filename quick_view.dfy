/**
 * The product quick view: the lazily loaded product, the Size option's values,
 * the variant picked by size, the Printify production sizes, the short id
 * shown in the stats, the cart attributes, and the single cart line it adds.
 */
module QuickView {
  import opened Wrappers
  import opened Text
  import opened Fetchers
  import AddToCart

  // ---------------------------------------------------------------- loading

  predicate IsUnreserved(c: char) {
    'A' <= c <= 'Z' || 'a' <= c <= 'z' || '0' <= c <= '9' || c in "-_.!~*'()"
  }

  function HexDigit(d: nat): (c: char)
    requires d < 16
    ensures IsUnreserved(c)
  {
    if d < 10 then ('0' as int + d) as char else ('A' as int + d - 10) as char
  }

  /** `%XY` for one byte. */
  function PercentByte(b: nat): (r: string)
    requires b < 256
    ensures |r| == 3 && r[0] == '%' && IsUnreserved(r[1]) && IsUnreserved(r[2])
  {
    ['%', HexDigit(b / 16), HexDigit(b % 16)]
  }

  /** The UTF-8 bytes of a Unicode scalar value. */
  function Utf8(cp: nat): (bytes: seq<nat>)
    requires cp < 0x11_0000
    ensures 1 <= |bytes| <= 4 && forall i :: 0 <= i < |bytes| ==> bytes[i] < 256
  {
    if cp < 0x80 then [cp]
    else if cp < 0x800 then [0xC0 + cp / 64, 0x80 + cp % 64]
    else if cp < 0x1_0000 then [0xE0 + cp / 4096, 0x80 + cp / 64 % 64, 0x80 + cp % 64]
    else [0xF0 + cp / 262144, 0x80 + cp / 4096 % 64, 0x80 + cp / 64 % 64, 0x80 + cp % 64]
  }

  function PercentBytes(bytes: seq<nat>): (r: string)
    requires forall i :: 0 <= i < |bytes| ==> bytes[i] < 256
    ensures forall i :: 0 <= i < |r| ==> IsUnreserved(r[i]) || r[i] == '%'
  {
    if bytes == [] then "" else PercentByte(bytes[0]) + PercentBytes(bytes[1..])
  }

  /** encodeURIComponent: unreserved characters are kept, every other one becomes its percent-encoded UTF-8 bytes. */
  function EncodeUriComponent(s: string): (r: string)
    ensures forall i :: 0 <= i < |r| ==> IsUnreserved(r[i]) || r[i] == '%'
    ensures (forall i :: 0 <= i < |s| ==> IsUnreserved(s[i])) ==> r == s
  {
    if s == [] then ""
    else
      var head := if IsUnreserved(s[0]) then [s[0]] else PercentBytes(Utf8(s[0] as nat));
      var tail := EncodeUriComponent(s[1..]);
      assert forall i :: 1 <= i < |s| ==> s[i] == s[1..][i - 1];
      head + tail
  }

  /** The product route for a handle, with `?gid=` only when a gid is given. */
  function ProductUrl(handle: string, gid: string): (url: string)
    ensures '?' in url <==> gid != ""
    ensures |url| >= 13 && url[..13] == "/api/product/"
  {
    var path := "/api/product/" + EncodeUriComponent(handle);
    NoCharInConcat("/api/product/", EncodeUriComponent(handle), '?');
    if gid == "" then path
    else
      var url := path + "?gid=" + EncodeUriComponent(gid);
      assert url[|path|] == '?';
      url
  }

  /**
   * The load effect: product data is requested only while the view is open,
   * a handle is set, and the fetcher is idle without data.
   */
  function LoadRequest(open: bool, handle: string, gid: string, state: FetcherState, hasData: bool): (r: Option<string>)
    ensures r.Some? <==> open && handle != "" && state == Idle && !hasData
    ensures r.Some? ==> r.value == ProductUrl(handle, gid)
  {
    if open && handle != "" && state == Idle && !hasData then Some(ProductUrl(handle, gid)) else None
  }

  /** The Printify sizes are requested only for a product with a handle. */
  function SizesRequest(handle: string): (r: Option<string>)
    ensures r.None? <==> handle == ""
    ensures r.Some? ==> |r.value| > 20 && r.value[..20] == "/api.printify/sizes/" && '?' !in r.value
  {
    if handle == "" then None
    else
      var url := "/api.printify/sizes/" + EncodeUriComponent(handle);
      NoCharInConcat("/api.printify/sizes/", EncodeUriComponent(handle), '?');
      Some(url)
  }

  lemma NoCharInConcat(a: string, b: string, c: char)
    requires c !in a && c !in b
    ensures c !in a + b
  {
  }

  // ---------------------------------------------------------------- product data

  datatype ProductOption = ProductOption(name: string, values: seq<string>)
  datatype SelectedOption = SelectedOption(name: string, value: string)
  datatype Variant = Variant(id: string, availableForSale: bool, selectedOptions: seq<SelectedOption>)
  datatype Product = Product(id: Option<string>, handle: string, options: seq<ProductOption>,
                             variants: seq<Variant>, selectedOrFirstAvailableVariant: Option<Variant>)

  /** `String(name).toLowerCase() === 'size'`. */
  predicate IsSizeName(name: string) {
    Lower(name) == "size"
  }

  /** The position of the first option named Size, in any letter case. */
  function SizeOptionIndex(options: seq<ProductOption>): (r: Option<nat>)
    ensures r.None? <==> forall i :: 0 <= i < |options| ==> !IsSizeName(options[i].name)
    ensures r.Some? ==> r.value < |options| && IsSizeName(options[r.value].name)
                        && forall j :: 0 <= j < r.value ==> !IsSizeName(options[j].name)
  {
    if options == [] then None
    else if IsSizeName(options[0].name) then Some(0)
    else
      var r := SizeOptionIndex(options[1..]);
      assert forall i :: 1 <= i < |options| ==> options[i] == options[1..][i - 1];
      if r.Some? then Some(r.value + 1) else None
  }

  /** sizeValues: the values of the first option named Size, or none when there is no such option. */
  function SizeValues(options: seq<ProductOption>): (r: seq<string>)
    ensures (forall i :: 0 <= i < |options| ==> !IsSizeName(options[i].name)) ==> r == []
    ensures forall i :: (0 <= i < |options| && IsSizeName(options[i].name)
                         && forall j :: 0 <= j < i ==> !IsSizeName(options[j].name)) ==> r == options[i].values
  {
    var k := SizeOptionIndex(options);
    if k.Some? then options[k.value].values else []
  }

  /** The variant has a Size option with exactly this value. */
  predicate HasSize(v: Variant, value: string) {
    exists k :: 0 <= k < |v.selectedOptions| && IsSizeName(v.selectedOptions[k].name) && v.selectedOptions[k].value == value
  }

  /** The position of the first variant with the chosen size. */
  function SizeMatchIndex(vs: seq<Variant>, value: string): (r: Option<nat>)
    ensures r.None? <==> forall i :: 0 <= i < |vs| ==> !HasSize(vs[i], value)
    ensures r.Some? ==> r.value < |vs| && HasSize(vs[r.value], value)
                        && forall j :: 0 <= j < r.value ==> !HasSize(vs[j], value)
  {
    if vs == [] then None
    else if HasSize(vs[0], value) then Some(0)
    else
      var r := SizeMatchIndex(vs[1..], value);
      assert forall i :: 1 <= i < |vs| ==> vs[i] == vs[1..][i - 1];
      if r.Some? then Some(r.value + 1) else None
  }

  /** `variants.find(...)`: the first variant with the chosen size, if any. */
  function FindBySize(vs: seq<Variant>, value: string): (r: Option<Variant>)
    ensures r.None? <==> forall i :: 0 <= i < |vs| ==> !HasSize(vs[i], value)
    ensures forall i :: (0 <= i < |vs| && HasSize(vs[i], value)
                         && forall j :: 0 <= j < i ==> !HasSize(vs[j], value)) ==> r == Some(vs[i])
  {
    var k := SizeMatchIndex(vs, value);
    if k.Some? then Some(vs[k.value]) else None
  }

  /** The ID stat: the last six characters of the segment after the last `/`, or an em dash without an id. */
  function IdStat(id: Option<string>): (r: string)
    ensures id.None? ==> r == "\U{2014}"
    ensures id.Some? ==> '/' !in r && |r| == Min(|LastSegment(id.value, '/')|, 6)
  {
    if id.None? then "\U{2014}"
    else
      var seg := LastSegment(id.value, '/');
      if |seg| <= 6 then seg else seg[|seg| - 6..]
  }

  /** The ID stat of an id is a suffix of the id. */
  lemma IdStatSuffix(id: string)
    ensures var r := IdStat(Some(id)); |r| <= |id| && r == id[|id| - |r|..]
  {
    var seg := LastSegment(id, '/');
    LastSegmentSuffix(id, '/');
    assert seg == id[|id| - |seg|..];
    if |seg| > 6 {
      var r := seg[|seg| - 6..];
      assert forall i :: 0 <= i < 6 ==> r[i] == seg[|seg| - 6 + i] == id[|id| - 6 + i];
      assert r == id[|id| - 6..];
    }
  }

  function Min(a: int, b: int): int {
    if a < b then a else b
  }

  /** The segment after the last separator, when the separator sits at `k`. */
  lemma LastSegmentAfter(s: string, sep: char, k: nat)
    requires k < |s| && s[k] == sep && sep !in s[k + 1..]
    ensures LastSegment(s, sep) == s[k + 1..]
  {
    var r := LastSegment(s, sep);
    LastSegmentSuffix(s, sep);
    assert forall j :: k < j < |s| ==> s[j] == s[k + 1..][j - k - 1];
    assert forall i :: 0 <= i < |r| ==> r[i] == s[|s| - |r| + i];
    assert |r| <= |s| - k - 1;
    assert |r| >= |s| - k - 1;
  }

  /** A gid whose last segment has at least six characters shows the last six of them. */
  lemma ShopifyGidStat(prefix: string, number: string)
    requires '/' !in number && |number| >= 6
    ensures IdStat(Some(prefix + "/" + number)) == number[|number| - 6..]
  {
    var id := prefix + "/" + number;
    assert id[|prefix|] == '/' && id[|prefix| + 1..] == number;
    LastSegmentAfter(id, '/', |prefix|);
  }

  /** The cart attributes: CustomSize only without a Size option, PrintifySize only when one is chosen. */
  function Attributes(sizeValues: seq<string>, customSize: string, printifySize: string): (r: map<string, string>)
    ensures "CustomSize" in r <==> sizeValues == []
    ensures "PrintifySize" in r <==> printifySize != ""
    ensures r.Keys <= {"CustomSize", "PrintifySize"}
    ensures "CustomSize" in r ==> r["CustomSize"] == customSize
    ensures "PrintifySize" in r ==> r["PrintifySize"] == printifySize
  {
    var custom := if sizeValues == [] then map["CustomSize" := customSize] else map[];
    if printifySize != "" then custom["PrintifySize" := printifySize] else custom
  }

  /** The add-to-cart line: the current variant, quantity 1. */
  function CartLines(v: Variant): (ls: seq<AddToCart.Line>)
    ensures |ls| == 1 && AddToCart.LineId(ls[0]) == v.id && AddToCart.Quantity(ls[0]) == 1
  {
    [AddToCart.Line(v.id, "", Some(1))]
  }

  /** The button is disabled exactly when the variant cannot be bought, and says so. */
  function CartButton(v: Variant): (r: (bool, string))
    ensures r.0 <==> !v.availableForSale
    ensures r.1 == (if v.availableForSale then "Add to Cart" else "Sold Out")
  {
    (!v.availableForSale, if v.availableForSale then "Add to Cart" else "Sold Out")
  }

  /** The quick view's state cells. */
  class QuickViewState {
    var currentVariant: Option<Variant>
    var printifySizes: seq<string>
    var printifySize: string

    constructor()
      ensures currentVariant.None? && printifySizes == [] && printifySize == ""
    {
      currentVariant := None;
      printifySizes := [];
      printifySize := "";
    }

    /** The product arrived: its selected or first available variant becomes current. */
    method OnProductLoaded(product: Option<Product>)
      modifies this
      ensures product.Some? && product.value.selectedOrFirstAvailableVariant.Some? ==>
                currentVariant == product.value.selectedOrFirstAvailableVariant
      ensures !(product.Some? && product.value.selectedOrFirstAvailableVariant.Some?) ==> currentVariant == old(currentVariant)
      ensures printifySizes == old(printifySizes) && printifySize == old(printifySize)
    {
      if product.Some? && product.value.selectedOrFirstAvailableVariant.Some? {
        currentVariant := product.value.selectedOrFirstAvailableVariant;
      }
    }

    /** onSizeChange: the first variant with the chosen size becomes current; with none, nothing changes. */
    method OnSizeChange(product: Option<Product>, value: string)
      modifies this
      ensures var found := if product.Some? then FindBySize(product.value.variants, value) else None;
              currentVariant == (if found.Some? then found else old(currentVariant))
      ensures printifySizes == old(printifySizes) && printifySize == old(printifySize)
    {
      var variants := if product.Some? then product.value.variants else [];
      var v := FindBySize(variants, value);
      if v.Some? {
        currentVariant := v;
      }
    }

    /** The Printify sizes arrived: a non-empty list is kept and its first size chosen. */
    method OnPrintifySizes(sizes: Option<seq<string>>)
      modifies this
      ensures sizes.Some? && |sizes.value| > 0 ==> printifySizes == sizes.value && printifySize == sizes.value[0]
      ensures !(sizes.Some? && |sizes.value| > 0) ==> printifySizes == old(printifySizes) && printifySize == old(printifySize)
      ensures currentVariant == old(currentVariant)
    {
      if sizes.Some? && |sizes.value| > 0 {
        printifySizes := sizes.value;
        printifySize := sizes.value[0];
      }
    }

    /** The shopper picks a production size. */
    method OnPrintifySizeSelect(s: string)
      modifies this
      ensures printifySize == s && printifySizes == old(printifySizes) && currentVariant == old(currentVariant)
    {
      printifySize := s;
    }
  }

  /** The permalink for the quick view's line is the variant's number with quantity 1. */
  lemma QuickViewPermalink(v: Variant)
    requires AddToCart.UsableNumber(LastSegment(v.id, '/'))
    ensures AddToCart.BuildCartLinesHref(Some(CartLines(v)), true)
         == Some("/cart/" + LastSegment(v.id, '/') + ":1")
  {
    var seg := LastSegment(v.id, '/');
    var ls := CartLines(v);
    QuickViewLinePart(v);
    AddToCart.SingleLineHref(ls);
    assert "/cart/" + (seg + ":1") == "/cart/" + seg + ":1";
  }

  /** The quick view's one line reads as the variant's number with quantity 1. */
  lemma QuickViewLinePart(v: Variant)
    ensures AddToCart.LineNumber(CartLines(v)[0]) == LastSegment(v.id, '/')
    ensures AddToCart.LinePart(CartLines(v)[0], true) == LastSegment(v.id, '/') + ":1"
  {
    assert NatToString(1) == "1";
  }



}
