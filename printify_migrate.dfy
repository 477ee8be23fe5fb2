/**
 * The Shopify-to-Printify migration script: size labels normalised to a
 * canonical "<w>x<h>", Shopify variants joined to Printify catalog variants
 * through a dictionary keyed by that text, the draft-product body built from
 * the matches, the match total and the choice of shop.
 */
module PrintifyMigrate {
  import opened Wrappers
  import opened Text
  import Dict
  import opened PrintifyShops

  // ---------------------------------------------------------------- size labels

  /** A character that `replace(/[^0-9x]/gi, '')` keeps. */
  predicate IsSizeChar(c: char) {
    IsDigit(c) || c == 'x' || c == 'X'
  }

  /** `s.replace(/[^0-9x]/gi, '').toLowerCase()`: the digits and x/X of `s`, in order, with X lower-cased. */
  function StripToSizeChars(s: string): (r: string)
    ensures forall i :: 0 <= i < |r| ==> IsDigit(r[i]) || r[i] == 'x'
    ensures |r| <= |s|
  {
    if s == [] then ""
    else
      var rest := StripToSizeChars(s[1..]);
      if IsDigit(s[0]) || s[0] == 'x' then [s[0]] + rest
      else if s[0] == 'X' then "x" + rest
      else rest
  }

  /** `parts.filter(Boolean)` on strings: the non-empty parts, in order. */
  function NonEmptyParts(xs: seq<string>): (r: seq<string>)
    ensures |r| <= |xs|
    ensures forall k :: 0 <= k < |r| ==> r[k] != "" && r[k] in xs
  {
    if xs == [] then []
    else if xs[0] == "" then NonEmptyParts(xs[1..])
    else [xs[0]] + NonEmptyParts(xs[1..])
  }

  /** The digit groups of a size text: `m.split('x').filter(Boolean)` after stripping. */
  function SizeGroups(s: string): (r: seq<string>)
    ensures forall k :: 0 <= k < |r| ==> r[k] != "" && AllDigits(r[k])
  {
    var m := StripToSizeChars(s);
    var parts := Split(m, 'x');
    assert forall k, j :: 0 <= k < |parts| && 0 <= j < |parts[k]| ==> IsDigit(parts[k][j]);
    NonEmptyParts(parts)
  }

  /** The canonical text "<a>x<b>". */
  function SizeLabel(a: nat, b: nat): string {
    NatToString(a) + "x" + NatToString(b)
  }

  /**
   * `normalizeSizeLabel(s)`: null for an empty or absent text and for a text with
   * fewer than two digit groups; otherwise the first two groups read as numbers
   * (so leading zeros go) and joined by a lower-case x. Later groups are ignored.
   */
  function NormalizeSizeLabel(s: string): (r: Option<string>)
    ensures r.None? <==> s == "" || |SizeGroups(s)| < 2
    ensures r.Some? ==> Split(r.value, 'x') == [NatToString(DigitsValue(SizeGroups(s)[0])),
                                                  NatToString(DigitsValue(SizeGroups(s)[1]))]
  {
    if s == "" then None
    else
      var parts := SizeGroups(s);
      if |parts| >= 2 then
        var a, b := DigitsValue(parts[0]), DigitsValue(parts[1]);
        SplitJoin([NatToString(a), NatToString(b)], 'x');
        Some(SizeLabel(a, b))
      else None
  }

  /** Stripping leaves a text made only of digits and lower-case x unchanged. */
  lemma {:induction false} StripKeepsSizeText(s: string)
    requires forall i :: 0 <= i < |s| ==> IsDigit(s[i]) || s[i] == 'x'
    ensures StripToSizeChars(s) == s
  {
    if s != [] {
      StripKeepsSizeText(s[1..]);
      assert [s[0]] + s[1..] == s;
    }
  }

  /** Only the digits and x/X of a text matter: normalising its stripped form gives the same text. */
  lemma NormalizeSeesOnlySizeChars(s: string)
    ensures NormalizeSizeLabel(s) == NormalizeSizeLabel(StripToSizeChars(s))
  {
    var m := StripToSizeChars(s);
    StripKeepsSizeText(m);
    if s != "" && m == "" {
      assert Split(m, 'x') == [""];
      assert NonEmptyParts([""]) == [];
    }
  }

  /** A normalised text is a fixed point: normalising it again returns it unchanged. */
  lemma NormalizeIdempotent(s: string)
    requires NormalizeSizeLabel(s).Some?
    ensures NormalizeSizeLabel(NormalizeSizeLabel(s).value) == NormalizeSizeLabel(s)
  {
    var parts := SizeGroups(s);
    var a, b := DigitsValue(parts[0]), DigitsValue(parts[1]);
    var sa, sb := NatToString(a), NatToString(b);
    var text := SizeLabel(a, b);
    assert NormalizeSizeLabel(s) == Some(text);
    assert forall i :: 0 <= i < |text| ==> IsDigit(text[i]) || text[i] == 'x' by {
      forall i | 0 <= i < |text| ensures IsDigit(text[i]) || text[i] == 'x' {
        if i < |sa| { assert text[i] == sa[i]; }
        else if i > |sa| { assert text[i] == sb[i - |sa| - 1]; }
      }
    }
    StripKeepsSizeText(text);
    assert Join([sa, sb], 'x') == text;
    SplitJoin([sa, sb], 'x');
    assert NonEmptyParts([sa, sb]) == [sa, sb] by {
      assert sa != "" && sb != "";
      assert NonEmptyParts([sa, sb][1..]) == [sb] by {
        assert [sa, sb][1..] == [sb];
        assert [sb][1..] == [];
      }
    }
    assert SizeGroups(text) == [sa, sb];
    DigitsValueOfNatToString(a);
    DigitsValueOfNatToString(b);
  }

  /** Filtering non-empty parts keeps a list with no empty part as it is. */
  lemma {:induction false} NonEmptyPartsKeeps(xs: seq<string>)
    requires forall k :: 0 <= k < |xs| ==> xs[k] != ""
    ensures NonEmptyParts(xs) == xs
  {
    if xs != [] {
      NonEmptyPartsKeeps(xs[1..]);
      assert [xs[0]] + xs[1..] == xs;
    }
  }

  /** A text whose stripped form is a join of digit groups normalises to its first two groups. */
  lemma NormalizeOfGroups(s: string, gs: seq<string>)
    requires s != "" && |gs| >= 2 && StripToSizeChars(s) == Join(gs, 'x')
    requires forall k :: 0 <= k < |gs| ==> gs[k] != "" && AllDigits(gs[k])
    ensures NormalizeSizeLabel(s) == Some(SizeLabel(DigitsValue(gs[0]), DigitsValue(gs[1])))
  {
    forall k | 0 <= k < |gs| ensures 'x' !in gs[k] {
      assert forall j :: 0 <= j < |gs[k]| ==> IsDigit(gs[k][j]);
    }
    SplitJoin(gs, 'x');
    NonEmptyPartsKeeps(gs);
  }

  /** Stripping a concatenation strips each part. */
  lemma {:induction false} StripAppend(a: string, b: string)
    ensures StripToSizeChars(a + b) == StripToSizeChars(a) + StripToSizeChars(b)
  {
    if a == [] {
      assert a + b == b;
    } else {
      assert (a + b)[0] == a[0] && (a + b)[1..] == a[1..] + b;
      StripAppend(a[1..], b);
    }
  }

  /** A rendered number survives stripping unchanged. */
  lemma StripNumber(n: nat)
    ensures StripToSizeChars(NatToString(n)) == NatToString(n)
  {
    var t := NatToString(n);
    assert forall i :: 0 <= i < |t| ==> IsDigit(t[i]);
    StripKeepsSizeText(t);
  }

  /** A text that strips to "<a>x<b>" for rendered numbers normalises to that label. */
  lemma NormalizeOfNumbers(s: string, a: nat, b: nat)
    requires s != "" && StripToSizeChars(s) == NatToString(a) + "x" + NatToString(b)
    ensures NormalizeSizeLabel(s) == Some(SizeLabel(a, b))
  {
    var sa, sb := NatToString(a), NatToString(b);
    assert Join([sa, sb], 'x') == sa + "x" + sb;
    NormalizeOfGroups(s, [sa, sb]);
    DigitsValueOfNatToString(a);
    DigitsValueOfNatToString(b);
  }

  /** Quotes and spaces vanish: `12" x 16"` gives "12x16", and so for every pair of numbers. */
  lemma NormalizeIgnoresQuotes(a: nat, b: nat)
    ensures NormalizeSizeLabel(NatToString(a) + "\" x " + NatToString(b) + "\"") == Some(SizeLabel(a, b))
  {
    var sa, sb := NatToString(a), NatToString(b);
    var s := sa + "\" x " + sb + "\"";
    assert StripToSizeChars("\" x ") == "x" by {
      assert "\" x "[1..] == " x ";
      assert " x "[1..] == "x ";
      assert "x "[1..] == " ";
      assert " "[1..] == "";
    }
    assert StripToSizeChars("\"") == "" by {
      assert "\""[1..] == "";
    }
    StripAppend(sa + "\" x " + sb, "\"");
    StripAppend(sa + "\" x ", sb);
    StripAppend(sa, "\" x ");
    StripNumber(a);
    StripNumber(b);
    NormalizeOfNumbers(s, a, b);
  }

  /** An upper-case X separates like a lower-case one: `12X16` gives "12x16". */
  lemma NormalizeIgnoresCase(a: nat, b: nat)
    ensures NormalizeSizeLabel(NatToString(a) + "X" + NatToString(b)) == Some(SizeLabel(a, b))
  {
    var sa, sb := NatToString(a), NatToString(b);
    assert StripToSizeChars("X") == "x" by {
      assert "X"[1..] == "";
    }
    StripAppend(sa + "X", sb);
    StripAppend(sa, "X");
    StripNumber(a);
    StripNumber(b);
    NormalizeOfNumbers(sa + "X" + sb, a, b);
  }

  /** A leading zero adds nothing to a group's value. */
  lemma {:induction false} DigitsValueLeadingZero(t: string)
    requires AllDigits(t)
    ensures AllDigits("0" + t) && DigitsValue("0" + t) == DigitsValue(t)
  {
    var z := "0" + t;
    assert forall i :: 0 <= i < |z| ==> IsDigit(z[i]) by {
      forall i | 0 <= i < |z| ensures IsDigit(z[i]) {
        if i > 0 { assert z[i] == t[i - 1]; }
      }
    }
    if t == [] {
      assert z == "0";
    } else {
      var init := t[..|t| - 1];
      assert z[..|z| - 1] == "0" + init;
      assert z[|z| - 1] == t[|t| - 1];
      DigitsValueLeadingZero(init);
    }
  }

  /** A zero in front of a label survives stripping unchanged. */
  lemma StripZeroLabel(a: nat, b: nat)
    ensures StripToSizeChars("0" + SizeLabel(a, b)) == "0" + SizeLabel(a, b)
  {
    StripAppend("0", SizeLabel(a, b));
    assert StripToSizeChars("0") == "0" by { assert "0"[1..] == ""; }
    StripLabel(a, b);
  }

  /** `parseInt` drops leading zeros: `012x16` gives "12x16". */
  lemma NormalizeDropsLeadingZeros(a: nat, b: nat)
    ensures NormalizeSizeLabel("0" + SizeLabel(a, b)) == Some(SizeLabel(a, b))
  {
    var sa, sb := NatToString(a), NatToString(b);
    var s := "0" + SizeLabel(a, b);
    StripZeroLabel(a, b);
    assert Join(["0" + sa, sb], 'x') == s;
    DigitsValueLeadingZero(sa);
    DigitsValueOfNatToString(a);
    DigitsValueOfNatToString(b);
    NormalizeOfGroups(s, ["0" + sa, sb]);
  }

  /** A label survives stripping unchanged. */
  lemma StripLabel(a: nat, b: nat)
    ensures StripToSizeChars(SizeLabel(a, b)) == SizeLabel(a, b)
  {
    var sa, sb := NatToString(a), NatToString(b);
    assert StripToSizeChars("x") == "x" by { assert "x"[1..] == ""; }
    StripAppend(sa + "x", sb);
    StripAppend(sa, "x");
    StripNumber(a);
    StripNumber(b);
  }

  lemma JoinThree(x: string, y: string, z: string)
    ensures Join([x, y, z], 'x') == x + "x" + y + "x" + z
  {
    assert [x, y, z][1..] == [y, z];
    assert Join([y, z], 'x') == y + "x" + z;
  }

  /** A label followed by a third group survives stripping unchanged. */
  lemma StripLabelAndGroup(a: nat, b: nat, c: nat)
    ensures StripToSizeChars(SizeLabel(a, b) + "x" + NatToString(c)) == SizeLabel(a, b) + "x" + NatToString(c)
  {
    var t := SizeLabel(a, b);
    assert StripToSizeChars("x") == "x" by { assert "x"[1..] == ""; }
    StripAppend(t + "x", NatToString(c));
    StripAppend(t, "x");
    StripLabel(a, b);
    StripNumber(c);
  }

  /** Groups after the second are ignored: `12x16x20` gives "12x16". */
  lemma NormalizeIgnoresThirdGroup(a: nat, b: nat, c: nat)
    ensures NormalizeSizeLabel(SizeLabel(a, b) + "x" + NatToString(c)) == Some(SizeLabel(a, b))
  {
    var sa, sb, sc := NatToString(a), NatToString(b), NatToString(c);
    var s := SizeLabel(a, b) + "x" + sc;
    var gs := [sa, sb, sc];
    StripLabelAndGroup(a, b, c);
    JoinThree(sa, sb, sc);
    forall k | 0 <= k < |gs| ensures gs[k] != "" && AllDigits(gs[k]) {
      var n := if k == 0 then a else if k == 1 then b else c;
      assert gs[k] == NatToString(n);
    }
    NormalizeOfGroups(s, gs);
    DigitsValueOfNatToString(a);
    DigitsValueOfNatToString(b);
  }

  /** A single group is not a size: neither "16" nor "x16" has a second group. */
  lemma NormalizeNeedsTwoGroups(b: nat)
    ensures NormalizeSizeLabel(NatToString(b)) == None
    ensures NormalizeSizeLabel("x" + NatToString(b)) == None
  {
    var sb := NatToString(b);
    assert 'x' !in sb by { assert forall i :: 0 <= i < |sb| ==> IsDigit(sb[i]); }
    StripNumber(b);
    SplitJoin([sb], 'x');
    NonEmptyPartsKeeps([sb]);
    assert SizeGroups(sb) == [sb];
    StripAppend("x", sb);
    assert StripToSizeChars("x") == "x" by { assert "x"[1..] == ""; }
    SplitJoin(["", sb], 'x');
    assert Join(["", sb], 'x') == "x" + sb;
    assert NonEmptyParts(["", sb]) == [sb] by {
      assert ["", sb][1..] == [sb];
    }
    assert SizeGroups("x" + sb) == [sb];
  }

  // ---------------------------------------------------------------- variant matching

  /** A Printify catalog variant; `title`, `name` and `size` are "" when absent. */
  datatype PrintifyVariantSpec = PrintifyVariantSpec(id: int, title: string, name: string, size: string)

  /** One `selectedOptions` entry of a Shopify variant. */
  datatype SelectedOption = SelectedOption(name: string, value: string)

  /** A Shopify variant; an absent `selectedOptions` is the empty list, an absent title "". */
  datatype ShopifyVariant = ShopifyVariant(id: string, title: string, selectedOptions: seq<SelectedOption>)

  datatype ShopifyProduct = ShopifyProduct(id: string, handle: string, title: string, variants: seq<ShopifyVariant>)

  /** `{shopifyVariantId, shopifySize, printifyVariantId}`; None stands for null. */
  datatype VariantMatch = VariantMatch(shopifyVariantId: string, shopifySize: string, printifyVariantId: Option<int>)

  /** `{product, mapped}`: the matches of one Shopify product, one per variant. */
  datatype ProductMatches = ProductMatches(product: ShopifyProduct, mapped: seq<VariantMatch>)

  /** `v.title || v.name || v.size`. */
  function SpecLabelSource(v: PrintifyVariantSpec): string {
    if v.title != "" then v.title else if v.name != "" then v.name else v.size
  }

  function SpecLabel(v: PrintifyVariantSpec): Option<string> {
    NormalizeSizeLabel(SpecLabelSource(v))
  }

  function SpecId(v: PrintifyVariantSpec): int {
    v.id
  }

  /** The dictionary from normalised label to Printify variant id that the first loop of `mapVariantsBySize` fills. */
  function SizeDictionary(specs: seq<PrintifyVariantSpec>): map<string, int> {
    Dict.Fill(specs, SpecLabel, SpecId)
  }

  /** `/size/i.test(o.name)`: the option's name contains "size" in any letter case. */
  predicate NamesSize(o: SelectedOption) {
    Contains(Lower(o.name), "size")
  }

  /** `selectedOptions.find((o) => /size/i.test(o.name))`. */
  function SizeOption(opts: seq<SelectedOption>): (r: Option<SelectedOption>)
    ensures r.None? <==> forall i :: 0 <= i < |opts| ==> !NamesSize(opts[i])
    ensures r.Some? ==> exists i :: 0 <= i < |opts| && opts[i] == r.value && NamesSize(opts[i])
                                    && forall j :: 0 <= j < i ==> !NamesSize(opts[j])
  {
    if opts == [] then None
    else if NamesSize(opts[0]) then Some(opts[0])
    else
      var r := SizeOption(opts[1..]);
      assert r.Some? ==> exists i :: 0 <= i < |opts| && opts[i] == r.value && NamesSize(opts[i])
                                     && forall j :: 0 <= j < i ==> !NamesSize(opts[j]) by {
        if r.Some? {
          var i :| 0 <= i < |opts[1..]| && opts[1..][i] == r.value && NamesSize(opts[1..][i])
                   && forall j :: 0 <= j < i ==> !NamesSize(opts[1..][j]);
          assert forall j :: 0 <= j < i + 1 ==> !NamesSize(opts[j]) by {
            forall j | 0 <= j < i + 1 ensures !NamesSize(opts[j]) {
              if j > 0 { assert opts[j] == opts[1..][j - 1]; }
            }
          }
        }
      }
      r
  }

  /** `v.selectedOptions?.find(...)?.value || v.title`: the size text of a Shopify variant. */
  function SizeSource(v: ShopifyVariant): string {
    match SizeOption(v.selectedOptions)
    case Some(o) => if o.value != "" then o.value else v.title
    case None => v.title
  }

  /**
   * The entry `mapVariantsBySize` pushes for one Shopify variant: the dictionary hit
   * for its normalised size, where a missing label, a miss and a falsy id 0 all give null.
   */
  function MatchVariant(v: ShopifyVariant, dict: map<string, int>): (m: VariantMatch)
    ensures m.shopifyVariantId == v.id && m.shopifySize == SizeSource(v)
    ensures NormalizeSizeLabel(SizeSource(v)).None? ==> m.printifyVariantId.None?
    ensures m.printifyVariantId.Some? <==>
              var key := NormalizeSizeLabel(SizeSource(v));
              key.Some? && key.value in dict && dict[key.value] != 0
    ensures m.printifyVariantId.Some? ==> m.printifyVariantId.value in dict.Values
  {
    var key := NormalizeSizeLabel(SizeSource(v));
    var matchId := if key.Some? && key.value in dict then dict[key.value] else 0;
    VariantMatch(v.id, SizeSource(v), if matchId != 0 then Some(matchId) else None)
  }

  /**
   * A Shopify variant is matched to Printify variant `id` exactly when `id` is
   * non-zero and belongs to the last Printify variant whose label is the Shopify
   * variant's normalised size: skipped labels never match, later labels overwrite.
   */
  lemma MatchIsLastSpecWithLabel(v: ShopifyVariant, specs: seq<PrintifyVariantSpec>, id: int)
    ensures MatchVariant(v, SizeDictionary(specs)).printifyVariantId == Some(id) <==>
              var key := NormalizeSizeLabel(SizeSource(v));
              key.Some? && id != 0 &&
              exists i :: 0 <= i < |specs| && SpecLabel(specs[i]) == key && specs[i].id == id
                          && forall j :: i < j < |specs| ==> SpecLabel(specs[j]) != key
  {
    var key := NormalizeSizeLabel(SizeSource(v));
    var dict := SizeDictionary(specs);
    if key.Some? && key.value in dict {
      Dict.FillValue(specs, SpecLabel, SpecId, key.value);
    }
    if key.Some? && id != 0 && exists i :: 0 <= i < |specs| && SpecLabel(specs[i]) == key && specs[i].id == id
                                           && forall j :: i < j < |specs| ==> SpecLabel(specs[j]) != key {
      var i :| 0 <= i < |specs| && SpecLabel(specs[i]) == key && specs[i].id == id
               && forall j :: i < j < |specs| ==> SpecLabel(specs[j]) != key;
      Dict.FillLastWins(specs, SpecLabel, SpecId, i);
    }
  }

  /** The first loop of `mapVariantsBySize`: `dict.set(label, v.id)` for every labelled Printify variant. */
  method BuildSizeDictionary(specs: seq<PrintifyVariantSpec>) returns (dict: map<string, int>)
    ensures dict == SizeDictionary(specs)
  {
    dict := map[];
    for i := 0 to |specs|
      invariant dict == SizeDictionary(specs[..i])
    {
      assert specs[..i + 1][..i] == specs[..i];
      var key := NormalizeSizeLabel(SpecLabelSource(specs[i]));
      if key.Some? {
        dict := dict[key.value := specs[i].id];
      }
    }
    assert specs[..|specs|] == specs;
  }

  /** The inner loop of `mapVariantsBySize`: one match per variant, in variant order. */
  method MatchVariants(variants: seq<ShopifyVariant>, dict: map<string, int>) returns (mapped: seq<VariantMatch>)
    ensures |mapped| == |variants|
    ensures forall k :: 0 <= k < |variants| ==> mapped[k] == MatchVariant(variants[k], dict)
  {
    mapped := [];
    for j := 0 to |variants|
      invariant |mapped| == j
      invariant forall k :: 0 <= k < j ==> mapped[k] == MatchVariant(variants[k], dict)
    {
      mapped := mapped + [MatchVariant(variants[j], dict)];
    }
  }

  /** One product's entry has its product and one match per variant, in order. */
  ghost predicate MatchesProduct(r: ProductMatches, p: ShopifyProduct, dict: map<string, int>) {
    && r.product == p
    && |r.mapped| == |p.variants|
    && forall j :: 0 <= j < |r.mapped| ==> r.mapped[j] == MatchVariant(p.variants[j], dict)
  }

  /**
   * `mapVariantsBySize`: fills the size dictionary from the Printify variants, then
   * emits one entry per Shopify product, in order, whose `mapped` list has one
   * match per variant, in order.
   */
  method MapVariantsBySize(shopifyProducts: seq<ShopifyProduct>, specs: seq<PrintifyVariantSpec>)
    returns (results: seq<ProductMatches>)
    ensures |results| == |shopifyProducts|
    ensures forall i :: 0 <= i < |results| ==> MatchesProduct(results[i], shopifyProducts[i], SizeDictionary(specs))
  {
    var dict := BuildSizeDictionary(specs);
    results := [];
    for i := 0 to |shopifyProducts|
      invariant |results| == i
      invariant forall k :: 0 <= k < i ==> MatchesProduct(results[k], shopifyProducts[k], dict)
    {
      var mapped := MatchVariants(shopifyProducts[i].variants, dict);
      results := results + [ProductMatches(shopifyProducts[i], mapped)];
    }
  }

  // ---------------------------------------------------------------- draft product body

  /** A match the `filter((m) => m.printifyVariantId)` keeps: a non-null, non-zero id. */
  predicate IsMatched(m: VariantMatch) {
    m.printifyVariantId.Some? && m.printifyVariantId.value != 0
  }

  /** `mapping.filter((m) => m.printifyVariantId).map((m) => m.printifyVariantId)`. */
  function MatchedIds(mapping: seq<VariantMatch>): (r: seq<int>)
    ensures |r| <= |mapping|
  {
    if mapping == [] then []
    else (if IsMatched(mapping[0]) then [mapping[0].printifyVariantId.value] else []) + MatchedIds(mapping[1..])
  }

  /** Matched ids keep the mapping's order: the ids of a concatenation are the concatenated ids. */
  lemma {:induction false} MatchedIdsAppend(a: seq<VariantMatch>, b: seq<VariantMatch>)
    ensures MatchedIds(a + b) == MatchedIds(a) + MatchedIds(b)
  {
    if a == [] {
      assert a + b == b;
    } else {
      var head := if IsMatched(a[0]) then [a[0].printifyVariantId.value] else [];
      assert (a + b)[0] == a[0];
      assert (a + b)[1..] == a[1..] + b;
      assert MatchedIds(a + b) == head + MatchedIds(a[1..] + b);
      MatchedIdsAppend(a[1..], b);
      assert MatchedIds(a) == head + MatchedIds(a[1..]);
      assert head + (MatchedIds(a[1..]) + MatchedIds(b)) == (head + MatchedIds(a[1..])) + MatchedIds(b);
    }
  }

  /** An id is among the matched ids exactly when some entry of the mapping carries it and is kept. */
  lemma {:induction false} MatchedIdsMembers(mapping: seq<VariantMatch>, id: int)
    ensures id in MatchedIds(mapping) <==>
              exists i :: 0 <= i < |mapping| && IsMatched(mapping[i]) && mapping[i].printifyVariantId.value == id
  {
    if mapping != [] {
      MatchedIdsMembers(mapping[1..], id);
      if exists i :: 0 <= i < |mapping| && IsMatched(mapping[i]) && mapping[i].printifyVariantId.value == id {
        var i :| 0 <= i < |mapping| && IsMatched(mapping[i]) && mapping[i].printifyVariantId.value == id;
        if i > 0 { assert mapping[1..][i - 1] == mapping[i]; }
      }
    }
  }

  datatype ImagePlacement = ImagePlacement(id: string, x: int, y: int, scale: int, angle: int)
  datatype Placeholder = Placeholder(position: string, images: seq<ImagePlacement>)
  datatype PrintArea = PrintArea(variantIds: seq<int>, placeholders: seq<Placeholder>)
  datatype BodyVariant = BodyVariant(id: int, price: int, isEnabled: bool)

  /** The JSON body `createPrintifyProduct` posts to `/shops/<shop>/products.json`. */
  datatype ProductBody = ProductBody(title: string, description: string, blueprintId: int, printProviderId: int,
                                     variants: seq<BodyVariant>, printAreas: seq<PrintArea>)

  /**
   * The body built in `createPrintifyProduct`: one enabled, zero-priced variant
   * per matched id and a single front print area over exactly the same ids, in
   * mapping order, holding the uploaded image unscaled at the origin.
   */
  function CreateProductBody(title: string, description: string, blueprintId: int, providerId: int,
                             mapping: seq<VariantMatch>, imageId: string): (b: ProductBody)
    ensures b.title == title && b.description == description
    ensures b.blueprintId == blueprintId && b.printProviderId == providerId
    ensures |b.variants| == |MatchedIds(mapping)|
    ensures forall i :: 0 <= i < |b.variants| ==>
              b.variants[i].id == MatchedIds(mapping)[i] && b.variants[i].price == 0 && b.variants[i].isEnabled
    ensures |b.printAreas| == 1 && b.printAreas[0].variantIds == MatchedIds(mapping)
    ensures b.printAreas[0].placeholders == [Placeholder("front", [ImagePlacement(imageId, 0, 0, 1, 0)])]
  {
    var variantIds := MatchedIds(mapping);
    var variants := seq(|variantIds|, i requires 0 <= i < |variantIds| => BodyVariant(variantIds[i], 0, true));
    ProductBody(title, description, blueprintId, providerId, variants,
                [PrintArea(variantIds, [Placeholder("front", [ImagePlacement(imageId, 0, 0, 1, 0)])])])
  }

  // ---------------------------------------------------------------- main: match total and shop choice

  /** The number of variant matches over all products, summed as `main` reports it. */
  function MatchCount(ms: seq<ProductMatches>): nat {
    if ms == [] then 0 else MatchCount(ms[..|ms| - 1]) + |MatchedIds(ms[|ms| - 1].mapped)|
  }

  /** The number of Shopify variants over all products. */
  function VariantCount(ms: seq<ProductMatches>): nat {
    if ms == [] then 0 else VariantCount(ms[..|ms| - 1]) + |ms[|ms| - 1].mapped|
  }

  /** There are never more matches than variants. */
  lemma {:induction false} MatchCountBounded(ms: seq<ProductMatches>)
    ensures MatchCount(ms) <= VariantCount(ms)
  {
    if ms != [] {
      MatchCountBounded(ms[..|ms| - 1]);
    }
  }

  /** The `totalMappable` loop of `main`. */
  method TotalMappable(ms: seq<ProductMatches>) returns (total: nat)
    ensures total == MatchCount(ms)
  {
    total := 0;
    for i := 0 to |ms|
      invariant total == MatchCount(ms[..i])
    {
      assert ms[..i + 1][..i] == ms[..i];
      var ok := |MatchedIds(ms[i].mapped)|;
      total := total + ok;
    }
    assert ms[..|ms|] == ms;
  }

  /** The shop the migration uses: the configured id, or the only listed shop's id. */
  datatype ShopRef = Configured(name: string) | Listed(id: nat)

  /**
   * `PRINTIFY_SHOP_ID || (shops?.length === 1 ? shops[0].id : null)` followed by the
   * `if (!shopId)` stop: a configured id wins; otherwise a shop is picked only when
   * exactly one is listed and its id is not the falsy 0; `None` means the script stops.
   */
  function ChooseShop(configured: string, shops: Option<seq<Shop>>): (r: Option<ShopRef>)
    ensures configured != "" ==> r == Some(Configured(configured))
    ensures configured == "" ==>
              (r.Some? <==> shops.Some? && |shops.value| == 1 && shops.value[0].id != 0)
    ensures r.Some? && r.value.Listed? ==> shops.Some? && r.value.id == shops.value[0].id
  {
    if configured != "" then Some(Configured(configured))
    else if shops.Some? && |shops.value| == 1 && shops.value[0].id != 0 then Some(Listed(shops.value[0].id))
    else None
  }
}
