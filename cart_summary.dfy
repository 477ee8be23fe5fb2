/**
 * The cart summary: which sections the drawer and the cart page show, the
 * checkout links, the applied discount codes, the masked gift cards, and the
 * gift-card form's list of codes the shopper has applied.
 */
module CartSummary {
  import opened Wrappers
  import opened Text

  // ---------------------------------------------------------------- layout

  /** isAside: every layout except 'page' is the drawer layout. */
  function IsAside(layout: string): (b: bool)
    ensures b <==> layout != "page"
  {
    layout != "page"
  }

  datatype Section = Discounts | GiftCards | Checkout(aside: bool)

  /** The sections of the summary, in order; gift cards only on the cart page. */
  function Sections(layout: string): (r: seq<Section>)
    ensures Discounts in r
    ensures GiftCards in r <==> layout == "page"
    ensures Checkout(IsAside(layout)) in r && Checkout(!IsAside(layout)) !in r
  {
    if IsAside(layout) then [Discounts, Checkout(true)] else [Discounts, GiftCards, Checkout(false)]
  }

  // ---------------------------------------------------------------- checkout

  datatype Link = Link(href: string, text: string)

  /**
   * CartCheckoutActions: nothing without a checkout URL; in the drawer four
   * links (checkout and three wallets), on the page one; all to the checkout URL.
   */
  function CheckoutLinks(checkoutUrl: string, variant: string): (r: Option<seq<Link>>)
    ensures r.None? <==> checkoutUrl == ""
    ensures r.Some? ==> forall i :: 0 <= i < |r.value| ==> r.value[i].href == checkoutUrl
    ensures r.Some? ==> |r.value| == (if variant == "aside" then 4 else 1)
  {
    if checkoutUrl == "" then None
    else if variant == "aside" then
      Some([Link(checkoutUrl, "Check out"), Link(checkoutUrl, "shop Pay"),
            Link(checkoutUrl, "PayPal"), Link(checkoutUrl, "G Pay")])
    else Some([Link(checkoutUrl, "Continue to Checkout \U{2192}")])
  }

  // ---------------------------------------------------------------- discount codes

  datatype Discount = Discount(code: string, applicable: bool)

  /** The codes of the applicable discounts, in order. */
  function ApplicableCodes(ds: seq<Discount>): (r: seq<string>)
    ensures |r| <= |ds|
  {
    if ds == [] then []
    else (if ds[0].applicable then [ds[0].code] else []) + ApplicableCodes(ds[1..])
  }

  /** The codes shown by CartDiscounts; a missing list shows none. */
  function DiscountCodes(ds: Option<seq<Discount>>): seq<string> {
    if ds.None? then [] else ApplicableCodes(ds.value)
  }

  /** A code is shown exactly when some applicable discount carries it. */
  lemma {:induction false} ApplicableCodesMembers(ds: seq<Discount>, c: string)
    ensures c in ApplicableCodes(ds) <==> exists i :: 0 <= i < |ds| && ds[i].applicable && ds[i].code == c
  {
    if ds != [] {
      ApplicableCodesMembers(ds[1..], c);
      if exists i :: 0 <= i < |ds| && ds[i].applicable && ds[i].code == c {
        var i :| 0 <= i < |ds| && ds[i].applicable && ds[i].code == c;
        if i > 0 {
          assert ds[1..][i - 1] == ds[i];
        }
      }
      if exists i :: 0 <= i < |ds[1..]| && ds[1..][i].applicable && ds[1..][i].code == c {
        var i :| 0 <= i < |ds[1..]| && ds[1..][i].applicable && ds[1..][i].code == c;
        assert ds[i + 1] == ds[1..][i];
      }
    }
  }

  /** The codes keep the order of the discounts: filtering commutes with concatenation. */
  lemma {:induction false} ApplicableCodesAppend(a: seq<Discount>, b: seq<Discount>)
    ensures ApplicableCodes(a + b) == ApplicableCodes(a) + ApplicableCodes(b)
  {
    if a == [] {
      assert a + b == b;
    } else {
      assert (a + b)[0] == a[0];
      assert (a + b)[1..] == a[1..] + b;
      ApplicableCodesAppend(a[1..], b);
    }
  }

  // ---------------------------------------------------------------- gift cards

  datatype AppliedGiftCard = AppliedGiftCard(lastCharacters: string)

  /** Each applied gift card shown as `***` and its last characters, in order. */
  function MaskedCodes(cards: Option<seq<AppliedGiftCard>>): (r: seq<string>)
    ensures cards.None? ==> r == []
    ensures cards.Some? ==> |r| == |cards.value|
    ensures cards.Some? ==> forall i :: 0 <= i < |r| ==>
              |r[i]| >= 3 && r[i][..3] == "***" && r[i][3..] == cards.value[i].lastCharacters
  {
    if cards.None? then []
    else seq(|cards.value|, i requires 0 <= i < |cards.value| => "***" + cards.value[i].lastCharacters)
  }

  /** `code.replace(/\s/g, '')`: every white-space character removed. */
  function StripWhitespace(s: string): (r: string)
    ensures |r| <= |s|
    ensures forall i :: 0 <= i < |r| ==> !IsJsWhitespace(r[i]) && r[i] in s
    ensures (forall i :: 0 <= i < |s| ==> !IsJsWhitespace(s[i])) ==> r == s
  {
    if s == [] then ""
    else
      var rest := StripWhitespace(s[1..]);
      assert forall i :: 1 <= i < |s| ==> s[i] == s[1..][i - 1];
      if IsJsWhitespace(s[0]) then rest else [s[0]] + rest
  }

  predicate NoDuplicates(xs: seq<string>) {
    forall i, j :: 0 <= i < j < |xs| ==> xs[i] != xs[j]
  }

  /**
   * The applied list after saveAppliedCode: the code without white space is
   * appended unless it is already there; the list only ever grows at the end.
   */
  function WithCode(codes: seq<string>, code: string): (r: seq<string>)
    ensures StripWhitespace(code) in r
    ensures forall x :: x in r <==> x in codes || x == StripWhitespace(code)
    ensures |codes| <= |r| <= |codes| + 1 && r[..|codes|] == codes
  {
    var formatted := StripWhitespace(code);
    if formatted in codes then codes else codes + [formatted]
  }

  /** Saving never introduces a duplicate. */
  lemma WithCodeKeepsDistinct(codes: seq<string>, code: string)
    requires NoDuplicates(codes)
    ensures NoDuplicates(WithCode(codes, code))
  {
  }

  /** Saving the same code twice is the same as saving it once. */
  lemma WithCodeIdempotent(codes: seq<string>, code: string)
    ensures WithCode(WithCode(codes, code), code) == WithCode(codes, code)
  {
  }

  /** Stripping a concatenation strips each part. */
  lemma {:induction false} StripWhitespaceAppend(a: string, b: string)
    ensures StripWhitespace(a + b) == StripWhitespace(a) + StripWhitespace(b)
  {
    if a == [] {
      assert a + b == b;
    } else {
      assert (a + b)[0] == a[0] && (a + b)[1..] == a[1..] + b;
      StripWhitespaceAppend(a[1..], b);
    }
  }

  lemma SameStripSameCode(codes: seq<string>, a: string, b: string)
    requires StripWhitespace(a) == StripWhitespace(b)
    ensures WithCode(codes, a) == WithCode(codes, b)
  {
  }

  /** Codes differing only in white space are the same code: a blank anywhere in the code changes nothing. */
  lemma WhitespaceDoesNotMatter(codes: seq<string>, before: string, w: char, after: string)
    requires IsJsWhitespace(w)
    ensures WithCode(codes, before + [w] + after) == WithCode(codes, before + after)
  {
    SameStripSameCode(codes, before + [w] + after, before + after) by {
      StripWhitespaceAppend(before + [w], after);
      StripWhitespaceAppend(before, [w]);
      StripWhitespaceAppend(before, after);
      assert StripWhitespace([w]) == [];
      assert StripWhitespace(before) + [] == StripWhitespace(before);
    }
  }

  /** The Remove button as written: its handler returns `removeAppliedCode` without calling it. */
  function AfterRemovePressedAsWritten(codes: seq<string>): (r: seq<string>)
    ensures r == codes
  {
    codes
  }

  /** The Remove button as intended: the applied list is emptied. */
  function AfterRemovePressed(codes: seq<string>): (r: seq<string>)
    ensures r == []
  {
    []
  }

  /**
   * The gift-card codes the cart action sends on Apply: the typed code, when
   * there is one, followed by the list the form was rendered with.
   */
  function GiftCardRequest(typed: string, applied: seq<string>): (r: seq<string>)
    ensures typed == "" ==> r == applied
    ensures typed != "" ==> |r| == |applied| + 1 && r[0] == typed && r[1..] == applied
  {
    if typed == "" then applied else [typed] + applied
  }

  /**
   * After pressing Remove on card OLD1 and typing NEW2, the Apply request as
   * written is ["NEW2", "OLD1"]: the removed card is sent again. As intended
   * it is ["NEW2"].
   */
  lemma RemoveThenApplySendsOldCode(oldCode: string, newCode: string)
    requires newCode != ""
    ensures GiftCardRequest(newCode, AfterRemovePressedAsWritten([oldCode])) == [newCode, oldCode]
    ensures GiftCardRequest(newCode, AfterRemovePressed([oldCode])) == [newCode]
  {
  }

  /**
   * The form's own applied list after pressing Remove and saving a different
   * card (say OLD1, then NEW2): as written it still holds the old card, and
   * it goes out with every later request; as intended it holds only the new one.
   */
  lemma RemoveThenApplyResendsOldCode(oldCode: string, newCode: string)
    requires StripWhitespace(newCode) != oldCode
    ensures WithCode(AfterRemovePressedAsWritten([oldCode]), newCode) == [oldCode, StripWhitespace(newCode)]
    ensures WithCode(AfterRemovePressed([oldCode]), newCode) == [StripWhitespace(newCode)]
  {
    assert AfterRemovePressedAsWritten([oldCode]) == [oldCode];
  }

  /** The gift-card form's state: the codes applied so far and the text field. */
  class GiftCardForm {
    var appliedCodes: seq<string>
    var inputValue: string

    ghost predicate Valid()
      reads this
    {
      NoDuplicates(appliedCodes)
    }

    constructor()
      ensures Valid() && appliedCodes == [] && inputValue == ""
    {
      appliedCodes := [];
      inputValue := "";
    }

    /** saveAppliedCode: record the code without white space, once, and clear the field. */
    method SaveAppliedCode(code: string)
      requires Valid()
      modifies this
      ensures Valid()
      ensures appliedCodes == WithCode(old(appliedCodes), code) && inputValue == ""
    {
      var formatted := StripWhitespace(code);
      if formatted !in appliedCodes {
        appliedCodes := appliedCodes + [formatted];
      }
      inputValue := "";
    }

    /** removeAppliedCode. */
    method RemoveAppliedCode()
      modifies this
      ensures Valid() && appliedCodes == [] && inputValue == old(inputValue)
    {
      appliedCodes := [];
    }

    /** The form renders with a submitted code: a non-empty code is saved. */
    method OnFormRender(submittedCode: string)
      requires Valid()
      modifies this
      ensures Valid()
      ensures submittedCode == "" ==> appliedCodes == old(appliedCodes) && inputValue == old(inputValue)
      ensures submittedCode != "" ==> appliedCodes == WithCode(old(appliedCodes), submittedCode) && inputValue == ""
    {
      if submittedCode != "" {
        SaveAppliedCode(submittedCode);
      }
    }

    /** The Remove button pressed, as written: nothing changes. */
    method PressRemoveAsWritten()
      modifies this
      ensures appliedCodes == AfterRemovePressedAsWritten(old(appliedCodes)) && inputValue == old(inputValue)
    {
    }

    /** The Remove button pressed, as intended: the applied list is emptied. */
    method PressRemove()
      modifies this
      ensures Valid()
      ensures appliedCodes == AfterRemovePressed(old(appliedCodes)) && inputValue == old(inputValue)
    {
      RemoveAppliedCode();
    }
  }
}
