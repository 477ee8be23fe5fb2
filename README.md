# ikari storefront core, modelled in Dafny

ikari is a Shopify Hydrogen storefront for canvas prints, with Printify as the
print-on-demand supplier. This project models the parts of it that decide
things, and proves what they promise:

- **Maintenance scripts.**
  - `printify-migrate.js` normalises size labels, matches Shopify variants to
    Printify catalog variants by size, builds the draft-product body, totals
    the matches and picks the shop.
  - `sync-from-printify.mjs` prices each matched Shopify variant from its
    Printify cost: the cost is clamped and given a .99 ending. It also fills in
    blank descriptions, escaped as HTML.
  - `sync-orientation-pricing.mjs` prices every product by the shape of its
    first image.
  - Both pricing scripts share one rule for when a price is off.
- **Cart front end.**
  - The add-to-cart button: the `/cart/<id>:<qty>,…` permalink, its
    completion effect (open the cart drawer once, or fall back to the
    permalink) and its label.
  - The cart revalidator.
  - The cart summary: sections, checkout links, discount codes, masked gift
    cards and the gift-card form's applied-code list.
  - The product carousel.
  - The product quick view: the lazy load, size selection, ID stat, cart
    attributes and cart line.
- **Server state.**
  - The session wrapper's dirty flag.
  - The request context: the `SESSION_SECRET` guard, and the cart whose id is
    also kept in the session.

Values are modelled as follows:

- Money is integer cents.
- Absent strings are `""`, and absent values are `Option`.
- Network calls become parameters. Each script takes its lookups as functions,
  and whether Shopify accepts an update as a predicate `accepts`.
- Component state cells and the session become classes whose fields the
  methods update.
- JavaScript's `toLowerCase` is modelled as ASCII folding (`Text.Lower`). This
  is exact for every comparison in the code: each compares against the ASCII
  words `true` or `size`, and no non-ASCII letter lower-cases into those words
  alone.

## Model

| member | source | states |
|---|---|---|
| PrintifyMigrate.StripToSizeChars | scripts/printify-migrate.js:99 | only digits and lower-case `x` remain, never more characters than the input |
| PrintifyMigrate.SizeGroups | scripts/printify-migrate.js:99-100 | the groups after splitting on `x` and dropping empties are non-empty runs of digits |
| PrintifyMigrate.NormalizeSizeLabel | scripts/printify-migrate.js:96-103 | null exactly for an empty text or fewer than two digit groups; otherwise the result splits on `x` into the first two groups read as numbers |
| PrintifyMigrate.NormalizeSeesOnlySizeChars | scripts/printify-migrate.js:99 | only the digits and x/X of a label matter |
| PrintifyMigrate.NormalizeIdempotent | scripts/printify-migrate.js:99-101 | normalising a normalised label returns it unchanged |
| PrintifyMigrate.NormalizeOfGroups | scripts/printify-migrate.js:99-101 | a text whose stripped form is digit groups joined by `x` gives `<a>x<b>` from its first two groups |
| PrintifyMigrate.NormalizeOfNumbers | scripts/printify-migrate.js:99-101 | a text whose stripped form is `<a>x<b>` for numbers a and b gives `<a>x<b>` |
| PrintifyMigrate.StripAppend | scripts/printify-migrate.js:99 | stripping a concatenation strips each part |
| PrintifyMigrate.NormalizeIgnoresQuotes | scripts/printify-migrate.js:98-101 | for all numbers a and b, `<a>" x <b>"` gives `<a>x<b>` (so `12" x 16"` gives `12x16`) |
| PrintifyMigrate.NormalizeIgnoresCase | scripts/printify-migrate.js:99 | for all numbers a and b, `<a>X<b>` gives `<a>x<b>` |
| PrintifyMigrate.NormalizeDropsLeadingZeros | scripts/printify-migrate.js:101 | `parseInt` drops leading zeros: for all numbers a and b, `0<a>x<b>` gives `<a>x<b>` |
| PrintifyMigrate.NormalizeIgnoresThirdGroup | scripts/printify-migrate.js:101 | a third group is ignored: `<a>x<b>x<c>` gives `<a>x<b>` |
| PrintifyMigrate.NormalizeNeedsTwoGroups | scripts/printify-migrate.js:101-102 | one group, with or without a leading `x`, is not a size (null) |
| PrintifyMigrate.SizeOption | scripts/printify-migrate.js:115 | the first selected option whose name contains "size" in any case, none iff there is none |
| PrintifyMigrate.MatchVariant | scripts/printify-migrate.js:115-118 | the entry keeps the variant id and size text; null without a label; otherwise the dictionary's id for the label when that id is non-zero |
| PrintifyMigrate.MatchIsLastSpecWithLabel | scripts/printify-migrate.js:107-118 | a variant matches id `i` iff `i` is non-zero and belongs to the last Printify variant whose label equals the variant's normalised size |
| PrintifyMigrate.BuildSizeDictionary | scripts/printify-migrate.js:107-111 | the loop builds exactly the label dictionary: unlabelled variants skipped, later labels overwrite |
| PrintifyMigrate.MatchVariants | scripts/printify-migrate.js:114-119 | one entry per Shopify variant, in order, each the variant's match |
| PrintifyMigrate.MapVariantsBySize | scripts/printify-migrate.js:105-124 | one result per product, in order, each with its product and its per-variant matches |
| PrintifyMigrate.MatchedIds | scripts/printify-migrate.js:197 | no more ids than mapping entries |
| PrintifyMigrate.MatchedIdsAppend | scripts/printify-migrate.js:197 | the kept ids follow the mapping's order |
| PrintifyMigrate.MatchedIdsMembers | scripts/printify-migrate.js:197 | an id is kept iff some entry carries it as a non-zero id |
| PrintifyMigrate.CreateProductBody | scripts/printify-migrate.js:196-226 | one enabled zero-price variant per matched id; one front print area over the same ids, holding the image at the origin unscaled; title, description, blueprint and provider passed through |
| PrintifyMigrate.MatchCountBounded | scripts/printify-migrate.js:307-311 | the match total never exceeds the variant total |
| PrintifyMigrate.TotalMappable | scripts/printify-migrate.js:307-313 | the loop sums each product's matched entries |
| PrintifyMigrate.ChooseShop | scripts/printify-migrate.js:283-288 | a configured id wins; otherwise a shop only when exactly one is listed and its id is not 0; none means the script stops |
| PriceRule.NeedsUpdate | scripts/sync-from-printify.mjs:189-190 | an update iff the current price is missing or zero, or at least 50 cents away from the target; a non-zero price equal to the target is left alone |
| SyncFromPrintify.ApplyMode | scripts/sync-from-printify.mjs:25 | applies iff SYNC_APPLY is the four letters of `true`, each in either case, and DRY_RUN is empty; a set DRY_RUN always means a dry run |
| SyncFromPrintify.Clamp | scripts/sync-from-printify.mjs:69 | with ordered bounds: the value itself inside them, the lower bound below, the upper bound above; the lower bound when they cross |
| SyncFromPrintify.NiceEnding | scripts/sync-from-printify.mjs:71 | the result ends in 99 cents and lies in the same dollar as the input |
| SyncFromPrintify.ComputePriceCents | scripts/sync-from-printify.mjs:66-73 | ends in 99 cents, within one dollar above the clamped cost, and between the .99 endings of PRICE_MIN and PRICE_MAX |
| SyncFromPrintify.ComputePriceMonotone | scripts/sync-from-printify.mjs:69-71 | a higher cost never gives a lower price |
| SyncFromPrintify.ComputePriceFixedPoint | scripts/sync-from-printify.mjs:69-71 | a price already ending in 99 within the bounds is its own price |
| SyncFromPrintify.DefaultPriceRange | scripts/sync-from-printify.mjs:31-32 | with the default bounds every price is between 39.99 and 199.99 |
| SyncFromPrintify.EscapeHtml | scripts/sync-from-printify.mjs:153-155 | no `<` or `>` remain; text without `&`, `<`, `>` is unchanged |
| SyncFromPrintify.UnescapeEscape | scripts/sync-from-printify.mjs:153-155 | unescaping the escaped text gives the text back |
| SyncFromPrintify.DescriptionText | scripts/sync-from-printify.mjs:146-149 | the description when non-empty, else the title when non-empty, else "Artwork" |
| SyncFromPrintify.DescriptionRoundTrip | scripts/sync-from-printify.mjs:145-151 | the first paragraph of the built description unescapes to the description text |
| SyncFromPrintify.SecondOfParagraphs | scripts/sync-from-printify.mjs:149 | for any two texts without `<`, the second paragraph of `<p>a</p><p>b</p>` is b unescaped |
| SyncFromPrintify.DescriptionBlurb | scripts/sync-from-printify.mjs:148-149 | the second paragraph of the built description unescapes to the canvas blurb |
| SyncFromPrintify.FindShopId | scripts/sync-from-printify.mjs:75-81 | the configured id wins; otherwise the first listed shop's id; the error "No Printify shops found" iff neither exists |
| SyncFromPrintify.FindShopIdReadsBack | scripts/sync-from-printify.mjs:80 | the listed shop's id is returned as its decimal text |
| SyncFromPrintify.FindShopifyProduct | scripts/sync-from-printify.mjs:166-174 | the lookup by the first variant's SKU wins; the handle is tried only when that finds nothing |
| SyncFromPrintify.PriceUpdatesSound | scripts/sync-from-printify.mjs:183-190 | every price update is for a Shopify variant whose SKU is on the Printify product; its target comes from the last Printify variant with that SKU, and the price is off |
| SyncFromPrintify.PriceUpdatesComplete | scripts/sync-from-printify.mjs:185-190 | every Shopify variant with a matching SKU and an off price gets an update |
| SyncFromPrintify.SettledPricesNeedNoUpdates | scripts/sync-from-printify.mjs:189-190 | variants already at their non-zero target get no update |
| SyncFromPrintify.PriceUpdates | scripts/sync-from-printify.mjs:185-190 | at most one price update per Shopify variant |
| SyncFromPrintify.UpdatedAppend | scripts/sync-from-printify.mjs:193 | the updated count adds up over consecutive runs |
| SyncFromPrintify.BuildSkuIndex | scripts/sync-from-printify.mjs:183-184 | the loop builds the SKU map, where a later variant with the same SKU overwrites an earlier one |
| SyncFromPrintify.UpdatePrice | scripts/sync-from-printify.mjs:185-197 | one variant's step: its planned update is sent when applying, nothing in a dry run, and it counts as the plan says |
| SyncFromPrintify.UpdatePrices | scripts/sync-from-printify.mjs:185-198 | the loop issues exactly the planned price updates when applying, none in a dry run, and counts them as the plan says |
| SyncFromPrintify.SyncProduct | scripts/sync-from-printify.mjs:164-199 | an unmatched product is skipped; a matched one gets the description update when needed, then its price updates |
| SyncFromPrintify.Skipped | scripts/sync-from-printify.mjs:174 | never more skips than products |
| SyncFromPrintify.SkippedCountsUnmatched | scripts/sync-from-printify.mjs:164-174 | the skipped count is exactly the number of Printify products with no Shopify counterpart |
| SyncFromPrintify.UnmatchedProductsSendNothing | scripts/sync-from-printify.mjs:174 | products with no Shopify counterpart cause no mutation at all |
| SyncFromPrintify.Sync | scripts/sync-from-printify.mjs:157-203 | updated and skipped counts and the mutations sent equal the plan's; nothing is sent in a dry run |
| SyncFromPrintify.DryRunCountsEveryPrice | scripts/sync-from-printify.mjs:119-120 | in a dry run every planned price update counts as updated |
| OrientationPricing.ApplyMode | scripts/sync-orientation-pricing.mjs:22 | applies iff SYNC_APPLY is the four letters of `true`, each in either case |
| OrientationPricing.OrientationOf | scripts/sync-orientation-pricing.mjs:73-79 | Unknown iff no image or a zero side; Square iff the sides are within 2 pixels; otherwise the longer side decides |
| OrientationPricing.OrientationOfTurned | scripts/sync-orientation-pricing.mjs:73-79 | turning the image swaps landscape and portrait and keeps square and unknown |
| OrientationPricing.PriceFor | scripts/sync-orientation-pricing.mjs:81-86 | no price iff the orientation is unknown; landscape, portrait and square each get their own configured price |
| OrientationPricing.PlanSound | scripts/sync-orientation-pricing.mjs:102-111 | every planned update sets a variant of some product to that product's orientation price, and only when the price is off |
| OrientationPricing.PlanComplete | scripts/sync-orientation-pricing.mjs:102-111 | conversely, every variant of a product with a known orientation whose price is off gets an update to that orientation's price |
| OrientationPricing.VariantUpdatesSound | scripts/sync-orientation-pricing.mjs:109-111 | every update for a product names one of its variants, the target, and a price that is off |
| OrientationPricing.VariantUpdates | scripts/sync-orientation-pricing.mjs:109-111 | at most one update per variant |
| OrientationPricing.VariantUpdatesComplete | scripts/sync-orientation-pricing.mjs:109-111 | every variant whose price is off gets an update to the target |
| OrientationPricing.SettledVariantsNeedNoUpdates | scripts/sync-orientation-pricing.mjs:110-111 | variants at their non-zero orientation price are left alone |
| OrientationPricing.Skipped | scripts/sync-orientation-pricing.mjs:106-107 | never more skips than products |
| OrientationPricing.SkippedCountsUnknown | scripts/sync-orientation-pricing.mjs:102-107 | the skipped count is exactly the number of products whose orientation is unknown |
| OrientationPricing.AcceptedAppend | scripts/sync-orientation-pricing.mjs:114-119 | accepted updates add up over consecutive batches |
| OrientationPricing.PriceVariants | scripts/sync-orientation-pricing.mjs:109-125 | the loop sends the variants' planned updates when applying and counts the accepted ones; nothing in a dry run |
| OrientationPricing.Run | scripts/sync-orientation-pricing.mjs:99-128 | touched counts the accepted planned updates when applying (0 otherwise); skipped counts the products without an orientation; what is sent is the plan or nothing |
| JsNumber.NumberChars | app/components/AddToCartButton.jsx:143 | a string `Number` reads as a number is made only of number characters |
| JsNumber.AcceptedChars | app/components/AddToCartButton.jsx:143 | every character the automaton reads without rejecting is a number character |
| JsNumber.NoPathSeparators | app/components/AddToCartButton.jsx:143-147 | a numeric id never contains `,`, `:`, `/` or `?` |
| JsNumber.DigitsParse | app/components/AddToCartButton.jsx:143 | a non-empty run of digits passes the `isNaN` check |
| JsNumber.DigitRun | app/components/AddToCartButton.jsx:143 | digits never change whether the rest of an integer, fraction or exponent is accepted |
| JsNumber.LeadingSpaceIgnored | app/components/AddToCartButton.jsx:143 | white space in front of a string never changes whether it passes the `isNaN` check |
| JsNumber.HexParses | app/components/AddToCartButton.jsx:143 | `0x` and one or more hexadecimal digits pass the `isNaN` check |
| JsNumber.ExponentFormParses | app/components/AddToCartButton.jsx:143 | digits, a point, digits (maybe none), `e` and digits pass the `isNaN` check, as `1.5e3` does |
| JsNumber.InfinityParses | app/components/AddToCartButton.jsx:143 | `Infinity`, `+Infinity` and `-Infinity` pass the `isNaN` check |
| JsNumber.TrailingLettersDoNotParse | app/components/AddToCartButton.jsx:143 | digits followed by a lower-case letter other than e, o, b and x fail the `isNaN` check, whatever follows (so `12abc` fails) |
| JsNumber.SignedHexDoesNotParse | app/components/AddToCartButton.jsx:143 | a sign followed by `0x` fails the `isNaN` check, whatever follows: a sign cannot precede a hexadecimal literal |
| AddToCart.LineNumber | app/components/AddToCartButton.jsx:140-141 | the segment after the last `/` holds no `/` |
| Text.LastSegmentSuffix | app/components/AddToCartButton.jsx:141 | `split('/').pop()` is a suffix of the text, preceded by a `/` unless it is the whole text |
| AddToCart.Quantity | app/components/AddToCartButton.jsx:142 | at least 1; 1 for a missing or zero quantity; the quantity itself otherwise |
| AddToCart.AllUsableEvery | app/components/AddToCartButton.jsx:143-146 | the line-by-line usability check holds iff each line's id is usable |
| AddToCart.LinePartsExist | app/components/AddToCartButton.jsx:139-146 | the parts exist iff every line's id is usable |
| AddToCart.LinePartAt | app/components/AddToCartButton.jsx:139-146 | when the parts exist there is one per line, and part i is line i's `<id>:<qty>` |
| AddToCart.BuildCartLinesHref | app/components/AddToCartButton.jsx:136-151 | null for a missing or empty list; otherwise a link iff every id is usable, starting with `/cart/` |
| AddToCart.CartPathRoundTrip | app/components/AddToCartButton.jsx:136-151 | reading the permalink back gives every line's numeric id and quantity, in order |
| AddToCart.OpenedAfter | app/components/AddToCartButton.jsx:52-54 | the flag is set iff it was set or the add succeeded |
| AddToCart.SuccessOpensOnce | app/components/AddToCartButton.jsx:52-67 | a successful add opens the drawer exactly once with the flag clear, with no fallback; not at all with the flag set |
| AddToCart.FailureFallsBack | app/components/AddToCartButton.jsx:69-86 | a failed add whose answer has no cart sends one GET of the permalink with `?silent=1` iff the permalink exists and the flag is clear, and nothing else |
| AddToCart.BusyFetcherDoesNothing | app/components/AddToCartButton.jsx:52-69 | a fetcher still at work triggers no effect |
| AddToCart.SubmitButton.OnFetcherChange | app/components/AddToCartButton.jsx:50-87 | one run of the effect updates the flag and appends exactly that run's effects |
| AddToCart.SubmitButton.OnResetTimer | app/components/AddToCartButton.jsx:64-66 | the timer clears the flag and does nothing else |
| AddToCart.SubmitButton.OnFallbackResponse | app/components/AddToCartButton.jsx:73-84 | a cart in the answer is stored, announced and shown; nothing otherwise |
| AddToCart.IsSubmitting | app/components/AddToCartButton.jsx:89 | submitting iff there is no fetcher or it is not idle |
| AddToCart.ButtonDisabled | app/components/AddToCartButton.jsx:95 | an explicit `disabled` wins; otherwise disabled iff submitting |
| AddToCart.ButtonLabel | app/components/AddToCartButton.jsx:99 | "Adding…" iff submitting, else the children |
| CartRevalidator.AnyCartCompleted | app/components/CartRevalidator.client.jsx:8-12 | true iff some fetcher posted to a cart route and came back idle with a cart or an analytics cart id |
| CartRevalidator.RevalidateCalls | app/components/CartRevalidator.client.jsx:14-16 | one revalidation iff some cart post completed, none otherwise |
| CartRevalidator.InertFetcherChangesNothing | app/components/CartRevalidator.client.jsx:9-10 | a fetcher with no form action or not idle never changes the flag, wherever it sits |
| CartRevalidator.ApiCartRouteCounts | app/components/CartRevalidator.client.jsx:9 | any form action holding `/cart` counts, `/api/cart` included |
| CartSummary.IsAside | app/components/CartSummary.jsx:8 | every layout but `page` is the drawer |
| CartSummary.Sections | app/components/CartSummary.jsx:9-40 | discounts always; gift cards iff on the page; the checkout actions in the drawer or page variant to match |
| CartSummary.CheckoutLinks | app/components/CartSummary.jsx:45-79 | nothing without a checkout URL; four links in the drawer, one on the page, all to the checkout URL |
| CartSummary.ApplicableCodesMembers | app/components/CartSummary.jsx:95-98 | a code is shown iff some applicable discount carries it |
| CartSummary.ApplicableCodesAppend | app/components/CartSummary.jsx:95-98 | the codes keep the discounts' order |
| CartSummary.MaskedCodes | app/components/CartSummary.jsx:156-157 | one `***<last characters>` per applied card, in order; none without a list |
| CartSummary.StripWhitespace | app/components/CartSummary.jsx:160 | no white space remains and every other character is kept |
| CartSummary.WithCode | app/components/CartSummary.jsx:159-165 | the stripped code is in the list afterwards; the old list is a prefix; at most one code is added |
| CartSummary.WithCodeKeepsDistinct | app/components/CartSummary.jsx:161-163 | saving never creates a duplicate |
| CartSummary.WithCodeIdempotent | app/components/CartSummary.jsx:161-163 | saving a code twice equals saving it once |
| CartSummary.WhitespaceDoesNotMatter | app/components/CartSummary.jsx:160 | a white-space character anywhere in an entered code changes nothing in the codes sent |
| CartSummary.AfterRemovePressedAsWritten | app/components/CartSummary.jsx:181 | as written, pressing Remove leaves the applied list exactly as it was |
| CartSummary.AfterRemovePressed | app/components/CartSummary.jsx:167-169 | as intended, pressing Remove empties the applied list |
| CartSummary.RemoveThenApplyResendsOldCode | app/components/CartSummary.jsx:159-190 | the form's own applied list: after Remove and saving a different code, as written it still holds the old code before the new one; as intended it holds only the new one |
| CartSummary.GiftCardRequest | app/components/CartSummary.jsx:215-222 | the codes sent on Apply: the typed code first when there is one, then the list the form was rendered with (the cart route's GiftCardCodesUpdate action puts the typed code in front) |
| CartSummary.RemoveThenApplySendsOldCode | app/components/CartSummary.jsx:181-190 | after Remove on card OLD1 and typing NEW2, the request as written is ["NEW2", "OLD1"]; as intended it is ["NEW2"] |
| CartSummary.GiftCardForm.SaveAppliedCode | app/components/CartSummary.jsx:159-165 | keeps the list free of duplicates, appends the stripped code once and clears the field |
| CartSummary.GiftCardForm.RemoveAppliedCode | app/components/CartSummary.jsx:167-169 | empties the applied list |
| CartSummary.GiftCardForm.OnFormRender | app/components/CartSummary.jsx:224-229 | a submitted non-empty code is saved; with none nothing changes |
| CartSummary.GiftCardForm.PressRemoveAsWritten | app/components/CartSummary.jsx:181 | the as-written handler changes nothing |
| CartSummary.GiftCardForm.PressRemove | app/components/CartSummary.jsx:167-169 | the intended handler empties the list |
| ProductCarousel.Clamp | app/components/ProductCarousel.jsx:8 | any index from -n up lands in the ring: -n..-1 move up by n, 0..n-1 stay, n wraps to 0 |
| ProductCarousel.JsRem | app/components/ProductCarousel.jsx:8 | JavaScript's `%`: the Euclidean remainder for a non-negative dividend, a value in (-n, 0] for a negative one, and always congruent to the dividend modulo n |
| ProductCarousel.PrevIndex | app/components/ProductCarousel.jsx:9 | back steps down by one, and from the first image to the last |
| ProductCarousel.NextIndex | app/components/ProductCarousel.jsx:10 | forward steps up by one, and from the last image to the first |
| ProductCarousel.ArrowsStayInRange | app/components/ProductCarousel.jsx:8-10 | both arrows keep the index among the images |
| ProductCarousel.PrevNextInverse | app/components/ProductCarousel.jsx:9-10 | back undoes forward and forward undoes back |
| ProductCarousel.FullTurn | app/components/ProductCarousel.jsx:10 | n presses of forward return to the start |
| ProductCarousel.Opacity | app/components/ProductCarousel.jsx:23 | opaque iff it is the image at the index |
| ProductCarousel.ExactlyOneShown | app/components/ProductCarousel.jsx:15-23 | with the index in range exactly one image is shown |
| ProductCarousel.Carousel.Rerender | app/components/ProductCarousel.jsx:4-6 | a new image list keeps the index |
| ProductCarousel.Carousel.Prev | app/components/ProductCarousel.jsx:9 | the index moves back around the ring and stays in range |
| ProductCarousel.Carousel.Next | app/components/ProductCarousel.jsx:10 | the index moves forward around the ring and stays in range |
| ProductCarousel.Carousel.GoTo | app/components/ProductCarousel.jsx:35 | a dot sets the index to its own position |
| QuickView.EncodeUriComponent | app/components/ProductQuickView.client.jsx:21-22 | the result holds only unreserved characters and `%`; text of unreserved characters is unchanged |
| QuickView.ProductUrl | app/components/ProductQuickView.client.jsx:21-23 | the route `/api/product/…`, with a `?` iff a gid is given |
| QuickView.LoadRequest | app/components/ProductQuickView.client.jsx:19-25 | a request iff the view is open, a handle is set, and the fetcher is idle with no data |
| QuickView.SizesRequest | app/components/ProductQuickView.client.jsx:59-62 | the sizes are requested iff the product has a handle |
| QuickView.SizeValues | app/components/ProductQuickView.client.jsx:38-41 | the values of the first option named Size in any case; empty iff there is none |
| QuickView.FindBySize | app/components/ProductQuickView.client.jsx:52 | the first variant with a Size option of exactly that value; none iff no variant has it |
| QuickView.IdStat | app/components/ProductQuickView.client.jsx:188 | the last (at most) six characters of the segment after the last `/` of the id; `—` without an id |
| QuickView.IdStatSuffix | app/components/ProductQuickView.client.jsx:188 | the ID stat is a suffix of the id |
| QuickView.ShopifyGidStat | app/components/ProductQuickView.client.jsx:188 | a gid whose last segment has at least six characters shows the last six of them |
| QuickView.Attributes | app/components/ProductQuickView.client.jsx:240-243 | CustomSize iff there is no Size option; PrintifySize iff a Printify size is chosen; no other keys |
| QuickView.CartLines | app/components/ProductQuickView.client.jsx:236 | exactly one line: the current variant with quantity 1 |
| QuickView.CartButton | app/components/ProductQuickView.client.jsx:238-245 | disabled iff the variant is not for sale; "Add to Cart" or "Sold Out" to match |
| QuickView.QuickViewPermalink | app/components/ProductQuickView.client.jsx:236 | the quick view's line makes the permalink `/cart/<number>:1` |
| QuickView.QuickViewState.OnProductLoaded | app/components/ProductQuickView.client.jsx:32-36 | a loaded product's selected variant becomes current; otherwise nothing changes |
| QuickView.QuickViewState.OnSizeChange | app/components/ProductQuickView.client.jsx:50-54 | the first variant with the size becomes current; with no match nothing changes |
| QuickView.QuickViewState.OnPrintifySizes | app/components/ProductQuickView.client.jsx:64-68 | a non-empty list is kept and its first size chosen; otherwise nothing changes |
| QuickView.QuickViewState.OnPrintifySizeSelect | app/components/ProductQuickView.client.jsx:193 | sets only the chosen production size |
| Session.Read | app/lib/session.js:59-61 | a value iff the key is stored; a plain value is read without change; a flash value is consumed |
| Session.SetValue | app/lib/session.js:73-76 | `get` after `set` gives the value; other keys read as before |
| Session.UnsetKey | app/lib/session.js:68-71 | the key's plain value is gone; other keys read as before |
| Session.FlashValue | app/lib/session.js:63-66 | the key is present, and when no plain value is stored under the key a read returns the flash value |
| Session.PendingIffUncommittedWrite | app/lib/session.js:13-85 | starting from a new session, the flag is set iff some write came after the last commit |
| Session.AppSession.constructor | app/lib/session.js:13-52 | a new session is not pending and holds the cookie's data, or nothing when the cookie cannot be read |
| Session.AppSession.Has | app/lib/session.js:55-57 | reports whether the wrapped session has the key |
| Session.AppSession.Get | app/lib/session.js:59-61 | reads through the wrapped session and leaves the flag alone |
| Session.AppSession.Flash | app/lib/session.js:63-66 | sets the flag and stores the flash value |
| Session.AppSession.Unset | app/lib/session.js:68-71 | sets the flag and removes the key |
| Session.AppSession.Set | app/lib/session.js:73-76 | sets the flag and stores the value |
| Session.AppSession.SetRejected | app/lib/session.js:73-76 | a write whose wrapped session throws still leaves the flag set |
| Session.AppSession.Destroy | app/lib/session.js:78-80 | leaves the flag and the data alone |
| Session.AppSession.Commit | app/lib/session.js:82-85 | clears the flag and hands the current data to the storage |
| AppContext.OpenSession | app/lib/context.js:17-25 | fails with the SESSION_SECRET message iff the secret is missing or empty, before a session is opened; otherwise a new session that is not pending |
| AppContext.ReadCartId | app/lib/context.js:45 | a non-empty `cartId` stored in the session wins (a plain value before a flash value); with none stored, or only an empty one, the SDK's id |
| AppContext.SetThenGetCartId | app/lib/context.js:45-50 | after a successful write of a non-empty id, that id is read back, whatever the SDK holds |
| AppContext.RejectedWriteFallsBack | app/lib/context.js:46-50 | when the session holds no cartId, a swallowed session write still gives the id back through the SDK |
| AppContext.WrappedCart.GetCartId | app/lib/context.js:45 | returns the session's id or the SDK's, as ReadCartId says |
| AppContext.WrappedCart.SetCartId | app/lib/context.js:46-51 | stores the id in the session unless the write throws, and always in the SDK, whose headers it returns |
| AppContext.SpreadCart | app/lib/context.js:43-52 | getCartId and setCartId are replaced; every other member is the original's |

## Left out

- I/O is not modelled: the Printify and Shopify HTTP calls, `fetch`, GraphQL query text, console output and `process.exit`. Lookups become function parameters, and whether Shopify accepts an update becomes the predicate `accepts`.
- Pagination is left out: `fetchAllPrintifyProducts`' 20-page cap and `allProducts`' cursor loop. The scripts take the full product list.
- Floating point is left out: `centsToDollars`, the markup multiplication and `toFixed`. `SyncFromPrintify.ComputePriceCents` takes the marked-up cost already in cents and models only the clamp and the .99 ending.
- PrintifyMigrate.NormalizeSizeLabel: digit groups are read as exact integers. The script reads them with `parseInt` into doubles and prints them back with template interpolation, so a group of 2^53 or more is rounded and one of 10^21 or more prints in exponent form (`1e+21`).
- PrintifyMigrate.NormalizeIdempotent: holds for the exact-integer model only. In the script a label whose group prints as `1e+21` normalises again to `121x…`, so idempotence fails for groups of 10^21 or more.
- SyncFromPrintify.ComputePriceCents: the bounds are integers. In the script `Number(env.PRICE_MIN || 39)` and `Number(env.PRICE_MAX || 199)` are NaN for a non-numeric setting, and NaN bounds make every price NaN; integers cannot express that.
- SyncFromPrintify.Sync: an Admin call that throws ends only that update, which is caught and logged. The model treats a rejected update as not counted, through `accepts`. The dry-run counting is modelled exactly.
- OrientationPricing.Run: in the script an Admin call that throws (as opposed to answering with user errors) aborts the whole run. The model treats every call as answering.
- OrientationPricing.PriceFor: prices configured in the environment as text that `parseFloat` reads as NaN are not modelled; prices are integers in cents.
- SyncFromPrintify.FindShopifyProduct: the lookups' `.catch(() => null)` is folded into "not found".
- The description check (`!sp?.bodyHtml && !sp?.descriptionHtml`) is modelled on fields that the script's Admin queries never fetch, so in practice every matched product gets a description update. The model keeps the fields, so it covers either case.
- AddToCart.SubmitButton: the 100 ms reset timer and the fallback `fetch` promise chain are separate steps (`OnResetTimer`, `OnFallbackResponse`). Their interleaving with other renders is not modelled.
- AddToCart: `flyToCart`'s DOM animation, the `onClick` prop and the `analytics`/`redirectTo`/`attributes` props are not modelled. The button passes only `lines` to the cart form, so the quick view's `attributes` never reach the cart.
- AddToCart.ParseCartPath is a reference reader of the `/cart/<id>:<qty>,…` permalink format, used to state the round trip. The route that serves the permalink lives in the Hydrogen SDK.
- JsNumber: `Infinity` and signed numbers pass the `isNaN` check as they do in ECMAScript, so such an id is accepted as the source accepts it. The grammar of section 7.1.4.1.1 of ECMA-262 is written as an equivalent automaton that reads one character at a time; no numeric value is computed, only whether the result is NaN.
- ProductCarousel.Carousel.Rerender: after the images shrink, the index can sit past the end and no image is shown until an arrow or a dot is pressed. The model keeps that index and proves the arrow facts for indices from -n+1 up.
- Session: the wrapped Remix session keeps flash values under a prefixed key in the same map. The model keeps two maps and does not model a plain key that collides with such a prefixed name. Session values are strings.
- Session.AppSession.Destroy and Commit: the Set-Cookie header text the storage produces is not modelled.
- AppContext: only the SDK cart's id storage is modelled. Cache opening, `createHydrogenContext`, the i18n locale and the cart cookie options are framework wiring.
- QuickView: the custom-size height, the estimated price (floating point), the styles, the markup and the description HTML are not modelled. `CustomSize`'s text is taken as a parameter.
- QuickView.EncodeUriComponent: lone surrogates, which make `encodeURIComponent` throw, cannot occur in Dafny strings.

## Findings

| source | as written | input that shows it | evidently intended | confidence | as-written member | corrected member |
|---|---|---|---|---|---|---|
| app/components/CartSummary.jsx:181 | `onSubmit={() => removeAppliedCode}` returns the handler without calling it, and a button has no submit event, so Remove never clears the form's local list of applied gift-card codes. The button has no `type`, so it does submit its own form, which sends an empty code list (CartSummary.jsx:177-182 and 215-222) and removes the card from the cart at once; the stale local list shows only at the next Apply, which sends the removed card again | apply gift card `OLD1`, press Remove, type `NEW2` and press Apply: the cart action receives `["NEW2", "OLD1"]` (the typed code first, then the form's applied list, by app/routes/($locale).cart.jsx:68-73) | pressing Remove empties the applied list, so the request is `["NEW2"]` | not executed | CartSummary.AfterRemovePressedAsWritten, CartSummary.RemoveThenApplySendsOldCode, CartSummary.RemoveThenApplyResendsOldCode | CartSummary.AfterRemovePressed, CartSummary.GiftCardForm.PressRemove |
