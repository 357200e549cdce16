# Award Resin instant-estimate calculator, in Dafny

This project models the pricing core of the Award Resin website's quote builder
(`src/sections/InvoiceQuoteSection.tsx`). The customer picks a surface type, a service, an
area in m² and a set of add-ons. The calculator then produces an ordered list of priced line
items, a subtotal raised to a minimum-job floor, VAT at 20% and a total, all in integer pence.
Beside it sit two small form rules: toggling one add-on, and the postcode gate that enables
the Generate button.

Files and modules:

- `catalogue.dfy`, module `Catalogue`: the `PRICING` catalogue and the display labels. The
  surface types, services and add-on keys are datatypes. Each surface multiplier is a whole
  number of hundredths (100, 95, 90, 110, 85). The add-on selection (`Record<key, boolean>`)
  is a record datatype `AddonSelection`.
- `rounding.dfy`, module `Rounding`: `Math.round` on exact reals as `floor(x + 1/2)`, and
  `clampInt`.
- `text.dfy`, module `Text`: the JavaScript string behaviour the core relies on.
  `String.prototype.trim` removes the ECMAScript WhiteSpace and LineTerminator code points.
  `.length` counts UTF-16 code units. `` `${n}` `` prints a whole number in decimal.
- `wrappers.dfy`, module `Wrappers`: an `Option` for the line item's optional `qty`.
- `quote.dfy`, module `QuoteBuilder`. `QuoteOf` is the specification of `buildQuote`.
  `BuildQuote` is the imperative version: it appends to a local sequence, one push at a time,
  and is proved equal to `QuoteOf`. The source's `items` array is local until it is returned,
  so no aliasing is lost. The lemmas state what the
  result promises.
- `quote_form.dfy`, module `QuoteForm`: `toggleAddon` and `canGenerate`.

Decisions:

- Multipliers are exact rationals, not IEEE-754 doubles. Every base and per-m² rate is a
  multiple of 100 pence, so the scaled amounts are exact integers (`BaseAmountExact`,
  `SizeAmountExact`). VAT is `round(n/5)`, which never falls on a .5 tie (`FifthNeverTies`).
  So every rounding mode gives the same VAT, and `Math.round` (ties toward +infinity) is the
  one modelled.
- The area input is a real number, as `Number(e.target.value)` gives. It is rounded, then
  clamped into [5, 500].
- `createdAt` comes from the clock (`todayISO`), so the caller passes it in.
- The line-item field `label` is called `labelText` here, because `label` is a reserved word
  in Dafny.
- Because `QuoteOf` is a function, two quotes computed from equal inputs are equal. The
  contact fields and notes passed to `buildQuote` do not affect the result
  (`PriceIgnoresContactDetails`).

## Model

| member | source | states |
|---|---|---|
| `Catalogue.MultiplierHundredths` | src/sections/InvoiceQuoteSection.tsx:53-59 | every surface multiplier is between 0.85 and 1.10, in whole hundredths |
| `Catalogue.Multiplier` | src/sections/InvoiceQuoteSection.tsx:53-59 | the multiplier as an exact rational lies in [0.85, 1.1] |
| `Catalogue.RatesAreWholePounds` | src/sections/InvoiceQuoteSection.tsx:60-67 | every base and per-m² rate is a multiple of 100 pence; only the consultation has a zero per-m² rate |
| `Catalogue.AddonPence` | src/sections/InvoiceQuoteSection.tsx:68-73 | every add-on price is whole pounds, between 24000 and 42000 pence |
| `Catalogue.AddonOrder` | src/sections/InvoiceQuoteSection.tsx:68-73 | the add-on keys in the order `Object.keys` returns them at line 136: edging, skip, drainage, steps |
| `Catalogue.VatRate` | src/sections/InvoiceQuoteSection.tsx:51 | the VAT rate, 0.2 |
| `Catalogue.MinTotalPence` | src/sections/InvoiceQuoteSection.tsx:52 | the minimum-job floor, 25000 pence |
| `Catalogue.Rate` | src/sections/InvoiceQuoteSection.tsx:60-67 | `PRICING.service`: base and per-m² pence for the six services (45000/7500, 35000/5500, 25000/4500, 55000/8500, 18000/3500, 0/0); `RatesAreWholePounds` states what the calculator relies on |
| `Catalogue.AddonLabel` | src/sections/InvoiceQuoteSection.tsx:68-73 | the four add-on labels; `AddonLabelsDistinct` states that they identify their add-on |
| `Catalogue.SurfaceTypeLabel` | src/sections/InvoiceQuoteSection.tsx:76-82 | `SURFACE_TYPE_LABEL`, the display name of each surface type |
| `Catalogue.SurfaceTypeLabelsDistinct` | src/sections/InvoiceQuoteSection.tsx:76-82 | different surface types have different labels |
| `Catalogue.ServiceLabel` | src/sections/InvoiceQuoteSection.tsx:84-91 | `SERVICE_LABEL`, the display name of each service |
| `Catalogue.ServiceLabelsDistinct` | src/sections/InvoiceQuoteSection.tsx:84-91 | different services have different labels |
| `Catalogue.AddonLabelsDistinct` | src/sections/InvoiceQuoteSection.tsx:68-73 | two add-ons have the same label only if they are the same add-on |
| `Catalogue.AddonOrderIsComplete` | src/sections/InvoiceQuoteSection.tsx:136 | the key order iterated by the add-on loop lists each of the four keys exactly once |
| `Rounding.Round` | src/sections/InvoiceQuoteSection.tsx:103 | Math.round: the result lies in (x - 1/2, x + 1/2] |
| `Rounding.RoundUnique` | src/sections/InvoiceQuoteSection.tsx:103 | any integer in that window is the rounded value |
| `Rounding.RoundIsNearest` | src/sections/InvoiceQuoteSection.tsx:103 | the result is an integer nearest to x, and of two equally near integers it is the larger |
| `Rounding.RoundOfInt` | src/sections/InvoiceQuoteSection.tsx:103 | a whole number is unchanged by rounding |
| `Rounding.RoundScaledExact` | src/sections/InvoiceQuoteSection.tsx:121-122 | whole-pound pence times a whole number of hundredths is an exact integer, so rounding does nothing |
| `Rounding.ClampInt` | src/sections/InvoiceQuoteSection.tsx:102-104 | the result is at least min and, when min <= max, at most max; an in-range value is only rounded; a value below or above the range becomes min or max, never an error |
| `Rounding.ClampIdempotent` | src/sections/InvoiceQuoteSection.tsx:102-104 | clamping a clamped value changes nothing |
| `Rounding.RoundFifth` | src/sections/InvoiceQuoteSection.tsx:146 | Math.round(n * 0.2) equals (n + 2) / 5 in integer arithmetic for n >= 0 |
| `Rounding.FifthNeverTies` | src/sections/InvoiceQuoteSection.tsx:146 | n * 0.2 is never exactly halfway between two integers |
| `Text.IsJsWhitespace` | src/sections/InvoiceQuoteSection.tsx:210 | the characters `trim` removes: the ECMAScript WhiteSpace and LineTerminator code points (tab, line feed, vertical tab, form feed, carriage return, space, no-break space, U+1680, U+2000 to U+200A, U+2028, U+2029, U+202F, U+205F, U+3000, U+FEFF) |
| `Text.TrimStart` | src/sections/InvoiceQuoteSection.tsx:210 | the result is the suffix of the input starting at its first non-whitespace character; everything dropped is whitespace |
| `Text.TrimEnd` | src/sections/InvoiceQuoteSection.tsx:210 | the result is the prefix of the input ending at its last non-whitespace character; everything dropped is whitespace |
| `Text.Trim` | src/sections/InvoiceQuoteSection.tsx:210 | the trimmed text is no longer than the input, neither starts nor ends with whitespace, and is empty iff the input is all whitespace |
| `Text.TrimKeepsTrimmed` | src/sections/InvoiceQuoteSection.tsx:210 | text with no whitespace at either end is unchanged by trim |
| `Text.TrimIsSlice` | src/sections/InvoiceQuoteSection.tsx:210 | the trimmed text is a contiguous piece of the input |
| `Text.TrimStartSkipsWhitespace` | src/sections/InvoiceQuoteSection.tsx:210 | leading whitespace never survives |
| `Text.TrimEndSkipsWhitespace` | src/sections/InvoiceQuoteSection.tsx:210 | trailing whitespace never survives |
| `Text.TrimStartKeepsTail` | src/sections/InvoiceQuoteSection.tsx:210 | once a non-whitespace character is found, everything after it is kept |
| `Text.TrimIgnoresSurroundingWhitespace` | src/sections/InvoiceQuoteSection.tsx:210 | trim(w1 + s + w2) equals trim(s) for all-whitespace w1 and w2 |
| `Text.Utf16Length` | src/sections/InvoiceQuoteSection.tsx:210 | `.length` is between the number of characters and twice that |
| `Text.Utf16LengthOfBmp` | src/sections/InvoiceQuoteSection.tsx:210 | for Basic Multilingual Plane text, `.length` is the number of characters |
| `Text.NatToDecimal` | src/sections/InvoiceQuoteSection.tsx:131 | the area text has at least one character, only decimal digits, and no leading zero |
| `Text.DecimalRoundTrip` | src/sections/InvoiceQuoteSection.tsx:131 | reading the printed digits back gives the number |
| `Text.DecimalInjective` | src/sections/InvoiceQuoteSection.tsx:131 | different areas print differently |
| `QuoteBuilder.BaseAmount` | src/sections/InvoiceQuoteSection.tsx:121 | `Math.round(basePence * multiplier)`; `BaseAmountExact` gives its exact value |
| `QuoteBuilder.SizeAmount` | src/sections/InvoiceQuoteSection.tsx:122 | `Math.round(perSqmPence * areaSqm * multiplier)`; `SizeAmountExact` gives its exact value |
| `QuoteBuilder.AddonItems` | src/sections/InvoiceQuoteSection.tsx:136-142 | the rows the `forEach` pushes for a list of keys, in list order; the lemmas below state which rows these are |
| `QuoteBuilder.SumAmounts` | src/sections/InvoiceQuoteSection.tsx:144 | the `reduce` over the rows as a left fold from 0; `SumAmountsAppend` splits it over concatenation |
| `QuoteBuilder.QuoteOf` | src/sections/InvoiceQuoteSection.tsx:117-158 | `buildQuote` as one expression; the lemmas below state its promises and `BuildQuote` is proved equal to it |
| `QuoteBuilder.BuildQuote` | src/sections/InvoiceQuoteSection.tsx:106-159 | the imperative buildQuote (item list grown by push) returns exactly the specified quote `QuoteOf` |
| `QuoteBuilder.PushSelectedAddons` | src/sections/InvoiceQuoteSection.tsx:136-142 | the forEach loop appends one item per selected key, in catalogue order, to the given list |
| `QuoteBuilder.AddonItemsSnoc` | src/sections/InvoiceQuoteSection.tsx:136-142 | handling one more key appends that key's item, if it is selected, to the items so far |
| `QuoteBuilder.SumAmountsAppend` | src/sections/InvoiceQuoteSection.tsx:144 | the reduce-sum of a concatenation is the sum of the parts |
| `QuoteBuilder.AddonItemsAreFlatPrices` | src/sections/InvoiceQuoteSection.tsx:136-142 | every add-on row is the row of one selected key, with that key's label and flat price |
| `QuoteBuilder.AddonItemsInCatalogueOrder` | src/sections/InvoiceQuoteSection.tsx:136-142 | the add-on rows are edging, skip, drainage, steps, in that order, each present only when selected |
| `QuoteBuilder.AddonRowIffSelected` | src/sections/InvoiceQuoteSection.tsx:136-142 | an add-on has a row iff it is selected, and never more than one |
| `QuoteBuilder.AddonRowCount` | src/sections/InvoiceQuoteSection.tsx:136-142 | for any key list: a selected key gives as many rows as it occurs in the list; an unselected key gives none |
| `QuoteBuilder.AddonItemInjective` | src/sections/InvoiceQuoteSection.tsx:138-141 | different add-ons give different rows |
| `QuoteBuilder.AddonItemsHaveNoQty` | src/sections/InvoiceQuoteSection.tsx:138-141 | add-on rows carry no quantity |
| `QuoteBuilder.QuoteAreaClamped` | src/sections/InvoiceQuoteSection.tsx:117 | the area used is in [5, 500]: the rounded input when that is in range, otherwise 5 or 500 |
| `QuoteBuilder.BaseChargeFirst` | src/sections/InvoiceQuoteSection.tsx:121-126 | the list is never empty; its first row is "<service> — base" with no quantity, priced at base rate times multiplier, exactly |
| `QuoteBuilder.BaseAmountExact` | src/sections/InvoiceQuoteSection.tsx:121 | round(basePence * multiplier) is exactly basePence * hundredths / 100 |
| `QuoteBuilder.SizeAmountExact` | src/sections/InvoiceQuoteSection.tsx:122 | round(perSqmPence * area * multiplier) is exactly perSqmPence * area * hundredths / 100 |
| `QuoteBuilder.SizeChargeIffPerSqmRate` | src/sections/InvoiceQuoteSection.tsx:128-134 | a row with a quantity exists iff the service's per-m² rate is positive; the row is then second, labelled "<service> — size", with qty "<area> m²" and the exact size amount |
| `QuoteBuilder.ConsultationHasNoSizeCharge` | src/sections/InvoiceQuoteSection.tsx:66 | a consultation's rows are the base row and the add-on rows only, whatever the area or surface |
| `QuoteBuilder.AddonRowsFlatAndOrdered` | src/sections/InvoiceQuoteSection.tsx:136-142 | the rows after the base and size rows are the selected add-ons at flat catalogue prices; a different surface leaves them identical |
| `QuoteBuilder.SubtotalIsFlooredSum` | src/sections/InvoiceQuoteSection.tsx:144-145 | subtotal = max(sum of row amounts, 25000); the rows still sum to base + size + add-ons, with no row added for the floor |
| `QuoteBuilder.VatAndTotal` | src/sections/InvoiceQuoteSection.tsx:146-147 | vat = (subtotal + 2) / 5, total = subtotal + vat, so vat >= 5000 and total >= 30000 |
| `QuoteBuilder.PriceIgnoresContactDetails` | src/sections/InvoiceQuoteSection.tsx:106-116 | postcode, name, email, phone and notes do not affect the quote |
| `QuoteBuilder.ExampleDrivewayResinBound` | src/sections/InvoiceQuoteSection.tsx:117-154 | driveway, resin bound, 40 m², no add-ons: rows 45000 and 300000 ("40 m²"), then 345000 / 69000 / 414000 |
| `QuoteBuilder.ExampleCommercialConsultation` | src/sections/InvoiceQuoteSection.tsx:117-154 | commercial, consultation, 200 m²: a single zero base row, then 25000 / 5000 / 30000 |
| `QuoteBuilder.ExampleInitialForm` | src/sections/InvoiceQuoteSection.tsx:163-171 | the form's opening state (driveway, resin bound, 40 m², edging and skip): four rows, 404000 / 80800 / 484800 |
| `QuoteForm.ToggleAddon` | src/sections/InvoiceQuoteSection.tsx:207-208 | the toggled key's flag is negated and every other flag is unchanged |
| `QuoteForm.ToggleTwiceRestores` | src/sections/InvoiceQuoteSection.tsx:207-208 | toggling the same key twice restores the selection |
| `QuoteForm.ToggleFlipsOnlyItsRow` | src/sections/InvoiceQuoteSection.tsx:207-208 | a toggle adds or removes only its own add-on row; toggling back yields an identical quote |
| `QuoteForm.CanGenerate` | src/sections/InvoiceQuoteSection.tsx:210 | an all-whitespace postcode is refused; an accepted postcode has at least two characters |
| `QuoteForm.CanGenerateBmp` | src/sections/InvoiceQuoteSection.tsx:210 | for Basic Multilingual Plane text, the gate is just "at least 4 characters once trimmed" |
| `QuoteForm.BmpTrim` | src/sections/InvoiceQuoteSection.tsx:210 | trimming Basic Multilingual Plane text leaves Basic Multilingual Plane text |
| `QuoteForm.CanGenerateIgnoresSurroundingWhitespace` | src/sections/InvoiceQuoteSection.tsx:210 | whitespace around the postcode never changes the gate |
| `QuoteForm.CanGenerateTrimmedBmp` | src/sections/InvoiceQuoteSection.tsx:210 | a plain postcode with no surrounding whitespace passes iff it has at least 4 characters |
| `QuoteForm.CanGenerateExamples` | src/sections/InvoiceQuoteSection.tsx:210 | "" and "SO5" are refused; "SO50 7DE" is accepted |
| `QuoteForm.CanGeneratePaddedShort` | src/sections/InvoiceQuoteSection.tsx:210 | "  SO5 \t" is refused: padding does not help a short postcode |
| `QuoteForm.CanGeneratePaddedLong` | src/sections/InvoiceQuoteSection.tsx:210 | " SO50 " is accepted |

## Left out

- IEEE-754 behaviour of the double products. The surface multipliers (for example 0.95) and the VAT rate 0.2 are not exact as doubles, so lines 121, 122 and 146 multiply inexact values. The model uses exact hundredths and an exact 0.2. For this catalogue the exact base and size products are whole numbers, and a fifth of a whole number is never within 0.1 of a .5 tie (`FifthNeverTies`), so `Math.round` lands on the same value.
- A postcode holding an unpaired UTF-16 surrogate. A Dafny `char` is a Unicode scalar value, so such a string cannot be passed to `CanGenerate`; in JavaScript it can, and `.length` counts the lone surrogate as one unit.
- A NaN or infinite area. `clampInt` would pass a NaN through to the amounts. The form's number inputs never produce one in practice, and the model's area is an exact real.
- `formatGBPFromPence` and `todayISO` (lines 93-100): locale formatting through `toLocaleString` and `toLocaleDateString`. `createdAt` is taken as a parameter instead.
- The quote number (lines 201-205): it is built from `Date.now()` and `Math.random()`, so it is nondeterministic.
- The Generate button's handler (lines 384-402). It assembles the preview payload field by field, writes it to `window.sessionStorage` and navigates with `router.push`. Both are browser I/O.
- React state and memoisation (`useState`, `useMemo`), the JSX markup and styling of `InvoiceQuoteSection`, and the other section components. All of these are presentational.
- `src/components/Logo.tsx` (an image-error fallback held in UI state) and `src/lib/company.ts` (constants, plus a URL built with `encodeURIComponent`).
