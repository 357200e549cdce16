/** buildQuote: from a surface type, a service, an area and an add-on selection to an ordered
    list of priced line items, a floored subtotal, VAT and a total. */
module QuoteBuilder {
  import opened Wrappers
  import opened Catalogue
  import opened Rounding
  import opened Text

  /** A row of the quote; only the size charge carries a quantity text. */
  datatype LineItem = LineItem(labelText: string, qty: Option<string>, amountPence: int)

  /** What the quote form hands to buildQuote; the contact fields and notes are carried along
      but do not affect the price. */
  datatype QuoteParams = QuoteParams(
    surfaceType: SurfaceType,
    service: ServiceType,
    areaSqm: real,
    postcode: string,
    name: string,
    email: string,
    phone: string,
    notes: string,
    addons: AddonSelection)

  /** The computed quote. `createdAt` is the day's date, supplied by the caller. */
  datatype Quote = Quote(
    areaSqm: int,
    items: seq<LineItem>,
    subtotal: int,
    vat: int,
    total: int,
    createdAt: string,
    surfaceTypeLabel: string,
    serviceLabel: string)

  const MinAreaSqm: int := 5
  const MaxAreaSqm: int := 500

  // ---------------------------------------------------------------------------
  // The specification: what each part of the quote is.

  function BaseAmount(service: ServiceType, surface: SurfaceType): int
  {
    Round(Rate(service).basePence as real * Multiplier(surface))
  }

  function SizeAmount(service: ServiceType, surface: SurfaceType, area: int): int
  {
    Round(Rate(service).perSqmPence as real * area as real * Multiplier(surface))
  }

  function BaseItem(service: ServiceType, surface: SurfaceType): LineItem
  {
    LineItem(ServiceLabel(service) + " — base", None, BaseAmount(service, surface))
  }

  function SizeItem(service: ServiceType, surface: SurfaceType, area: nat): LineItem
  {
    LineItem(ServiceLabel(service) + " — size", Some(NatToDecimal(area) + " m²"),
             SizeAmount(service, surface, area))
  }

  function AddonItem(k: AddonKey): LineItem
  {
    LineItem(AddonLabel(k), None, AddonPence(k))
  }

  /** The size charge, present only for a service with a per-m² rate. */
  function SizeItems(service: ServiceType, surface: SurfaceType, area: nat): seq<LineItem>
  {
    if Rate(service).perSqmPence > 0 then [SizeItem(service, surface, area)] else []
  }

  /** One item per selected key of `keys`, in the order of `keys`. */
  function AddonItems(keys: seq<AddonKey>, sel: AddonSelection): seq<LineItem>
  {
    if keys == [] then []
    else (if sel.Selected(keys[0]) then [AddonItem(keys[0])] else []) + AddonItems(keys[1..], sel)
  }

  function QuoteItems(service: ServiceType, surface: SurfaceType, area: nat, sel: AddonSelection): seq<LineItem>
  {
    [BaseItem(service, surface)] + SizeItems(service, surface, area) + AddonItems(AddonOrder, sel)
  }

  /** items.reduce((sum, it) => sum + it.amountPence, 0): a left fold. */
  function SumAmounts(items: seq<LineItem>): int
  {
    if items == [] then 0 else SumAmounts(items[..|items| - 1]) + items[|items| - 1].amountPence
  }

  /** The quote buildQuote returns for `p`. */
  function QuoteOf(p: QuoteParams, createdAt: string): Quote
  {
    var area := ClampInt(p.areaSqm, MinAreaSqm, MaxAreaSqm);
    var items := QuoteItems(p.service, p.surfaceType, area, p.addons);
    var subtotal := Max(SumAmounts(items), MinTotalPence);
    var vat := Round(subtotal as real * VatRate);
    Quote(area, items, subtotal, vat, subtotal + vat, createdAt,
          SurfaceTypeLabel(p.surfaceType), ServiceLabel(p.service))
  }

  // ---------------------------------------------------------------------------
  // buildQuote itself: items are appended to a local sequence, one push at a time.

  method BuildQuote(p: QuoteParams, createdAt: string) returns (q: Quote)
    ensures q == QuoteOf(p, createdAt)
  {
    var areaSqm := ClampInt(p.areaSqm, MinAreaSqm, MaxAreaSqm);
    var servicePricing := Rate(p.service);

    var base := BaseAmount(p.service, p.surfaceType);
    var variable := SizeAmount(p.service, p.surfaceType, areaSqm);

    var items := [LineItem(ServiceLabel(p.service) + " — base", None, base)];
    if servicePricing.perSqmPence > 0 {
      items := items + [LineItem(ServiceLabel(p.service) + " — size", Some(NatToDecimal(areaSqm) + " m²"), variable)];
    }
    assert items == [BaseItem(p.service, p.surfaceType)] + SizeItems(p.service, p.surfaceType, areaSqm);
    items := PushSelectedAddons(items, p.addons);

    var subtotal := SumAmounts(items);
    var minAdjustedSubtotal := Max(subtotal, MinTotalPence);
    var vat := Round(minAdjustedSubtotal as real * VatRate);
    var total := minAdjustedSubtotal + vat;

    q := Quote(areaSqm, items, minAdjustedSubtotal, vat, total, createdAt,
               SurfaceTypeLabel(p.surfaceType), ServiceLabel(p.service));
  }

  /** The forEach over the catalogue's add-on keys: one push per selected key. */
  method PushSelectedAddons(items0: seq<LineItem>, sel: AddonSelection) returns (items: seq<LineItem>)
    ensures items == items0 + AddonItems(AddonOrder, sel)
  {
    items := items0;
    var i := 0;
    while i < |AddonOrder|
      invariant 0 <= i <= |AddonOrder|
      invariant items == items0 + AddonItems(AddonOrder[..i], sel)
    {
      var k := AddonOrder[i];
      AddonItemsSnoc(AddonOrder[..i], k, sel);
      assert AddonOrder[..i + 1] == AddonOrder[..i] + [k];
      if sel.Selected(k) {
        items := items + [LineItem(AddonLabel(k), None, AddonPence(k))];
      }
      i := i + 1;
    }
    assert AddonOrder[..i] == AddonOrder;
  }

  // ---------------------------------------------------------------------------
  // Helper facts about the specification functions.

  lemma {:induction false} AddonItemsSnoc(keys: seq<AddonKey>, k: AddonKey, sel: AddonSelection)
    ensures AddonItems(keys + [k], sel)
         == AddonItems(keys, sel) + (if sel.Selected(k) then [AddonItem(k)] else [])
  {
    if keys == [] {
      assert [] + [k] == [k];
    } else {
      assert (keys + [k])[1..] == keys[1..] + [k];
      AddonItemsSnoc(keys[1..], k, sel);
    }
  }

  lemma {:induction false} SumAmountsAppend(a: seq<LineItem>, b: seq<LineItem>)
    ensures SumAmounts(a + b) == SumAmounts(a) + SumAmounts(b)
  {
    if b == [] {
      assert a + b == a;
    } else {
      assert (a + b)[..|a + b| - 1] == a + b[..|b| - 1];
      SumAmountsAppend(a, b[..|b| - 1]);
    }
  }

  /** Amounts of add-on items are the flat catalogue prices of the selected keys. */
  lemma {:induction false} AddonItemsAreFlatPrices(keys: seq<AddonKey>, sel: AddonSelection, j: int)
    requires 0 <= j < |AddonItems(keys, sel)|
    ensures exists k :: k in keys && sel.Selected(k) && AddonItems(keys, sel)[j] == AddonItem(k)
  {
    var head := if sel.Selected(keys[0]) then [AddonItem(keys[0])] else [];
    if j < |head| {
      assert AddonItems(keys, sel)[j] == AddonItem(keys[0]);
    } else {
      AddonItemsAreFlatPrices(keys[1..], sel, j - |head|);
      var k :| k in keys[1..] && sel.Selected(k) && AddonItems(keys[1..], sel)[j - |head|] == AddonItem(k);
      assert AddonItems(keys, sel)[j] == AddonItem(k);
    }
  }

  /** The add-on rows in closed form: edging, skip, drainage, steps, each only when selected. */
  lemma AddonItemsInCatalogueOrder(sel: AddonSelection)
    ensures AddonItems(AddonOrder, sel)
         == (if sel.edging then [AddonItem(Edging)] else [])
          + (if sel.skip then [AddonItem(Skip)] else [])
          + (if sel.drainage then [AddonItem(Drainage)] else [])
          + (if sel.steps then [AddonItem(Steps)] else [])
  {
    var o1, o2, o3 := [Skip, Drainage, Steps], [Drainage, Steps], [Steps];
    assert AddonOrder[1..] == o1 && o1[1..] == o2 && o2[1..] == o3 && o3[1..] == [];
    assert AddonItems(o3, sel) == (if sel.steps then [AddonItem(Steps)] else []) + AddonItems([], sel);
    assert AddonItems(o2, sel) == (if sel.drainage then [AddonItem(Drainage)] else []) + AddonItems(o3, sel);
    assert AddonItems(o1, sel) == (if sel.skip then [AddonItem(Skip)] else []) + AddonItems(o2, sel);
    assert AddonItems(AddonOrder, sel) == (if sel.edging then [AddonItem(Edging)] else []) + AddonItems(o1, sel);
  }

  /** An add-on has a row exactly when it is selected, and then exactly one. */
  lemma AddonRowIffSelected(sel: AddonSelection, k: AddonKey)
    ensures AddonItem(k) in AddonItems(AddonOrder, sel) <==> sel.Selected(k)
    ensures multiset(AddonItems(AddonOrder, sel))[AddonItem(k)] == (if sel.Selected(k) then 1 else 0)
  {
    AddonRowCount(AddonOrder, sel, k);
    AddonOrderIsComplete(k);
    var rows := AddonItems(AddonOrder, sel);
    assert AddonItem(k) in rows <==> AddonItem(k) in multiset(rows);
  }

  /** Each occurrence of a selected key in `keys` gives one row; unselected keys give none. */
  lemma {:induction false} AddonRowCount(keys: seq<AddonKey>, sel: AddonSelection, k: AddonKey)
    ensures multiset(AddonItems(keys, sel))[AddonItem(k)]
         == (if sel.Selected(k) then multiset(keys)[k] else 0)
  {
    if keys != [] {
      var j := keys[0];
      AddonRowCount(keys[1..], sel, k);
      assert keys == [j] + keys[1..];
      assert multiset(keys) == multiset{j} + multiset(keys[1..]);
      AddonItemInjective(j, k);
    }
  }

  lemma AddonItemInjective(j: AddonKey, k: AddonKey)
    ensures AddonItem(j) == AddonItem(k) <==> j == k
  {
    AddonLabelsDistinct(j, k);
  }

  lemma {:induction false} AddonItemsHaveNoQty(keys: seq<AddonKey>, sel: AddonSelection)
    ensures forall j :: 0 <= j < |AddonItems(keys, sel)| ==> AddonItems(keys, sel)[j].qty == None
  {
    if keys != [] {
      AddonItemsHaveNoQty(keys[1..], sel);
    }
  }

  // ---------------------------------------------------------------------------
  // What buildQuote promises.

  /** The area used is the input rounded and clamped into [5, 500]. */
  lemma QuoteAreaClamped(p: QuoteParams, createdAt: string)
    ensures var q := QuoteOf(p, createdAt);
      MinAreaSqm <= q.areaSqm <= MaxAreaSqm &&
      (MinAreaSqm <= Round(p.areaSqm) <= MaxAreaSqm ==> q.areaSqm == Round(p.areaSqm)) &&
      (Round(p.areaSqm) < MinAreaSqm ==> q.areaSqm == MinAreaSqm) &&
      (Round(p.areaSqm) > MaxAreaSqm ==> q.areaSqm == MaxAreaSqm)
  {
  }

  /** The list is never empty and starts with the base charge, whose amount is exact. */
  lemma BaseChargeFirst(p: QuoteParams, createdAt: string)
    ensures var q := QuoteOf(p, createdAt);
      |q.items| >= 1 &&
      q.items[0].labelText == ServiceLabel(p.service) + " — base" &&
      q.items[0].qty == None &&
      q.items[0].amountPence == Rate(p.service).basePence * MultiplierHundredths(p.surfaceType) / 100
  {
    var q := QuoteOf(p, createdAt);
    assert q.items[0] == BaseItem(p.service, p.surfaceType);
    BaseAmountExact(p.service, p.surfaceType);
  }

  /** The base charge is exact: base rate times multiplier, in whole pence. */
  lemma BaseAmountExact(service: ServiceType, surface: SurfaceType)
    ensures BaseAmount(service, surface)
         == Rate(service).basePence * MultiplierHundredths(surface) / 100
  {
    RatesAreWholePounds(service);
    RoundScaledExact(Rate(service).basePence, MultiplierHundredths(surface));
  }

  /** The size charge is exact: per-m² rate times area times multiplier, in whole pence. */
  lemma SizeAmountExact(service: ServiceType, surface: SurfaceType, area: int)
    ensures SizeAmount(service, surface, area)
         == Rate(service).perSqmPence * area * MultiplierHundredths(surface) / 100
  {
    var per := Rate(service).perSqmPence;
    RatesAreWholePounds(service);
    assert (per * area) % 100 == 0 by {
      var c := per / 100;
      assert per * area == 100 * (c * area);
    }
    assert per as real * area as real == (per * area) as real;
    RoundScaledExact(per * area, MultiplierHundredths(surface));
  }

  /** A row with a quantity (the size charge) is present iff the service has a per-m² rate;
      it is then the second row, with qty "<area> m²". */
  lemma SizeChargeIffPerSqmRate(p: QuoteParams, createdAt: string)
    ensures var q := QuoteOf(p, createdAt);
      (exists j :: 0 <= j < |q.items| && q.items[j].qty.Some?) <==> Rate(p.service).perSqmPence > 0
    ensures var q := QuoteOf(p, createdAt);
      Rate(p.service).perSqmPence > 0 ==>
        |q.items| >= 2 &&
        q.items[1].labelText == ServiceLabel(p.service) + " — size" &&
        q.items[1].qty == Some(NatToDecimal(q.areaSqm) + " m²") &&
        q.items[1].amountPence
          == Rate(p.service).perSqmPence * q.areaSqm * MultiplierHundredths(p.surfaceType) / 100
  {
    var q := QuoteOf(p, createdAt);
    var area := q.areaSqm;
    var addons := AddonItems(AddonOrder, p.addons);
    var sized := SizeItems(p.service, p.surfaceType, area);
    assert q.items == [BaseItem(p.service, p.surfaceType)] + sized + addons;
    AddonItemsHaveNoQty(AddonOrder, p.addons);
    if Rate(p.service).perSqmPence > 0 {
      assert q.items[1].qty.Some?;
      SizeAmountExact(p.service, p.surfaceType, area);
    } else {
      forall j | 0 <= j < |q.items| ensures q.items[j].qty == None {
        if j > 0 { assert q.items[j] == addons[j - 1]; }
      }
    }
  }

  /** A consultation never gets a size charge, whatever the area or surface. */
  lemma ConsultationHasNoSizeCharge(p: QuoteParams, createdAt: string)
    requires p.service == Consultation
    ensures var q := QuoteOf(p, createdAt);
      q.items == [BaseItem(p.service, p.surfaceType)] + AddonItems(AddonOrder, p.addons) &&
      forall j :: 0 <= j < |q.items| ==> q.items[j].qty == None
  {
    SizeChargeIffPerSqmRate(p, createdAt);
  }

  /** Every row after the base and size charges is one selected add-on at its flat catalogue
      price, in catalogue order; changing only the surface does not change them. */
  lemma AddonRowsFlatAndOrdered(p: QuoteParams, createdAt: string, other: SurfaceType)
    ensures var q := QuoteOf(p, createdAt);
      var n := |q.items| - |AddonItems(AddonOrder, p.addons)|;
      0 < n <= 2 &&
      q.items[n..] == AddonItems(AddonOrder, p.addons) &&
      q.items[n..] == QuoteOf(p.(surfaceType := other), createdAt).items[n..] &&
      forall j :: n <= j < |q.items| ==>
        exists k :: p.addons.Selected(k) && q.items[j] == AddonItem(k) && q.items[j].amountPence == AddonPence(k)
  {
    var q := QuoteOf(p, createdAt);
    var q' := QuoteOf(p.(surfaceType := other), createdAt);
    var addons := AddonItems(AddonOrder, p.addons);
    var head := [BaseItem(p.service, p.surfaceType)] + SizeItems(p.service, p.surfaceType, q.areaSqm);
    var head' := [BaseItem(p.service, other)] + SizeItems(p.service, other, q'.areaSqm);
    assert q.items == head + addons && q'.items == head' + addons;
    var n := |head|;
    assert q.items[n..] == addons;
    assert q'.items[n..] == addons;
    forall j | n <= j < |q.items|
      ensures exists k :: p.addons.Selected(k) && q.items[j] == AddonItem(k) && q.items[j].amountPence == AddonPence(k)
    {
      AddonItemsAreFlatPrices(AddonOrder, p.addons, j - n);
      assert q.items[j] == addons[j - n];
    }
  }

  /** The subtotal is the item sum raised to the floor. The items themselves are left as they
      are: their sum is base + size + flat add-on prices, with no row for the floor. */
  lemma SubtotalIsFlooredSum(p: QuoteParams, createdAt: string)
    ensures var q := QuoteOf(p, createdAt);
      q.subtotal >= MinTotalPence &&
      (SumAmounts(q.items) >= MinTotalPence ==> q.subtotal == SumAmounts(q.items)) &&
      (SumAmounts(q.items) < MinTotalPence ==> q.subtotal == MinTotalPence) &&
      SumAmounts(q.items)
        == BaseAmount(p.service, p.surfaceType)
         + SumAmounts(SizeItems(p.service, p.surfaceType, q.areaSqm))
         + SumAmounts(AddonItems(AddonOrder, p.addons))
  {
    var q := QuoteOf(p, createdAt);
    var base := [BaseItem(p.service, p.surfaceType)];
    var sized := SizeItems(p.service, p.surfaceType, q.areaSqm);
    var addons := AddonItems(AddonOrder, p.addons);
    SumAmountsAppend(base + sized, addons);
    SumAmountsAppend(base, sized);
    assert SumAmounts(base) == BaseAmount(p.service, p.surfaceType) by {
      assert base[..0] == [];
    }
  }

  /** VAT is a fifth of the subtotal rounded, the total is subtotal plus VAT, and so every
      total is at least 30000 pence. */
  lemma VatAndTotal(p: QuoteParams, createdAt: string)
    ensures var q := QuoteOf(p, createdAt);
      q.vat == (q.subtotal + 2) / 5 &&
      q.total == q.subtotal + q.vat &&
      q.vat >= 5000 &&
      q.total >= 30000
  {
    var q := QuoteOf(p, createdAt);
    SubtotalIsFlooredSum(p, createdAt);
    RoundFifth(q.subtotal);
  }

  /** Only the surface, service, area and add-ons affect the price; contact details and notes
      do not. */
  lemma PriceIgnoresContactDetails(p: QuoteParams, r: QuoteParams, createdAt: string)
    requires p.surfaceType == r.surfaceType && p.service == r.service
    requires p.areaSqm == r.areaSqm && p.addons == r.addons
    ensures QuoteOf(p, createdAt) == QuoteOf(r, createdAt)
  {
  }

  // ---------------------------------------------------------------------------
  // Worked examples.

  const NoAddons := AddonSelection(false, false, false, false)

  function Params(surface: SurfaceType, service: ServiceType, area: real, sel: AddonSelection): QuoteParams
  {
    QuoteParams(surface, service, area, "", "", "", "", "", sel)
  }

  /** Driveway, resin bound, 40 m², no add-ons: 345000 / 69000 / 414000. */
  lemma ExampleDrivewayResinBound(createdAt: string)
    ensures var q := QuoteOf(Params(Driveway, ResinBound, 40.0, NoAddons), createdAt);
      q.areaSqm == 40 &&
      q.items == [LineItem("Resin bound surfacing — base", None, 45000),
                  LineItem("Resin bound surfacing — size", Some("40 m²"), 300000)] &&
      q.subtotal == 345000 && q.vat == 69000 && q.total == 414000
  {
    var p := Params(Driveway, ResinBound, 40.0, NoAddons);
    var q := QuoteOf(p, createdAt);
    RoundOfInt(40);
    assert q.areaSqm == 40;
    BaseChargeFirst(p, createdAt);
    SizeChargeIffPerSqmRate(p, createdAt);
    assert NatToDecimal(40) == "40";
    assert NatToDecimal(40) + " m²" == "40 m²";
    assert ServiceLabel(ResinBound) + " — base" == "Resin bound surfacing — base";
    assert ServiceLabel(ResinBound) + " — size" == "Resin bound surfacing — size";
    AddonItemsInCatalogueOrder(NoAddons);
    assert q.items == [q.items[0]] + [q.items[1]];
    SumAmountsAppend([q.items[0]], [q.items[1]]);
    assert SumAmounts([q.items[0]]) == 45000 by { assert [q.items[0]][..0] == []; }
    assert SumAmounts([q.items[1]]) == 300000 by { assert [q.items[1]][..0] == []; }
    VatAndTotal(p, createdAt);
  }

  /** Commercial area, free consultation, 200 m²: a single zero base row, floored to
      25000 / 5000 / 30000. */
  lemma ExampleCommercialConsultation(createdAt: string)
    ensures var q := QuoteOf(Params(Commercial, Consultation, 200.0, NoAddons), createdAt);
      q.areaSqm == 200 &&
      q.items == [LineItem("Free consultation — base", None, 0)] &&
      q.subtotal == 25000 && q.vat == 5000 && q.total == 30000
  {
    var p := Params(Commercial, Consultation, 200.0, NoAddons);
    var q := QuoteOf(p, createdAt);
    RoundOfInt(200);
    BaseChargeFirst(p, createdAt);
    AddonItemsInCatalogueOrder(NoAddons);
    assert ServiceLabel(Consultation) + " — base" == "Free consultation — base";
    assert q.items == [q.items[0]];
    assert SumAmounts(q.items) == 0 by { assert q.items[..0] == []; }
    VatAndTotal(p, createdAt);
  }

  /** The form's opening state: driveway, resin bound, 40 m², edging and skip selected. */
  lemma ExampleInitialForm(createdAt: string)
    ensures var q := QuoteOf(Params(Driveway, ResinBound, 40.0, AddonSelection(true, true, false, false)), createdAt);
      |q.items| == 4 &&
      q.items[2] == LineItem("Aluminium edging", None, 35000) &&
      q.items[3] == LineItem("Waste removal / skip", None, 24000) &&
      q.subtotal == 404000 && q.vat == 80800 && q.total == 484800
  {
    var sel := AddonSelection(true, true, false, false);
    var p := Params(Driveway, ResinBound, 40.0, sel);
    var q := QuoteOf(p, createdAt);
    RoundOfInt(40);
    BaseChargeFirst(p, createdAt);
    SizeChargeIffPerSqmRate(p, createdAt);
    AddonItemsInCatalogueOrder(sel);
    SubtotalIsFlooredSum(p, createdAt);
    var addons := AddonItems(AddonOrder, sel);
    assert addons == [AddonItem(Edging), AddonItem(Skip)];
    assert SumAmounts(addons) == 59000 by {
      assert addons[..1] == [AddonItem(Edging)] && addons[..1][..0] == [];
    }
    var sized := SizeItems(ResinBound, Driveway, 40);
    assert SumAmounts(sized) == 300000 by {
      SizeAmountExact(ResinBound, Driveway, 40);
      assert sized[..0] == [];
    }
    VatAndTotal(p, createdAt);
  }
}
