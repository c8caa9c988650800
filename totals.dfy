/**
 * The totals engine: total area, total price with its minimum, the free-shipping
 * flag and the progress bar value, recomputed from the carpet list.
 */
module TotalsEngine {
  import opened JsText
  import opened Types
  import CarpetCard

  /** The minimum order price, in lei. */
  const MinPrice: real := 100.0

  /** One step of the area `reduce`: the accumulator plus this carpet's area. */
  function AddArea(acc: real, c: Carpet): real
  {
    var l := LenientNumber(c.length);
    var w := LenientNumber(c.width);
    acc + CarpetCard.SquareMetres(l, w)
  }

  /** The left-to-right `reduce` of the carpet list, starting from 0. */
  function TotalArea(cs: seq<Carpet>): real
  {
    if |cs| == 0 then 0.0 else AddArea(TotalArea(cs[..|cs| - 1]), cs[|cs| - 1])
  }

  function Max(a: real, b: real): real { if a >= b then a else b }

  function Min(a: real, b: real): real { if a <= b then a else b }

  /** The totals memo of the calculator. */
  function ComputeTotals(cs: seq<Carpet>): (t: Totals)
    ensures t.totalArea == TotalArea(cs)
    ensures t.totalPrice == Max(t.totalArea * PricePerSqm, MinPrice) >= MinPrice
    ensures t.isFreeShipping <==> t.totalPrice >= FreeShippingThreshold
    ensures t.freeShippingThreshold == FreeShippingThreshold
    ensures t.progress == Min(t.totalPrice / FreeShippingThreshold * 100.0, 100.0)
    ensures 0.0 < t.progress <= 100.0
  {
    var totalArea := TotalArea(cs);
    var calculatedPrice := totalArea * PricePerSqm;
    var totalPrice := if calculatedPrice == 0.0 then MinPrice else Max(calculatedPrice, MinPrice);
    var isFreeShipping := totalPrice >= FreeShippingThreshold;
    var progress := Min((totalPrice / FreeShippingThreshold) * 100.0, 100.0);
    Totals(totalArea, totalPrice, isFreeShipping, FreeShippingThreshold, progress)
  }

  /** With the shipped constants the minimum price already reaches the threshold,
      so shipping is always free and the progress bar is always full. */
  lemma ShippingAlwaysFree(cs: seq<Carpet>)
    ensures ComputeTotals(cs).isFreeShipping
    ensures ComputeTotals(cs).progress == 100.0
  {
  }

  /** Above the minimum, the total price is exactly the area at the unit rate. */
  lemma PriceAboveMinimum(cs: seq<Carpet>)
    requires TotalArea(cs) * PricePerSqm >= MinPrice
    ensures ComputeTotals(cs).totalPrice == TotalArea(cs) * PricePerSqm
  {
  }

  /** Carpets whose length `parseFloat` cannot read add nothing to the area,
      so a list of them is priced at exactly the minimum. */
  lemma {:induction false} UnreadableCarpetsCostMinimum(cs: seq<Carpet>)
    requires forall k :: 0 <= k < |cs| ==> ParseFloat(cs[k].length).None?
    ensures TotalArea(cs) == 0.0
    ensures ComputeTotals(cs).totalPrice == MinPrice
  {
    if |cs| > 0 {
      UnreadableCarpetsCostMinimum(cs[..|cs| - 1]);
    }
  }

  /** The sum of the areas the carpet cards show, first card first. */
  function SumCardAreas(cs: seq<Carpet>): real
  {
    if |cs| == 0 then 0.0 else CarpetCard.Area(cs[0]) + SumCardAreas(cs[1..])
  }

  lemma {:induction false} SumCardAreasAppend(cs: seq<Carpet>, c: Carpet)
    ensures SumCardAreas(cs + [c]) == SumCardAreas(cs) + CarpetCard.Area(c)
  {
    if |cs| > 0 {
      assert (cs + [c])[1..] == cs[1..] + [c];
      SumCardAreasAppend(cs[1..], c);
    } else {
      assert [c][1..] == [];
    }
  }

  /** The total area is the sum of the areas on the cards. */
  lemma {:induction false} TotalAreaIsSumOfCards(cs: seq<Carpet>)
    ensures TotalArea(cs) == SumCardAreas(cs)
  {
    if |cs| > 0 {
      var init, last := cs[..|cs| - 1], cs[|cs| - 1];
      assert cs == init + [last];
      TotalAreaIsSumOfCards(init);
      SumCardAreasAppend(init, last);
      TotalAreaAppend(init, last);
    }
  }

  /** Appending a carpet adds exactly its card area to the total. */
  lemma TotalAreaAppend(cs: seq<Carpet>, c: Carpet)
    ensures TotalArea(cs + [c]) == TotalArea(cs) + CarpetCard.Area(c)
  {
    assert (cs + [c])[..|cs|] == cs;
  }

  /** Adding a carpet with a non-negative area never lowers the total price. */
  lemma AddingCarpetNeverLowersPrice(cs: seq<Carpet>, c: Carpet)
    requires CarpetCard.Area(c) >= 0.0
    ensures ComputeTotals(cs + [c]).totalPrice >= ComputeTotals(cs).totalPrice
  {
    TotalAreaAppend(cs, c);
  }
}
