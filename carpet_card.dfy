/** The area and price one carpet card shows, and whether the card is highlighted. */
module CarpetCard {
  import opened Wrappers
  import opened JsText
  import opened Types

  /** The area in square metres of a carpet measured in centimetres. */
  function SquareMetres(lengthCm: real, widthCm: real): real
  {
    (lengthCm / 100.0) * (widthCm / 100.0)
  }

  /** The card's area: both dimensions read with `parseFloat(x) || 0`. */
  function Area(c: Carpet): real
  {
    SquareMetres(LenientNumber(c.length), LenientNumber(c.width))
  }

  /** The card's price: its area at the unit rate, with no minimum. */
  function Price(c: Carpet): real
  {
    Area(c) * PricePerSqm
  }

  /** A dimension that `parseFloat` reads as a positive number. */
  predicate IsPositive(dimension: string)
  {
    var p := ParseFloat(dimension);
    p.Some? && p.value > 0.0
  }

  /** The card is highlighted when both dimensions are positive numbers. */
  predicate IsActive(c: Carpet)
  {
    IsPositive(c.length) && IsPositive(c.width)
  }

  /** Whole centimetre dimensions give area (l/100)(w/100) and price area * 20. */
  lemma AreaOfWholeDimensions(id: string, l: nat, w: nat)
    ensures Area(Carpet(id, NatToString(l), NatToString(w))) == (l as real / 100.0) * (w as real / 100.0)
    ensures Price(Carpet(id, NatToString(l), NatToString(w))) == (l as real / 100.0) * (w as real / 100.0) * 20.0
  {
    ParseFloatOfNatString(l);
    ParseFloatOfNatString(w);
  }

  /** An empty or non-numeric dimension makes the card's area and price 0. */
  lemma UnreadableDimensionGivesZero(c: Carpet)
    requires || (forall i :: 0 <= i < |c.length| ==> !IsDigit(c.length[i]))
             || (forall i :: 0 <= i < |c.width| ==> !IsDigit(c.width[i]))
    ensures Area(c) == 0.0 && Price(c) == 0.0
  {
    if forall i :: 0 <= i < |c.length| ==> !IsDigit(c.length[i]) {
      ParseFloatWithoutDigits(c.length);
    } else {
      ParseFloatWithoutDigits(c.width);
    }
  }

  /** A dimension read as a positive number keeps that value under `parseFloat(x) || 0`. */
  lemma PositiveReading(dimension: string)
    requires IsPositive(dimension)
    ensures LenientNumber(dimension) > 0.0
  {
    var p := ParseFloat(dimension);
    assert LenientNumber(dimension) == p.value;
  }

  lemma PositiveSquareMetres(l: real, w: real)
    requires l > 0.0 && w > 0.0
    ensures SquareMetres(l, w) > 0.0 && SquareMetres(l, w) * PricePerSqm > 0.0
  {
    var x, y := l / 100.0, w / 100.0;
    assert x > 0.0 && y > 0.0;
    assert x * y > 0.0;
  }

  /** A highlighted card has a positive area and price. */
  lemma ActiveCardHasPositiveArea(c: Carpet)
    requires IsActive(c)
    ensures Area(c) > 0.0 && Price(c) > 0.0
  {
    PositiveReading(c.length);
    PositiveReading(c.width);
    PositiveSquareMetres(LenientNumber(c.length), LenientNumber(c.width));
  }
}
