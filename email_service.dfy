/**
 * The order record sent to the mail script: an order number, the client data,
 * one line per highlighted carpet card and the totals.
 */
module EmailService {
  import opened Wrappers
  import opened JsText
  import opened Types
  import CarpetCard
  import TotalsEngine

  /** One carpet of the order as the e-mail lists it. */
  datatype CarpetLine = CarpetLine(index: nat, dims: string, area: real, price: real)

  datatype TotalsLine = TotalsLine(totalPrice: real, totalArea: real, shipping: string)

  datatype OrderDetails = OrderDetails(
    orderNumber: string,
    client: SchedulingData,
    carpets: seq<CarpetLine>,
    totals: TotalsLine)

  /** The shipping text for paid shipping. */
  const PaidShipping: string := "15.00 lei"

  /** `Math.floor(1000 + r * 9000)` for a draw `r` of `Math.random()`. */
  function OrderSerial(r: real): (n: nat)
    requires 0.0 <= r < 1.0
    ensures 1000 <= n <= 9999
  {
    (1000.0 + r * 9000.0).Floor
  }

  /** The order number `DBY-` followed by the four-digit serial. */
  function OrderNumber(r: real): string
    requires 0.0 <= r < 1.0
  {
    "DBY-" + NatToString(OrderSerial(r))
  }

  lemma FourDigitString(n: nat)
    requires 1000 <= n <= 9999
    ensures |NatToString(n)| == 4
  {
    var n1, n2, n3 := n / 10, n / 10 / 10, n / 10 / 10 / 10;
    assert 100 <= n1 <= 999 && 10 <= n2 <= 99 && 1 <= n3 <= 9;
    assert |NatToString(n3)| == 1;
    assert |NatToString(n2)| == |NatToString(n3)| + 1;
    assert |NatToString(n1)| == |NatToString(n2)| + 1;
    assert |NatToString(n)| == |NatToString(n1)| + 1;
  }

  /** Every order number is "DBY-" and four decimal digits whose value is the serial. */
  lemma OrderNumberShape(r: real)
    requires 0.0 <= r < 1.0
    ensures |OrderNumber(r)| == 8 && OrderNumber(r)[..4] == "DBY-"
    ensures AllDigits(OrderNumber(r)[4..]) && DigitsValue(OrderNumber(r)[4..]) == OrderSerial(r)
  {
    FourDigitString(OrderSerial(r));
    assert OrderNumber(r)[4..] == NatToString(OrderSerial(r));
  }

  /** The carpets whose card is highlighted (both dimensions positive), in order. */
  function ActiveCarpets(cs: seq<Carpet>): (r: seq<Carpet>)
    ensures |r| <= |cs|
    ensures forall k :: 0 <= k < |r| ==> CarpetCard.IsActive(r[k])
    ensures forall c :: c in r ==> c in cs
    ensures forall c :: c in cs && CarpetCard.IsActive(c) ==> c in r
    ensures IsSubsequence(r, cs)
    ensures forall c :: c in cs ==> multiset(r)[c] == if CarpetCard.IsActive(c) then multiset(cs)[c] else 0
  {
    FilterInOrder(cs, CarpetCard.IsActive);
    FilterCounts(cs, CarpetCard.IsActive);
    Filter(cs, CarpetCard.IsActive)
  }

  /** The line of one carpet: its raw dimensions, area and price. The carpet is
      highlighted, so `parseFloat` reads both dimensions as numbers and the line's
      area and price are those of the card. */
  function Line(c: Carpet, index: nat): CarpetLine
  {
    CarpetLine(index, c.length + "x" + c.width + " cm", CarpetCard.Area(c), CarpetCard.Price(c))
  }

  /** A listed carpet has a positive area and price. */
  lemma ListedLinePositive(c: Carpet, index: nat)
    requires CarpetCard.IsActive(c)
    ensures Line(c, index).area > 0.0 && Line(c, index).price > 0.0
  {
    CarpetCard.ActiveCardHasPositiveArea(c);
  }

  /** The lines of the carpets numbered from `first`. */
  function Lines(active: seq<Carpet>, first: nat): (lines: seq<CarpetLine>)
    ensures |lines| == |active|
    ensures forall i :: 0 <= i < |lines| ==> lines[i] == Line(active[i], first + i)
  {
    if |active| == 0 then [] else [Line(active[0], first)] + Lines(active[1..], first + 1)
  }

  /** The `orderDetails` record, with the draw for the order number given. */
  function OrderDetailsOf(cs: seq<Carpet>, t: Totals, client: SchedulingData, r: real): (d: OrderDetails)
    requires 0.0 <= r < 1.0
    ensures d.orderNumber == OrderNumber(r) && d.client == client
    ensures |d.carpets| == |ActiveCarpets(cs)| <= |cs|
    ensures forall i :: 0 <= i < |d.carpets| ==>
      && d.carpets[i].index == i + 1
      && d.carpets[i].dims == ActiveCarpets(cs)[i].length + "x" + ActiveCarpets(cs)[i].width + " cm"
      && d.carpets[i].area == CarpetCard.Area(ActiveCarpets(cs)[i])
      && d.carpets[i].price == CarpetCard.Price(ActiveCarpets(cs)[i])
    ensures d.totals.totalPrice == t.totalPrice && d.totals.totalArea == t.totalArea
    ensures d.totals.shipping == (if t.isFreeShipping then "Gratuit" else PaidShipping)
  {
    var shipping := if t.isFreeShipping then "Gratuit" else PaidShipping;
    OrderDetails(OrderNumber(r), client, Lines(ActiveCarpets(cs), 1), TotalsLine(t.totalPrice, t.totalArea, shipping))
  }

  /** Every carpet the e-mail lists has a positive area and price. */
  lemma ListedCarpetsPositive(cs: seq<Carpet>, t: Totals, client: SchedulingData, r: real, i: int)
    requires 0.0 <= r < 1.0 && 0 <= i < |OrderDetailsOf(cs, t, client, r).carpets|
    ensures OrderDetailsOf(cs, t, client, r).carpets[i].area > 0.0
    ensures OrderDetailsOf(cs, t, client, r).carpets[i].price > 0.0
  {
    var c := ActiveCarpets(cs)[i];
    ListedLinePositive(c, i + 1);
  }

  /** With the wizard's own totals the shipping line always reads "Gratuit". */
  lemma ShippingAlwaysFreeInMail(cs: seq<Carpet>, client: SchedulingData, r: real)
    requires 0.0 <= r < 1.0
    ensures OrderDetailsOf(cs, TotalsEngine.ComputeTotals(cs), client, r).totals.shipping == "Gratuit"
  {
    TotalsEngine.ShippingAlwaysFree(cs);
  }

  /** The sum of the areas the lines list. */
  function ListedArea(lines: seq<CarpetLine>): real
  {
    if |lines| == 0 then 0.0 else lines[0].area + ListedArea(lines[1..])
  }

  /** Neither dimension reads as a negative number. */
  predicate NoNegativeDimension(c: Carpet)
  {
    LenientNumber(c.length) >= 0.0 && LenientNumber(c.width) >= 0.0
  }

  /** A card that is not highlighted and has no negative dimension has area 0. */
  lemma InactiveCardAddsNothing(c: Carpet)
    requires !CarpetCard.IsActive(c) && NoNegativeDimension(c)
    ensures CarpetCard.Area(c) == 0.0
  {
    if !CarpetCard.IsPositive(c.length) {
      assert LenientNumber(c.length) == 0.0;
    } else {
      assert LenientNumber(c.width) == 0.0;
    }
  }

  lemma {:induction false} ActiveCarpetsKeepArea(cs: seq<Carpet>)
    requires forall k :: 0 <= k < |cs| ==> NoNegativeDimension(cs[k])
    ensures TotalsEngine.SumCardAreas(ActiveCarpets(cs)) == TotalsEngine.SumCardAreas(cs)
  {
    if |cs| > 0 {
      ActiveCarpetsKeepArea(cs[1..]);
      if CarpetCard.IsActive(cs[0]) {
        assert ActiveCarpets(cs) == [cs[0]] + ActiveCarpets(cs[1..]);
        assert ([cs[0]] + ActiveCarpets(cs[1..]))[1..] == ActiveCarpets(cs[1..]);
      } else {
        InactiveCardAddsNothing(cs[0]);
      }
    }
  }

  /** Lines whose areas are the cards' areas list the cards' total area. */
  lemma {:induction false} ListedAreaOfCards(lines: seq<CarpetLine>, cards: seq<Carpet>)
    requires |lines| == |cards|
    requires forall i :: 0 <= i < |lines| ==> lines[i].area == CarpetCard.Area(cards[i])
    ensures ListedArea(lines) == TotalsEngine.SumCardAreas(cards)
  {
    if |lines| > 0 {
      ListedAreaOfCards(lines[1..], cards[1..]);
    }
  }

  lemma ListedAreaOfLines(active: seq<Carpet>, first: nat)
    ensures ListedArea(Lines(active, first)) == TotalsEngine.SumCardAreas(active)
  {
    var lines := Lines(active, first);
    forall i | 0 <= i < |lines| ensures lines[i].area == CarpetCard.Area(active[i]) {
      assert lines[i] == Line(active[i], first + i);
    }
    ListedAreaOfCards(lines, active);
  }

  /** When no dimension is negative, the areas the e-mail lists add up to the
      total area the wizard shows, although cards that are not highlighted are
      left out of the list. */
  lemma ListedAreaIsTotalArea(cs: seq<Carpet>, client: SchedulingData, r: real)
    requires 0.0 <= r < 1.0
    requires forall k :: 0 <= k < |cs| ==> NoNegativeDimension(cs[k])
    ensures ListedArea(OrderDetailsOf(cs, TotalsEngine.ComputeTotals(cs), client, r).carpets)
         == TotalsEngine.ComputeTotals(cs).totalArea
  {
    ListedAreaOfLines(ActiveCarpets(cs), 1);
    ActiveCarpetsKeepArea(cs);
    TotalsEngine.TotalAreaIsSumOfCards(cs);
  }

  /** A card with two negative dimensions is left out of the e-mail, yet its
      positive area is counted in the total. */
  lemma NegativeCardCountedButNotListed()
    ensures var c := Carpet("1", "-50", "-50");
      && ActiveCarpets([c]) == []
      && TotalsEngine.TotalArea([c]) == 0.25
  {
    var c := Carpet("1", "-50", "-50");
    NegativeFiftyReading();
    assert !CarpetCard.IsActive(c);
    assert TotalsEngine.TotalArea([c]) == CarpetCard.Area(c) by {
      TotalsEngine.TotalAreaAppend([], c);
      assert [] + [c] == [c];
    }
  }

  lemma NegativeFiftyReading()
    ensures ParseFloat("-50") == Some(-50.0) && LenientNumber("-50") == -50.0
  {
    ParseFloatOfNatString(50);
    assert NatToString(50) == "50";
    ParseFloatOfNegative("50");
    assert ['-'] + "50" == "-50";
  }
}
