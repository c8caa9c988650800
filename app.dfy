/**
 * The wizard shell: which screen is shown, the list of carpets and the order
 * data gathered along the way, and how each user action changes them.
 */
module App {
  import opened JsText
  import opened Types
  import CarpetCard
  import TotalsEngine
  import LocationForm

  /** The two dimension inputs of a carpet card. */
  datatype Dimension = LengthInput | WidthInput

  /** The actions the wizard reacts to. `AddCarpet` carries the identifier the
      browser's random generator produced. */
  datatype Event =
    | UpdateCarpet(id: string, field: Dimension, value: string)
    | AddCarpet(newId: string)
    | RemoveLastCarpet
    | Continue
    | SubmitLocation(contact: LocationForm.Contact)
    | SubmitSchedule(date: string)
    | Finish(observations: string)
    | Back
    | Restart

  datatype AppState = AppState(screen: AppScreen, carpets: seq<Carpet>, orderInfo: SchedulingData)

  const EmptyOrder: SchedulingData := SchedulingData("", "", "", "", "", "")

  /** The wizard as it opens: the calculator with a 250 x 200 cm carpet and an empty one. */
  const Initial: AppState :=
    AppState(Calculator, [Carpet("1", "250", "200"), Carpet("2", "", "")], EmptyOrder)

  /** The wizard after "new order": the calculator with a single empty carpet. */
  const Restarted: AppState := AppState(Calculator, [Carpet("1", "", "")], EmptyOrder)

  /** Whether the screen on show offers the action (a disabled button offers nothing). */
  predicate Enabled(s: AppState, e: Event)
  {
    match e
    case UpdateCarpet(_, _, _) => s.screen == Calculator
    case AddCarpet(_) => s.screen == Calculator
    case RemoveLastCarpet => s.screen == Calculator && |s.carpets| > 1
    case Continue => s.screen == Calculator
    case SubmitLocation(_) => s.screen == Location
    case SubmitSchedule(_) => s.screen == Scheduling
    case Finish(_) => s.screen == Observations
    case Back => s.screen == Location || s.screen == Scheduling || s.screen == Observations
    case Restart => s.screen == Success
  }

  /** One carpet with one dimension replaced. */
  function SetDimension(c: Carpet, field: Dimension, value: string): Carpet
  {
    match field
    case LengthInput => c.(length := value)
    case WidthInput => c.(width := value)
  }

  /** `updateCarpet`: every carpet with the identifier gets the new value in that
      dimension; the list keeps its length and order and nothing else changes. */
  function UpdateCarpets(cs: seq<Carpet>, id: string, field: Dimension, value: string): (r: seq<Carpet>)
    ensures |r| == |cs|
    ensures forall i :: 0 <= i < |cs| && cs[i].id != id ==> r[i] == cs[i]
    ensures forall i :: 0 <= i < |cs| && cs[i].id == id ==> r[i] == SetDimension(cs[i], field, value)
  {
    if |cs| == 0 then []
    else
      var head := if cs[0].id == id then SetDimension(cs[0], field, value) else cs[0];
      [head] + UpdateCarpets(cs[1..], id, field, value)
  }

  /** Editing a dimension keeps every identifier and the other dimension of every
      carpet, and sets the edited dimension exactly on the carpets with the identifier. */
  lemma UpdateChangesOnlyThatDimension(cs: seq<Carpet>, id: string, field: Dimension, value: string, i: int)
    requires 0 <= i < |cs|
    ensures var r := UpdateCarpets(cs, id, field, value);
      && r[i].id == cs[i].id
      && (field == LengthInput ==> r[i].width == cs[i].width &&
                                   r[i].length == (if cs[i].id == id then value else cs[i].length))
      && (field == WidthInput ==> r[i].length == cs[i].length &&
                                  r[i].width == (if cs[i].id == id then value else cs[i].width))
  {
  }

  /** The screen a back button leads to. */
  function PreviousScreen(screen: AppScreen): AppScreen
  {
    match screen
    case Location => Calculator
    case Scheduling => Location
    case Observations => Scheduling
    case _ => screen
  }

  /** The wizard after one action; an action the screen does not offer changes nothing. */
  function Step(s: AppState, e: Event): AppState
  {
    if !Enabled(s, e) then s
    else
      match e
      case UpdateCarpet(id, field, value) => s.(carpets := UpdateCarpets(s.carpets, id, field, value))
      case AddCarpet(newId) => s.(carpets := s.carpets + [Carpet(newId, "", "")])
      case RemoveLastCarpet =>
        if |s.carpets| > 1 then s.(carpets := s.carpets[..|s.carpets| - 1]) else s
      case Continue => s.(screen := Location)
      case SubmitLocation(c) =>
        s.(screen := Scheduling,
           orderInfo := s.orderInfo.(fullName := c.fullName, phone := c.phone, email := c.email, address := c.address))
      case SubmitSchedule(date) => s.(screen := Observations, orderInfo := s.orderInfo.(date := date))
      case Finish(_) => s.(screen := Success)
      case Back => s.(screen := PreviousScreen(s.screen))
      case Restart => Restarted
  }

  /** The wizard after a sequence of actions. */
  function Run(s: AppState, es: seq<Event>): AppState
    decreases |es|
  {
    if |es| == 0 then s else Run(Step(s, es[0]), es[1..])
  }

  /** The price summary of a state. */
  function StateTotals(s: AppState): Totals
  {
    TotalsEngine.ComputeTotals(s.carpets)
  }

  // ---------------------------------------------------------------------------
  // Properties of the flow

  /** The forward path calculator, location, scheduling, observations, success,
      the back edges, and the restart edge. */
  predicate Edge(from: AppScreen, to: AppScreen)
  {
    || (from == Calculator && to == Location)
    || (from == Location && to == Scheduling)
    || (from == Scheduling && to == Observations)
    || (from == Observations && to == Success)
    || (from == Location && to == Calculator)
    || (from == Scheduling && to == Location)
    || (from == Observations && to == Scheduling)
    || (from == Success && to == Calculator)
  }

  /** Every change of screen follows one of the edges; no screen is skipped. */
  lemma ScreenChangesFollowEdges(s: AppState, e: Event)
    ensures Step(s, e).screen != s.screen ==> Edge(s.screen, Step(s, e).screen)
  {
  }

  /** Going back changes the screen only: carpets and order data are kept. */
  lemma BackKeepsData(s: AppState)
    ensures Step(s, Back).carpets == s.carpets && Step(s, Back).orderInfo == s.orderInfo
    ensures Enabled(s, Back) ==> Step(s, Back).screen == PreviousScreen(s.screen) != s.screen
  {
  }

  /** The carpet list is never emptied. */
  lemma CarpetsNeverEmpty(s: AppState, e: Event)
    requires |s.carpets| >= 1
    ensures |Step(s, e).carpets| >= 1
  {
  }

  lemma {:induction false} RunKeepsCarpets(s: AppState, es: seq<Event>)
    requires |s.carpets| >= 1
    ensures |Run(s, es).carpets| >= 1
    decreases |es|
  {
    if |es| > 0 {
      CarpetsNeverEmpty(s, es[0]);
      RunKeepsCarpets(Step(s, es[0]), es[1..]);
    }
  }

  /** From the opening state, whatever the user does, at least one carpet remains. */
  lemma AlwaysACarpet(es: seq<Event>)
    ensures |Run(Initial, es).carpets| >= 1
  {
    RunKeepsCarpets(Initial, es);
  }

  /** Carpets change only on the calculator, apart from the restart. */
  lemma CarpetsChangeOnlyOnCalculator(s: AppState, e: Event)
    requires s.screen != Calculator && !e.Restart?
    ensures Step(s, e).carpets == s.carpets
  {
  }

  /** The location step records the contact and the address and keeps the date. */
  lemma LocationRecorded(s: AppState, c: LocationForm.Contact)
    requires s.screen == Location
    ensures var o := Step(s, SubmitLocation(c)).orderInfo;
      && o.fullName == c.fullName && o.phone == c.phone && o.email == c.email
      && o.address == c.address && o.date == s.orderInfo.date
      && o.observations == s.orderInfo.observations
  {
  }

  /** Finishing shows the success screen and stores nothing: the observations
      are not written into the order data. */
  lemma FinishStoresNothing(s: AppState, observations: string)
    requires s.screen == Observations
    ensures Step(s, Finish(observations)) == s.(screen := Success)
  {
  }

  /** "New order" forgets everything from the previous order. */
  lemma RestartForgets(s: AppState)
    requires s.screen == Success
    ensures Step(s, Restart) == Restarted
    ensures StateTotals(Step(s, Restart)).totalPrice == TotalsEngine.MinPrice
  {
    var after := Step(s, Restart);
    assert after == Restarted;
    RestartedCostsMinimum();
    assert StateTotals(after) == TotalsEngine.ComputeTotals(Restarted.carpets);
  }

  lemma RestartedCostsMinimum()
    ensures TotalsEngine.ComputeTotals(Restarted.carpets).totalPrice == TotalsEngine.MinPrice
  {
    var cs := Restarted.carpets;
    assert cs[0].length == "";
    ParseFloatOfBlank("");
    TotalsEngine.UnreadableCarpetsCostMinimum(cs);
  }

  /** Adding a carpet appends an empty card, which leaves the totals unchanged. */
  lemma AddCarpetKeepsTotals(s: AppState, newId: string)
    requires s.screen == Calculator
    ensures Step(s, AddCarpet(newId)).carpets == s.carpets + [Carpet(newId, "", "")]
    ensures StateTotals(Step(s, AddCarpet(newId))) == StateTotals(s)
  {
    var c := Carpet(newId, "", "");
    var after := s.carpets + [c];
    assert Step(s, AddCarpet(newId)).carpets == after;
    EmptyCarpetAddsNothing(s.carpets, c);
    SameAreaSameTotals(after, s.carpets);
  }

  lemma EmptyCarpetAddsNothing(cs: seq<Carpet>, c: Carpet)
    requires c.length == ""
    ensures TotalsEngine.TotalArea(cs + [c]) == TotalsEngine.TotalArea(cs)
  {
    CarpetCard.UnreadableDimensionGivesZero(c);
    TotalsEngine.TotalAreaAppend(cs, c);
  }

  /** The totals depend on the carpets only through their total area. */
  lemma SameAreaSameTotals(cs: seq<Carpet>, ds: seq<Carpet>)
    requires TotalsEngine.TotalArea(cs) == TotalsEngine.TotalArea(ds)
    ensures TotalsEngine.ComputeTotals(cs) == TotalsEngine.ComputeTotals(ds)
  {
  }

  /** Removing the last carpet takes exactly its area off the total. */
  lemma RemoveLastCarpetArea(s: AppState)
    requires s.screen == Calculator && |s.carpets| > 1
    ensures var after := Step(s, RemoveLastCarpet).carpets;
      && after + [s.carpets[|s.carpets| - 1]] == s.carpets
      && TotalsEngine.TotalArea(s.carpets) ==
         TotalsEngine.TotalArea(after) + CarpetCard.Area(s.carpets[|s.carpets| - 1])
  {
    var after := Step(s, RemoveLastCarpet).carpets;
    var last := s.carpets[|s.carpets| - 1];
    assert after + [last] == s.carpets;
    TotalsEngine.TotalAreaAppend(after, last);
  }

  /** The forward path from the opening state reaches the success screen with the
      contact, address and date recorded and the carpets untouched. */
  lemma OrderPath(c: LocationForm.Contact, date: string, observations: string)
    ensures var s := Run(Initial, [Continue, SubmitLocation(c), SubmitSchedule(date), Finish(observations)]);
      && s.screen == Success && s.carpets == Initial.carpets
      && s.orderInfo == SchedulingData(c.fullName, c.phone, c.email, c.address, date, "")
  {
    var es := [Continue, SubmitLocation(c), SubmitSchedule(date), Finish(observations)];
    var s1 := Step(Initial, Continue);
    var s2 := Step(s1, SubmitLocation(c));
    var s3 := Step(s2, SubmitSchedule(date));
    var s4 := Step(s3, Finish(observations));
    assert es[1..] == [SubmitLocation(c), SubmitSchedule(date), Finish(observations)];
    assert es[1..][1..] == [SubmitSchedule(date), Finish(observations)];
    assert es[1..][1..][1..] == [Finish(observations)];
    assert es[1..][1..][1..][1..] == [];
    assert Run(s4, []) == s4;
    assert Run(s3, es[1..][1..][1..]) == s4;
    assert Run(s2, es[1..][1..]) == s4;
    assert Run(s1, es[1..]) == s4;
    assert Run(Initial, es) == s4;
  }

  // ---------------------------------------------------------------------------
  // The wizard's state

  class Wizard {
    var screen: AppScreen
    var carpets: seq<Carpet>
    var orderInfo: SchedulingData

    function State(): AppState
      reads this
    {
      AppState(screen, carpets, orderInfo)
    }

    /** There is always at least one carpet. */
    ghost predicate Valid()
      reads this
    {
      |carpets| >= 1
    }

    /** The `totals` memo over the current carpets. */
    function CurrentTotals(): Totals
      reads this
    {
      TotalsEngine.ComputeTotals(carpets)
    }

    constructor ()
      ensures Valid() && State() == Initial
    {
      screen := Calculator;
      carpets := [Carpet("1", "250", "200"), Carpet("2", "", "")];
      orderInfo := EmptyOrder;
    }

    /** `updateCarpet`. */
    method UpdateCarpet(id: string, field: Dimension, value: string)
      requires Valid() && screen == Calculator
      modifies this
      ensures Valid() && State() == Step(old(State()), Event.UpdateCarpet(id, field, value))
    {
      var i := 0;
      var updated: seq<Carpet> := [];
      while i < |carpets|
        invariant 0 <= i <= |carpets| && |updated| == i
        invariant forall k :: 0 <= k < i && carpets[k].id != id ==> updated[k] == carpets[k]
        invariant forall k :: 0 <= k < i && carpets[k].id == id ==> updated[k] == SetDimension(carpets[k], field, value)
        invariant unchanged(this)
      {
        var c := if carpets[i].id == id then SetDimension(carpets[i], field, value) else carpets[i];
        updated := updated + [c];
        i := i + 1;
      }
      assert updated == UpdateCarpets(carpets, id, field, value);
      carpets := updated;
    }

    /** `addCarpet`, with the generated identifier given. */
    method AddCarpet(newId: string)
      requires Valid() && screen == Calculator
      modifies this
      ensures Valid() && State() == Step(old(State()), Event.AddCarpet(newId))
      ensures carpets == old(carpets) + [Carpet(newId, "", "")]
    {
      carpets := carpets + [Carpet(newId, "", "")];
    }

    /** `removeLastCarpet`: the last carpet is dropped unless it is the only one
        (the button is disabled then too). */
    method RemoveLastCarpet()
      requires Valid() && screen == Calculator
      modifies this
      ensures Valid() && State() == Step(old(State()), Event.RemoveLastCarpet)
      ensures |old(carpets)| > 1 ==> carpets == old(carpets)[..|old(carpets)| - 1]
      ensures |old(carpets)| <= 1 ==> carpets == old(carpets)
    {
      if |carpets| > 1 {
        carpets := carpets[..|carpets| - 1];
      }
    }

    /** The calculator's continue button. */
    method Continue()
      requires Valid() && screen == Calculator
      modifies this
      ensures Valid() && State() == Step(old(State()), Event.Continue)
      ensures screen == Location && carpets == old(carpets) && orderInfo == old(orderInfo)
    {
      screen := Location;
    }

    /** `handleLocationSubmit`. */
    method SubmitLocation(c: LocationForm.Contact)
      requires Valid() && screen == Location
      modifies this
      ensures Valid() && State() == Step(old(State()), Event.SubmitLocation(c))
    {
      orderInfo := orderInfo.(fullName := c.fullName, phone := c.phone, email := c.email, address := c.address);
      screen := Scheduling;
    }

    /** `handleSchedulingSubmit`. */
    method SubmitSchedule(date: string)
      requires Valid() && screen == Scheduling
      modifies this
      ensures Valid() && State() == Step(old(State()), Event.SubmitSchedule(date))
    {
      orderInfo := orderInfo.(date := date);
      screen := Observations;
    }

    /** `handleFinish`: the finished order is only logged; the screen becomes success. */
    method Finish(observations: string) returns (finalData: SchedulingData)
      requires Valid() && screen == Observations
      modifies this
      ensures Valid() && State() == Step(old(State()), Event.Finish(observations))
      ensures finalData == orderInfo.(observations := observations)
    {
      finalData := orderInfo.(observations := observations);
      screen := Success;
    }

    /** The back buttons of the location, scheduling and observations screens. */
    method Back()
      requires Valid() && (screen == Location || screen == Scheduling || screen == Observations)
      modifies this
      ensures Valid() && State() == Step(old(State()), Event.Back)
    {
      screen := PreviousScreen(screen);
    }

    /** The success screen's "new order" button. */
    method Restart()
      requires Valid() && screen == Success
      modifies this
      ensures Valid() && State() == Step(old(State()), Event.Restart)
    {
      carpets := [Carpet("1", "", "")];
      orderInfo := EmptyOrder;
      screen := Calculator;
    }
  }
}
