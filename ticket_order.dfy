/**
 The ticket order form of the festival landing page, as values: the two fare
 classes and their prices, the clamped ticket counters, the four contact
 fields, and everything the page derives from them (the total, the submit
 guard, the quantity-button guards and the order summary chips).

 The mutable form that holds this state is in module TicketOrderForm; its
 methods are specified by the transition functions defined here.
 */
module TicketOrder {

  datatype Option<+T> = None | Some(value: T)

  /** The two ticket kinds of the form. */
  datatype FareClass = Adult | Child

  /** The four named inputs of the "Your Details" card. */
  datatype Field = FirstName | LastName | Email | Phone

  const MinTickets: int := 0
  const MaxTickets: int := 10
  const AdultPrice: int := 25
  const ChildPrice: int := 0

  /** JavaScript's Math.max on two integers. */
  function Max(a: int, b: int): (r: int)
    ensures r >= a && r >= b
    ensures r == a || r == b
  {
    if a >= b then a else b
  }

  /** JavaScript's Math.min on two integers. */
  function Min(a: int, b: int): (r: int)
    ensures r <= a && r <= b
    ensures r == a || r == b
  {
    if a <= b then a else b
  }

  predicate InRange(q: int) {
    MinTickets <= q <= MaxTickets
  }

  /** The expression `Math.max(0, Math.min(10, x))` applied to every new counter value. */
  function Clamp(x: int): (r: int)
    ensures InRange(r)
    ensures InRange(x) ==> r == x
    ensures x < MinTickets ==> r == MinTickets
    ensures x > MaxTickets ==> r == MaxTickets
  {
    Max(MinTickets, Min(MaxTickets, x))
  }

  /** The `formData` record: four free-text fields, stored verbatim. */
  datatype Contact = Contact(firstName: string, lastName: string, email: string, phone: string)

  const EmptyContact: Contact := Contact("", "", "", "")

  /** The value of the input named by `f`. */
  function Get(c: Contact, f: Field): string {
    match f
    case FirstName => c.firstName
    case LastName => c.lastName
    case Email => c.email
    case Phone => c.phone
  }

  /** The record `{ ...c, [f]: v }`: field `f` replaced, the other three copied. */
  function WithField(c: Contact, f: Field, v: string): (r: Contact)
    ensures Get(r, f) == v
    ensures forall g :: g != f ==> Get(r, g) == Get(c, g)
  {
    match f
    case FirstName => c.(firstName := v)
    case LastName => c.(lastName := v)
    case Email => c.(email := v)
    case Phone => c.(phone := v)
  }

  /** Two contact records that agree on every field are the same record. */
  lemma ContactExtensionality(c: Contact, d: Contact)
    requires forall f :: Get(c, f) == Get(d, f)
    ensures c == d
  {
    assert Get(c, FirstName) == Get(d, FirstName);
    assert Get(c, LastName) == Get(d, LastName);
    assert Get(c, Email) == Get(d, Email);
    assert Get(c, Phone) == Get(d, Phone);
  }

  /** The whole state of the form component: the two counters and the contact record. */
  datatype FormState = FormState(adultTickets: int, childTickets: int, formData: Contact)

  /** The state when the page mounts. */
  const Initial: FormState := FormState(0, 0, EmptyContact)

  /** Both counters lie in [0, 10]. */
  predicate Valid(s: FormState) {
    InRange(s.adultTickets) && InRange(s.childTickets)
  }

  function Quantity(s: FormState, c: FareClass): int {
    match c
    case Adult => s.adultTickets
    case Child => s.childTickets
  }

  function Other(c: FareClass): (o: FareClass)
    ensures o != c
  {
    match c
    case Adult => Child
    case Child => Adult
  }

  /** The derived `totalPrice`. */
  function TotalPrice(s: FormState): int {
    s.adultTickets * AdultPrice + s.childTickets * ChildPrice
  }

  /** The `disabled` condition of the "Proceed to Payment" button; an empty string is falsy. */
  predicate SubmitDisabled(s: FormState) {
    TotalPrice(s) == 0 || s.formData.firstName == "" || s.formData.lastName == ""
    || s.formData.email == "" || s.formData.phone == ""
  }

  predicate Submittable(s: FormState) {
    !SubmitDisabled(s)
  }

  /** `handleQuantityChange(c, delta)`: only the counter of class `c` moves, clamped to [0, 10]. */
  function AfterQuantityChange(s: FormState, c: FareClass, delta: int): (r: FormState)
    ensures Quantity(r, c) == Max(MinTickets, Min(MaxTickets, Quantity(s, c) + delta))
    ensures InRange(Quantity(r, c))
    ensures Quantity(r, Other(c)) == Quantity(s, Other(c))
    ensures r.formData == s.formData
  {
    match c
    case Adult => s.(adultTickets := Clamp(s.adultTickets + delta))
    case Child => s.(childTickets := Clamp(s.childTickets + delta))
  }

  /** `handleInputChange` for the input named `f` with value `v`. */
  function AfterInput(s: FormState, f: Field, v: string): (r: FormState)
    ensures Get(r.formData, f) == v
    ensures forall g :: g != f ==> Get(r.formData, g) == Get(s.formData, g)
    ensures r.adultTickets == s.adultTickets && r.childTickets == s.childTickets
  {
    s.(formData := WithField(s.formData, f, v))
  }

  /** The `disabled` condition of the minus button of a class (lines 430 and 470). */
  predicate DecrementDisabled(q: int) {
    q == 0
  }

  /** The `disabled` condition of the plus button of a class (lines 441 and 481). */
  predicate IncrementDisabled(q: int) {
    q >= 10
  }

  // ---------------------------------------------------------------------------
  // Sequences of user events

  /** One user interaction the form reacts to: a plus/minus click or a keystroke in an input. */
  datatype Event = QuantityChange(fare: FareClass, delta: int) | InputChange(field: Field, value: string)

  function Apply(s: FormState, e: Event): FormState {
    match e
    case QuantityChange(c, d) => AfterQuantityChange(s, c, d)
    case InputChange(f, v) => AfterInput(s, f, v)
  }

  /** The state after handling the events in order, each to completion before the next. */
  function Run(s: FormState, es: seq<Event>): FormState
    decreases |es|
  {
    if es == [] then s else Run(Apply(s, es[0]), es[1..])
  }

  predicate TouchesAdult(e: Event) {
    e.QuantityChange? && e.fare == Adult
  }

  // ---------------------------------------------------------------------------
  // The order summary

  /** The price part of a chip: a euro amount, or the literal "Free". */
  datatype PriceLabel = Euros(amount: int) | Free

  /** One summary chip: "<count>x <class>" and its price label. */
  datatype Chip = Chip(fare: FareClass, count: int, price: PriceLabel)

  /** The summary area: the "Select tickets above" placeholder, or a row of chips. */
  datatype Summary = Placeholder | Chips(chips: seq<Chip>)

  predicate ShowChip(s: FormState, c: FareClass) {
    Quantity(s, c) > 0
  }

  function ChipFor(s: FormState, c: FareClass): Chip {
    match c
    case Adult => Chip(Adult, s.adultTickets, Euros(s.adultTickets * AdultPrice))
    case Child => Chip(Child, s.childTickets, Free)
  }

  function OrderSummary(s: FormState): Summary {
    if s.adultTickets > 0 || s.childTickets > 0 then
      Chips((if ShowChip(s, Adult) then [ChipFor(s, Adult)] else [])
            + (if ShowChip(s, Child) then [ChipFor(s, Child)] else []))
    else
      Placeholder
  }

  // ---------------------------------------------------------------------------
  // Submission

  /** What `handleSubmit` hands on: the counters, the contact record and the total. */
  datatype OrderIntent = OrderIntent(adultTickets: int, childTickets: int, formData: Contact, totalPrice: int)

  // ---------------------------------------------------------------------------
  // Properties

  /** At the lower bound a -1 change is a no-op, and the minus button is disabled exactly there. */
  lemma DecrementAtZero(s: FormState, c: FareClass)
    requires Valid(s)
    ensures DecrementDisabled(Quantity(s, c)) <==> AfterQuantityChange(s, c, -1) == s
    ensures !DecrementDisabled(Quantity(s, c)) ==>
              Quantity(AfterQuantityChange(s, c, -1), c) == Quantity(s, c) - 1
  {
  }

  /** At the upper bound a +1 change is a no-op, and the plus button is disabled exactly there. */
  lemma IncrementAtTen(s: FormState, c: FareClass)
    requires Valid(s)
    ensures IncrementDisabled(Quantity(s, c)) <==> AfterQuantityChange(s, c, 1) == s
    ensures !IncrementDisabled(Quantity(s, c)) ==>
              Quantity(AfterQuantityChange(s, c, 1), c) == Quantity(s, c) + 1
  {
  }

  /** Child tickets never change the total: it is 25 per adult ticket. */
  lemma TotalIsAdultsTimesPrice(s: FormState)
    ensures TotalPrice(s) == AdultPrice * s.adultTickets
    ensures Valid(s) ==> 0 <= TotalPrice(s) <= MaxTickets * AdultPrice
    ensures forall k :: TotalPrice(s.(childTickets := k)) == TotalPrice(s)
  {
  }

  /** The submit guard, restated: at least one adult ticket and no empty contact field. */
  lemma SubmittableIff(s: FormState)
    ensures Submittable(s) <==>
              s.adultTickets != 0 && forall f :: Get(s.formData, f) != ""
  {
    TotalIsAdultsTimesPrice(s);
    if s.adultTickets != 0 {
      assert TotalPrice(s) != 0;
    }
    if forall f :: Get(s.formData, f) != "" {
      assert Get(s.formData, FirstName) != "" && Get(s.formData, LastName) != "";
      assert Get(s.formData, Email) != "" && Get(s.formData, Phone) != "";
    } else {
      var f :| Get(s.formData, f) == "";
      assert SubmitDisabled(s);
    }
  }

  /** An order of free child tickets only can never be submitted, whatever the contact details. */
  lemma ChildOnlyNeverSubmittable(s: FormState)
    requires s.adultTickets == 0
    ensures !Submittable(s)
  {
  }

  /** The page starts valid, with everything zero and empty, and not submittable. */
  lemma InitialState()
    ensures Valid(Initial)
    ensures forall c :: Quantity(Initial, c) == 0
    ensures forall f :: Get(Initial.formData, f) == ""
    ensures TotalPrice(Initial) == 0 && !Submittable(Initial)
    ensures OrderSummary(Initial) == Placeholder
  {
  }

  /** Repeating the same input change gives the same state as doing it once; the last write wins. */
  lemma InputLastWriteWins(s: FormState, f: Field, v: string, w: string)
    ensures AfterInput(AfterInput(s, f, v), f, w) == AfterInput(s, f, w)
    ensures AfterInput(AfterInput(s, f, v), f, v) == AfterInput(s, f, v)
  {
  }

  /** Editing two different inputs commutes. */
  lemma InputsCommute(s: FormState, f: Field, v: string, g: Field, w: string)
    requires f != g
    ensures AfterInput(AfterInput(s, f, v), g, w) == AfterInput(AfterInput(s, g, w), f, v)
  {
  }

  /** Writing back the value an input already has changes nothing. */
  lemma InputSameValueIsNoOp(s: FormState, f: Field)
    ensures AfterInput(s, f, Get(s.formData, f)) == s
  {
  }

  /**
   Every chip appears exactly when its class has tickets, with that class's count and
   label, and the adult chip comes before the child chip.
   */
  lemma SummaryChips(s: FormState)
    requires Valid(s)
    ensures OrderSummary(s) == Placeholder <==> s.adultTickets == 0 && s.childTickets == 0
    ensures OrderSummary(s).Chips? ==> 1 <= |OrderSummary(s).chips| <= 2
    ensures OrderSummary(s).Chips? ==>
              forall i :: 0 <= i < |OrderSummary(s).chips| ==>
                var chip := OrderSummary(s).chips[i];
                chip.count == Quantity(s, chip.fare) && chip.count > 0
                && chip.price == (if chip.fare == Adult then Euros(chip.count * AdultPrice) else Free)
    ensures OrderSummary(s).Chips? ==>
              forall c :: Quantity(s, c) > 0 ==>
                exists i :: 0 <= i < |OrderSummary(s).chips| && OrderSummary(s).chips[i].fare == c
    ensures OrderSummary(s).Chips? ==>
              forall i, j :: 0 <= i < j < |OrderSummary(s).chips| ==>
                OrderSummary(s).chips[i].fare == Adult && OrderSummary(s).chips[j].fare == Child
  {
    var sm := OrderSummary(s);
    if sm.Chips? {
      forall c | Quantity(s, c) > 0
        ensures exists i :: 0 <= i < |sm.chips| && sm.chips[i].fare == c
      {
        var last := |sm.chips| - 1;
        if c == Adult {
          assert sm.chips[0].fare == Adult;
        } else {
          assert sm.chips[last].fare == Child;
        }
      }
    }
  }

  /** Whatever events arrive, with whatever deltas, both counters stay in [0, 10]. */
  lemma {:induction false} RunKeepsValid(s: FormState, es: seq<Event>)
    requires Valid(s)
    ensures Valid(Run(s, es))
    decreases |es|
  {
    if es != [] {
      var t := Apply(s, es[0]);
      assert Valid(t) by {
        if es[0].QuantityChange? {
          var c := es[0].fare;
          assert InRange(Quantity(t, c)) && Quantity(t, Other(c)) == Quantity(s, Other(c));
          match c
          case Adult =>
          case Child =>
        }
      }
      RunKeepsValid(t, es[1..]);
    }
  }

  /** Events that never touch the adult counter leave it as it was. */
  lemma {:induction false} RunWithoutAdultChanges(s: FormState, es: seq<Event>)
    requires forall i :: 0 <= i < |es| ==> !TouchesAdult(es[i])
    ensures Run(s, es).adultTickets == s.adultTickets
    decreases |es|
  {
    if es != [] {
      var t := Apply(s, es[0]);
      assert !TouchesAdult(es[0]);
      assert t.adultTickets == s.adultTickets;
      assert forall i :: 0 <= i < |es[1..]| ==> !TouchesAdult(es[1..][i]) by {
        forall i | 0 <= i < |es[1..]| ensures !TouchesAdult(es[1..][i]) {
          assert es[1..][i] == es[i + 1];
        }
      }
      RunWithoutAdultChanges(t, es[1..]);
    }
  }

  /** From the initial state, no sequence of child-ticket clicks and inputs enables submission. */
  lemma NoAdultTicketsNeverSubmittable(es: seq<Event>)
    requires forall i :: 0 <= i < |es| ==> !TouchesAdult(es[i])
    ensures !Submittable(Run(Initial, es))
  {
    RunWithoutAdultChanges(Initial, es);
  }

  /** Fresh form, adult +1 three times: three adult tickets and a total of 75. */
  lemma ThreeAdultClicks()
    ensures var s := Run(Initial, [QuantityChange(Adult, 1), QuantityChange(Adult, 1), QuantityChange(Adult, 1)]);
            s.adultTickets == 3 && s.childTickets == 0 && TotalPrice(s) == 75
  {
  }
}
