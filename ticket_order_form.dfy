/**
 The ticket order form as the page holds it: mutable counters and a contact
 record that the event handlers overwrite in place. Each handler is specified
 by the matching transition function of module TicketOrder.
 */
module TicketOrderForm {
  import opened TicketOrder

  class OrderForm {
    var adultTickets: int
    var childTickets: int
    var formData: Contact

    /** The current state as a value. */
    function View(): FormState
      reads this
    {
      FormState(adultTickets, childTickets, formData)
    }

    /** The object invariant: both counters in [0, 10]. */
    predicate Valid()
      reads this
    {
      TicketOrder.Valid(View())
    }

    /** The form as it mounts: no tickets, four empty fields. */
    constructor ()
      ensures Valid()
      ensures View() == Initial
    {
      adultTickets := 0;
      childTickets := 0;
      formData := EmptyContact;
    }

    /** `handleQuantityChange`: a plus or minus click, or any other integer step. */
    method ChangeQuantity(c: FareClass, delta: int)
      requires Valid()
      modifies this
      ensures Valid()
      ensures View() == AfterQuantityChange(old(View()), c, delta)
    {
      if c == Adult {
        adultTickets := Clamp(adultTickets + delta);
      } else {
        childTickets := Clamp(childTickets + delta);
      }
    }

    /** `handleInputChange` for the input named `f`, whose new value is `v`. */
    method UpdateField(f: Field, v: string)
      requires Valid()
      modifies this
      ensures Valid()
      ensures View() == AfterInput(old(View()), f, v)
    {
      formData := WithField(formData, f, v);
    }

    /**
     `handleSubmit`, reachable only through the submit button: while the button is
     disabled nothing is handed on; otherwise the order intent is a snapshot of the form.
     */
    method Submit() returns (intent: Option<OrderIntent>)
      ensures intent.Some? <==> Submittable(View())
      ensures intent.Some? ==>
                intent.value.adultTickets == adultTickets
                && intent.value.childTickets == childTickets
                && intent.value.formData == formData
                && intent.value.totalPrice == AdultPrice * adultTickets
    {
      if SubmitDisabled(View()) {
        intent := None;
      } else {
        intent := Some(OrderIntent(adultTickets, childTickets, formData, TotalPrice(View())));
      }
    }
  }

  /**
   Two adult tickets and a filled contact record: the order can be submitted and the
   intent carries both counters, the contact record and a total of 50.
   */
  method TwoAdultsCheckout(contact: Contact) returns (intent: Option<OrderIntent>)
    requires forall f :: Get(contact, f) != ""
    ensures intent == Some(OrderIntent(2, 0, contact, 50))
  {
    var form := new OrderForm();
    form.ChangeQuantity(Adult, 1);
    form.ChangeQuantity(Adult, 1);
    form.UpdateField(FirstName, contact.firstName);
    form.UpdateField(LastName, contact.lastName);
    form.UpdateField(Email, contact.email);
    form.UpdateField(Phone, contact.phone);
    ContactExtensionality(form.formData, contact);
    SubmittableIff(form.View());
    intent := form.Submit();
  }

  /** Five free child tickets and a filled contact record: the total is 0 and nothing is submitted. */
  method ChildOnlyCheckout(contact: Contact) returns (intent: Option<OrderIntent>)
    ensures intent == None
  {
    var form := new OrderForm();
    form.ChangeQuantity(Child, 1);
    form.ChangeQuantity(Child, 1);
    form.ChangeQuantity(Child, 1);
    form.ChangeQuantity(Child, 1);
    form.ChangeQuantity(Child, 1);
    form.UpdateField(FirstName, contact.firstName);
    form.UpdateField(LastName, contact.lastName);
    form.UpdateField(Email, contact.email);
    form.UpdateField(Phone, contact.phone);
    intent := form.Submit();
  }
}
