# Festival ticket order form

A model of the ticket order form on the festival landing page (`Home` in
`src/app/page.tsx`). The form holds two ticket counters, one for adults and
one for children. Each counter is clamped to 0..10 on every change. The form
also holds a contact record of four free-text fields: first name, last name,
email and phone. From this state the page derives three things: the total
price (25 euros per adult ticket, children free), the guard that enables the
"Proceed to Payment" button, and the summary chips shown above it.

Two modules:

- `TicketOrder` (`ticket_order.dfy`) holds the state as a value (`FormState`).
  It defines the two event handlers as transition functions
  (`AfterQuantityChange`, `AfterInput`), and the derived total, submit guard,
  button guards and order summary as functions. It also defines the replay of
  a sequence of user events (`Run`), and proves the lemmas over all of these.
- `TicketOrderForm` (`ticket_order_form.dfy`) holds the class `OrderForm`. Its
  fields are updated in place, as the component's state setters do. Each
  handler method is specified by the matching transition function. `Submit`
  returns the order intent, or nothing while the submit button is disabled.
  Two client methods replay end-to-end scenarios against the class.

JavaScript numbers are modelled as unbounded integers. The quantity delta may
be any integer, not only +1 or -1.

## Model

| member | source | states |
|---|---|---|
| TicketOrder.Max | src/app/page.tsx:31 | `Math.max` of two integers: at least both arguments and equal to one of them |
| TicketOrder.Min | src/app/page.tsx:31 | `Math.min` of two integers: at most both arguments and equal to one of them |
| TicketOrder.Clamp | src/app/page.tsx:29-35 | `max(0, min(10, x))` always lies in [0, 10]; it is `x` when `x` is in range, 0 below, 10 above |
| TicketOrder.WithField | src/app/page.tsx:38-41 | the spread update `{...formData, [name]: value}` sets the named field to the value verbatim and copies the other three |
| TicketOrder.ContactExtensionality | src/app/page.tsx:18-23 | two contact records with the same four field values are equal |
| TicketOrder.Other | src/app/page.tsx:29-34 | the `else` branch of the fare-class test picks the other class |
| TicketOrder.AfterQuantityChange | src/app/page.tsx:29-35 | the chosen counter becomes `max(0, min(10, prev + delta))`, so it lies in [0, 10]; the other counter and the contact record are unchanged |
| TicketOrder.AfterInput | src/app/page.tsx:37-42 | the named field becomes the value; the other three fields and both counters are unchanged |
| TicketOrder.DecrementAtZero | src/app/page.tsx:427-482 | in a valid state, a -1 change is a no-op exactly when the minus button is disabled (count 0), for the adult and the child minus buttons alike; otherwise it lowers the count by one |
| TicketOrder.IncrementAtTen | src/app/page.tsx:427-482 | in a valid state, a +1 change is a no-op exactly when the plus button is disabled (count 10 or more), for the adult and the child plus buttons alike; otherwise it raises the count by one |
| TicketOrder.TotalIsAdultsTimesPrice | src/app/page.tsx:25-27 | the total is 25 times the adult count; changing the child count never changes it; in a valid state it lies in [0, 250] |
| TicketOrder.SubmittableIff | src/app/page.tsx:598 | submission is enabled iff the adult count is non-zero and all four contact fields are non-empty |
| TicketOrder.ChildOnlyNeverSubmittable | src/app/page.tsx:598 | with no adult tickets the form is never submittable, whatever the child count and contact fields |
| TicketOrder.InitialState | src/app/page.tsx:16-23 | the mounted form has both counters 0 and four empty fields, total 0, is not submittable and shows the placeholder |
| TicketOrder.InputLastWriteWins | src/app/page.tsx:37-42 | two changes of the same input equal the last one alone; repeating the same change is idempotent |
| TicketOrder.InputsCommute | src/app/page.tsx:37-42 | changes to two different inputs can be applied in either order |
| TicketOrder.InputSameValueIsNoOp | src/app/page.tsx:37-42 | writing back an input's current value leaves the state unchanged |
| TicketOrder.SummaryChips | src/app/page.tsx:562-578 | the placeholder shows iff both counts are 0; every chip carries its class's count, which is positive, and every class with tickets has a chip; the adult chip comes before the child chip; the adult chip is labelled `count * 25` euros and the child chip "Free" |
| TicketOrder.RunKeepsValid | src/app/page.tsx:29-42 | after any sequence of quantity and input events, with any deltas, both counters stay in [0, 10] |
| TicketOrder.RunWithoutAdultChanges | src/app/page.tsx:29-42 | events that do not change the adult count leave it as it was |
| TicketOrder.NoAdultTicketsNeverSubmittable | src/app/page.tsx:598 | from the mounted form, no sequence of child clicks and inputs ever enables submission |
| TicketOrder.ThreeAdultClicks | src/app/page.tsx:16-35 | from the mounted form, three adult +1 clicks give 3 adult tickets and a total of 75 |
| TicketOrderForm.OrderForm.constructor | src/app/page.tsx:16-23 | the new form is the initial state and satisfies the counter invariant |
| TicketOrderForm.OrderForm.ChangeQuantity | src/app/page.tsx:29-35 | the in-place update keeps both counters in [0, 10] and leaves the state `AfterQuantityChange` of the old state |
| TicketOrderForm.OrderForm.UpdateField | src/app/page.tsx:37-42 | the in-place update keeps the invariant and leaves the state `AfterInput` of the old state |
| TicketOrderForm.OrderForm.Submit | src/app/page.tsx:44-48 | an intent is produced iff the form is submittable (given an email address the browser accepts); it is the snapshot of both counters, the contact record and the total, `25 * adultTickets` |
| TicketOrderForm.TwoAdultsCheckout | src/app/page.tsx:16-48 | two adult clicks and four filled fields yield the intent (2, 0, contact, 50) |
| TicketOrderForm.ChildOnlyCheckout | src/app/page.tsx:16-48 | five child clicks and any contact record yield no intent, since the total is 0 |

## Left out

- `handleSubmit`'s `preventDefault`, its `console.log` and the payment hand-off it stands in for: these are I/O and an external payment service. `Submit` returns the intent instead of logging it.
- OrderForm.Submit: the handler at page.tsx:44-48 has no guard of its own. It runs only when the form's submit event fires, and the submit button is disabled by the condition at page.tsx:598. The model puts that condition into `Submit`, which returns `None` when the button is disabled.
- OrderForm.Submit: the browser's own constraint validation is not modelled. The email input has `type="email"` (page.tsx:531), and the form at page.tsx:407 has no `noValidate`. So a non-empty but malformed address such as "abc" enables the button, yet the browser blocks the submit event and `handleSubmit` never runs. The `<==` direction of `intent.Some? <==> Submittable(View())` therefore holds only when the address passes the browser's email-format check. The model also stores input values as typed, whereas the browser strips leading and trailing whitespace from an email input's value. The `required` attributes (page.tsx:509, 521, 533, 545) reject only empty fields, which the button guard already rejects.
- Input names: the handler writes whatever key the input's `name` carries. The form only has the four inputs named at page.tsx:508, 520, 532 and 544, so the field name is the four-valued `Field` type.
- The `setFormData` call spreads the `formData` captured at the last render, not the latest value. If React batched two input events into one render, the first write would be lost. The model handles events one at a time, with a render between them.
- JavaScript numbers are IEEE doubles. Fractional, NaN and infinite deltas are not modelled; the buttons pass only +1 and -1.
- The rendered markup, animation, layout and static content of the page and of the other components are not modelled. This includes the "€20" price text in the header, which is display copy only.
