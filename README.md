# Booking widget of the salon site, modelled in Dafny

The salon's landing page has a four-step booking widget (`BookingSection`).
The customer picks a service from a five-entry catalog, then a day on a
calendar, then a time slot, and then types a name, e-mail and phone number.
The widget asks an externally configured webhook for the day's slots and
posts the finished booking to the same webhook. The component keeps its
state in ten fields and changes them in four handlers plus a few inline
setters. This project models that state machine and proves what the
handlers and the render guards promise.

- `booking.dfy`, module `Booking`: the values. These are the service
  catalog and its duration lookup (`services.find`), time slots, the fixed
  fallback slot list, the webhook's replies, the two request payloads, and
  the calendar's disabled-day rule (days before now, and Sundays).
- `booking_flow.dfy`, module `BookingFlow`: the ten fields as a `Draft`
  value and each handler as a function from one draft to the next. It also
  holds the render guards that decide which step and which slot buttons are
  on screen, and a session model: a sequence of customer events, delivered
  only when their control is enabled. `Inv` is the invariant every reachable
  draft keeps. The session lemmas are proved from it.
- `booking_widget.dfy`, module `BookingWidget`: the component as a class
  with the ten fields. Each handler is a method that updates the fields one
  setter at a time. Its `ensures` state the new fields, and also tie
  `Snapshot()` to the matching `BookingFlow` function.

Network calls are parameters. A slot query is answered by a `SlotsReply`:
success with a slot list, success without a `slots` field, or failure. A
booking is answered by a `ConfirmReply`. The three handlers that can post
(`FetchAvailableSlots`, `HandleDateSelect`, `HandleConfirmBooking`) return
the request they post, or `None` when nothing is posted; `ClickSlot` returns
whether the slot's time was taken. Each handler runs to completion
before the next event. A JavaScript `Date` is an `Instant`: milliseconds
since the epoch in local time. `getDay()` is the floor of the day number
plus four, modulo seven, because 1970-01-01 was a Thursday.

Points where the component's behaviour is easy to misread:

- The code has no Next/Back buttons and no WhatsApp link. The steps appear
  as soon as the field before them is set.
- The fallback list marks 11:00 as the one unavailable slot.
- A successful booking keeps the webhook URL and does not touch the
  slot-loading flag. It is not a complete return to the initial state.
  From a reachable draft, though, it is the initial state with the URL kept
  (`ConfirmedBookingRestarts`).

The calendar rule compares the picked day's midnight with the current
instant. So the current day is refused too, unless the clock reads exactly
midnight (`TodayDisabledAfterMidnight`).

## Model

| member | source | states |
|---|---|---|
| `Booking.Catalog` | src/components/BookingSection.tsx:34-40 | the catalog holds five services |
| `Booking.FindService` | src/components/BookingSection.tsx:57 | `find` yields nothing iff no entry has the id; otherwise the first entry with that id |
| `Booking.ServiceDuration` | src/components/BookingSection.tsx:57-69 | the duration sent is the catalog duration for a known id and 60 for an unknown id |
| `Booking.CatalogDurations` | src/components/BookingSection.tsx:34-40 | the five ids have durations 60, 120, 180, 90 and 90 |
| `Booking.FallbackSlots` | src/components/BookingSection.tsx:82-89 | the fallback list has six slots |
| `Booking.FallbackOnlyElevenBlocked` | src/components/BookingSection.tsx:82-89 | in the fallback list, a slot is unavailable exactly when it is 11:00 |
| `Booking.SlotsAfterReply` | src/components/BookingSection.tsx:73-89 | after a reply the list is the returned slots, or empty when none came back, or the fallback list on failure |
| `Booking.WeekDay` | src/components/BookingSection.tsx:226 | `getDay()` is a weekday number from 0 to 6 |
| `Booking.WeekDayPeriodic` | src/components/BookingSection.tsx:226 | the weekday repeats every seven days, so a disabled Sunday recurs weekly |
| `Booking.WeekDayNext` | src/components/BookingSection.tsx:226 | each day's weekday is the previous day's plus one, Saturday (6) wrapping to Sunday (0) |
| `Booking.WeekDayCalendar` | src/components/BookingSection.tsx:226 | weekday 0 is Sunday: the epoch gives 4 (Thursday) and 2024-01-07 gives 0 |
| `Booking.DateDisabled` | src/components/BookingSection.tsx:226 | a day before now is refused, a Sunday is refused whatever the current instant, and any other refused day lies before now |
| `Booking.DisabledStaysDisabled` | src/components/BookingSection.tsx:226 | a day refused at some instant is refused at every later instant |
| `Booking.TodayDisabledAfterMidnight` | src/components/BookingSection.tsx:226 | the current day is disabled iff now is past its midnight or the day is a Sunday |
| `BookingFlow.ServiceChanged` | src/components/BookingSection.tsx:42-48 | a service change sets the service, clears date, time and slots, and keeps every other field |
| `BookingFlow.SlotsFetched` | src/components/BookingSection.tsx:50-93 | without a webhook URL nothing changes and nothing is posted; otherwise one query goes out with the date, the id and its duration, the reply decides the list, and the loading flag ends false |
| `BookingFlow.DateSelected` | src/components/BookingSection.tsx:95-101 | the date is set and the time cleared; slots are queried only when a date is given and a service is set, and otherwise the slot list is kept |
| `BookingFlow.DraftComplete` | src/components/BookingSection.tsx:104 | a draft that passes the blocking test has all six fields filled and shows all four steps |
| `BookingFlow.BookingOf` | src/components/BookingSection.tsx:122-132 | the booking payload carries the draft's service id, date, time, name, e-mail and phone |
| `BookingFlow.Cleared` | src/components/BookingSection.tsx:139-146 | the reset empties service, date, time, slots and the three client fields, so only step 1 shows; the URL and both flags are kept |
| `BookingFlow.ShowsDateStep` | src/components/BookingSection.tsx:216 | step 2 is shown iff a service is set, and in a reachable draft that service is in the catalog |
| `BookingFlow.ShowsTimeStep` | src/components/BookingSection.tsx:234 | step 3 is shown iff a date is set, and in a reachable draft step 2 is shown too |
| `BookingFlow.ShowsSlotButtons` | src/components/BookingSection.tsx:239-246 | slot buttons show only inside step 3, and between events whenever step 3 shows |
| `BookingFlow.ShowsClientStep` | src/components/BookingSection.tsx:267 | step 4 is shown iff a time is set, and in a reachable draft step 3 is shown and the time is an available slot's |
| `BookingFlow.SlotButtonEnabled` | src/components/BookingSection.tsx:250-251 | a slot button can be pressed only when it is on screen and its slot is available |
| `BookingFlow.Enabled` | src/components/BookingSection.tsx:201-311 | each event needs its control on screen: a picked date is a local midnight, neither before now nor a Sunday, a clicked slot is available, typing and confirming need step 4, confirming needs no submission in flight |
| `BookingFlow.BookingConfirmed` | src/components/BookingSection.tsx:103-154 | nothing is posted iff a draft field or the webhook URL is empty, and then nothing changes; otherwise the booking carries the draft's fields, success clears the draft, failure keeps it, and the submitting flag ends false |
| `BookingFlow.InitialInv` | src/components/BookingSection.tsx:23-32 | the initial state satisfies the widget invariant |
| `BookingFlow.StepPreservesInv` | src/components/BookingSection.tsx:42-154 | every handler reached through its on-screen control keeps the invariant: no busy flag, a catalog service, a date only under a service and never a Sunday, a time only under a date and only as an available slot's time |
| `BookingFlow.RunPreservesInv` | src/components/BookingSection.tsx:216-267 | every session keeps the invariant |
| `BookingFlow.StepsAppearInOrder` | src/components/BookingSection.tsx:216-267 | in every reachable state, step 4 is shown only with step 3, and step 3 only with step 2 |
| `BookingFlow.SelectedDateNeverSunday` | src/components/BookingSection.tsx:226 | in every reachable state the selected date is not a Sunday |
| `BookingFlow.PostedBookingIsOffered` | src/components/BookingSection.tsx:103-133 | from a reachable state, a posted booking names a catalog service and a time the slot list offers as available |
| `BookingFlow.QueriedDurationIsCatalogs` | src/components/BookingSection.tsx:57-69 | from a reachable state, a slot query carries the catalog duration of the chosen service |
| `BookingFlow.ServiceChangeOverrides` | src/components/BookingSection.tsx:42-48 | two service changes in a row leave the same draft as the second one alone |
| `BookingFlow.ConfirmedBookingRestarts` | src/components/BookingSection.tsx:139-146 | a successful booking from a reachable state leaves the initial state, with the webhook URL kept |
| `BookingFlow.FailedBookingRetries` | src/components/BookingSection.tsx:148-153 | a failed booking keeps the draft, so the same booking can be sent again |
| `BookingWidget.BookingSection.constructor` | src/components/BookingSection.tsx:23-32 | the ten fields start empty, unset or false, and the state satisfies the invariant |
| `BookingWidget.BookingSection.HandleServiceChange` | src/components/BookingSection.tsx:42-48 | sets the service and clears date, time and slots; name, e-mail, phone, webhook URL and both flags are unchanged |
| `BookingWidget.BookingSection.FetchAvailableSlots` | src/components/BookingSection.tsx:50-93 | with no webhook URL, no request goes out and no field changes; otherwise the request carries the date, the id and its duration, the slots are those of the reply, and loading ends false |
| `BookingWidget.BookingSection.HandleDateSelect` | src/components/BookingSection.tsx:95-101 | sets the date and clears the time; a request goes out only with a date, a service and a URL; slots are kept when no query is made |
| `BookingWidget.BookingSection.ClickSlot` | src/components/BookingSection.tsx:246-251 | a slot's time is taken iff its button is on screen and the slot is available; otherwise nothing changes |
| `BookingWidget.BookingSection.SetClientName` | src/components/BookingSection.tsx:279-280 | only the client's name changes |
| `BookingWidget.BookingSection.SetClientEmail` | src/components/BookingSection.tsx:291-292 | only the client's e-mail changes |
| `BookingWidget.BookingSection.SetClientPhone` | src/components/BookingSection.tsx:303-304 | only the client's phone changes |
| `BookingWidget.BookingSection.SetWebhookUrl` | src/components/BookingSection.tsx:190-191 | only the webhook URL changes |
| `BookingWidget.BookingSection.HandleConfirmBooking` | src/components/BookingSection.tsx:103-154 | blocks and changes nothing iff a draft field or the URL is empty; otherwise posts the draft's fields; success empties service, date, time, name, e-mail, phone and slots; failure keeps the draft; submitting ends false; the URL is kept |
| `BookingWidget.BookingSection.Dispatch` | src/components/BookingSection.tsx:201-311 | an event delivered through its enabled control moves the fields exactly as the session model's step, and keeps the invariant |

## Left out

- Rendering, CSS classes, animations, toasts and console logging: these are presentation only.
- The `fetch` calls, JSON encoding and decoding, and the `toISOString().split('T')[0]` date formatting. Each reply is an input. Each request is a record of the values it carries, and the record's name stands for its constant `action` field.
- A `slots` field that is truthy but not an array of slots: the reply type admits only a slot list or nothing.
- Overlapping requests, and the moments while a request is in flight (the spinner, the confirm button disabled while submitting). Every handler runs to completion, so both busy flags are false between events.
- Time zones: an `Instant` is already local time.
- The clock: every date pick carries its own `now`, an unconstrained input that need not move forward between events. The session model therefore admits more picks than a real clock would, for example a past weekday picked with `now` set to that day. No lemma relies on the clock moving forward.
- The calendar widget's own behaviour: it hands over local midnight, it never calls the handler for a disabled day, and clicking the picked day again clears it. The service selector offers only catalog ids and reports a choice only when it differs from the current service, so re-picking the same service changes nothing. These are assumptions in `BookingFlow.Enabled`, not proved facts.
- The e-mail sending function under `supabase/functions` and the other page components: they forward requests or only render, with no logic of their own.
- Next/Back buttons and a WhatsApp link: the component's code has neither.
