/**
  The booking widget's draft as a value, the widget's handlers as functions
  from one draft to the next, the render guards that decide which controls a
  draft shows, and the invariant every reachable draft keeps.
 */
module BookingFlow {
  import opened Booking

  /** The widget's ten pieces of state. */
  datatype Draft = Draft(
    service: string,
    date: Option<Instant>,
    slots: seq<TimeSlot>,
    time: string,
    loadingSlots: bool,
    submitting: bool,
    clientName: string,
    clientEmail: string,
    clientPhone: string,
    webhookUrl: string)

  /** The draft after a handler ran, and the request it posted, if any. */
  datatype Transition<R> = Transition(draft: Draft, request: Option<R>)

  function Initial(): Draft {
    Draft("", None, [], "", false, false, "", "", "", "")
  }

  // ---------------------------------------------------------------- handlers

  /** Picking a service resets the date, the time and the slot list. */
  function ServiceChanged(d: Draft, value: string): (r: Draft)
    ensures r.service == value && r.date.None? && r.time == "" && r.slots == []
    ensures r.(service := d.service, date := d.date, time := d.time, slots := d.slots) == d
  {
    d.(service := value, date := None, time := "", slots := [])
  }

  /**
    Asking the webhook for the slots of `date`: nothing happens without a
    webhook URL; otherwise one query is posted and its reply decides the list.
   */
  function SlotsFetched(d: Draft, date: Instant, serviceId: string, reply: SlotsReply): (t: Transition<SlotsRequest>)
    ensures d.webhookUrl == "" ==> t == Transition(d, None)
    ensures d.webhookUrl != "" ==>
      && t.request == Some(SlotsRequest(date, serviceId, ServiceDuration(serviceId)))
      && t.draft == d.(slots := SlotsAfterReply(reply), loadingSlots := false)
  {
    if d.webhookUrl == "" then Transition(d, None)
    else
      var loading := d.(loadingSlots := true);
      var request := SlotsRequest(date, serviceId, ServiceDuration(serviceId));
      Transition(loading.(slots := SlotsAfterReply(reply), loadingSlots := false), Some(request))
  }

  /**
    Picking (or clearing) a date clears the time; the slots are queried only
    when a date was picked and a service is set.
   */
  function DateSelected(d: Draft, date: Option<Instant>, reply: SlotsReply): (t: Transition<SlotsRequest>)
    ensures t.draft.date == date && t.draft.time == ""
    ensures date.Some? && d.service != "" ==>
      t == SlotsFetched(d.(date := date, time := ""), date.value, d.service, reply)
    ensures date.None? || d.service == "" ==> t == Transition(d.(date := date, time := ""), None)
  {
    var d1 := d.(date := date, time := "");
    if date.Some? && d.service != "" then SlotsFetched(d1, date.value, d.service, reply)
    else Transition(d1, None)
  }

  /** Every field the booking needs is filled in; then all four steps are on screen. */
  function DraftComplete(d: Draft): (complete: bool)
    ensures complete ==> ShowsDateStep(d) && ShowsTimeStep(d) && ShowsClientStep(d)
    ensures complete ==> d.clientName != "" && d.clientEmail != "" && d.clientPhone != ""
  {
    d.service != "" && d.date.Some? && d.time != ""
    && d.clientName != "" && d.clientEmail != "" && d.clientPhone != ""
  }

  /**
    The `confirm_booking` payload: `servico_id`, `data`, `horario` and the
    client's `nome`, `email` and `telefone` are taken from the draft.
   */
  function BookingOf(d: Draft): (b: BookingRequest)
    requires d.date.Some?
    ensures b.serviceId == d.service && b.date == d.date.value && b.time == d.time
    ensures b.clientName == d.clientName && b.clientEmail == d.clientEmail && b.clientPhone == d.clientPhone
  {
    BookingRequest(d.service, d.date.value, d.time, d.clientName, d.clientEmail, d.clientPhone)
  }

  /**
    The draft with everything the customer entered cleared: only step 1 is on
    screen again, and the webhook URL and both flags are kept.
   */
  function Cleared(d: Draft): (r: Draft)
    ensures !ShowsDateStep(r) && !ShowsTimeStep(r) && !ShowsClientStep(r) && r.slots == []
    ensures r.clientName == "" && r.clientEmail == "" && r.clientPhone == ""
    ensures r.webhookUrl == d.webhookUrl && r.loadingSlots == d.loadingSlots && r.submitting == d.submitting
  {
    d.(service := "", date := None, time := "", clientName := "", clientEmail := "", clientPhone := "", slots := [])
  }

  /**
    Confirming: an incomplete draft or a missing webhook URL blocks it; else
    the booking is posted, a success clears the draft and a failure keeps it.
   */
  function BookingConfirmed(d: Draft, reply: ConfirmReply): (t: Transition<BookingRequest>)
    ensures t.request.None? <==> !DraftComplete(d) || d.webhookUrl == ""
    ensures t.request.None? ==> t.draft == d
    ensures t.request.Some? ==> t.request.value == BookingOf(d)
    ensures t.request.Some? && reply.ConfirmOk? ==> t.draft == Cleared(d).(submitting := false)
    ensures t.request.Some? && reply.ConfirmFailed? ==> t.draft == d.(submitting := false)
  {
    if !DraftComplete(d) then Transition(d, None)
    else if d.webhookUrl == "" then Transition(d, None)
    else
      var sending := d.(submitting := true);
      var request := BookingOf(d);
      match reply
      case ConfirmOk => Transition(Cleared(sending).(submitting := false), Some(request))
      case ConfirmFailed => Transition(sending.(submitting := false), Some(request))
  }

  // ----------------------------------------------------------- render guards

  /** Step 2, the calendar, is shown once a service is set; in a reachable draft it is a catalog service. */
  function ShowsDateStep(d: Draft): (shown: bool)
    ensures shown && Inv(d) ==> IsCatalogId(d.service)
  {
    d.service != ""
  }

  /** Step 3, the time slots, is shown once a date is set; in a reachable draft step 2 is shown too. */
  function ShowsTimeStep(d: Draft): (shown: bool)
    ensures shown && Inv(d) ==> ShowsDateStep(d)
  {
    d.date.Some?
  }

  /** The slot buttons replace the spinner once the slots are loaded. */
  function ShowsSlotButtons(d: Draft): (shown: bool)
    ensures shown ==> ShowsTimeStep(d)
    ensures Inv(d) ==> (shown <==> ShowsTimeStep(d))
  {
    ShowsTimeStep(d) && !d.loadingSlots
  }

  /** Step 4, the client's data and the confirm button, is shown once a time is set; in a reachable draft step 3 is shown too. */
  function ShowsClientStep(d: Draft): (shown: bool)
    ensures shown && Inv(d) ==> ShowsTimeStep(d) && TimeOffered(d.slots, d.time)
  {
    d.time != ""
  }

  /** The slot button at `i` is on screen and enabled: a slot button is disabled unless its slot is available. */
  function SlotButtonEnabled(d: Draft, i: nat): (enabled: bool)
    ensures enabled ==> ShowsTimeStep(d) && i < |d.slots| && d.slots[i].available
    ensures enabled ==> TimeOffered(d.slots, d.slots[i].time)
  {
    ShowsSlotButtons(d) && i < |d.slots| && d.slots[i].available
  }

  // ------------------------------------------------------------ user events

  /** What the customer can do, with the webhook's answer where one is awaited. */
  datatype Event =
    | ChooseService(value: string)
    | PickDate(date: Option<Instant>, now: Instant, slotsReply: SlotsReply)
    | ClickSlot(index: nat)
    | TypeName(name: string)
    | TypeEmail(email: string)
    | TypePhone(phone: string)
    | TypeWebhookUrl(url: string)
    | PressConfirm(confirmReply: ConfirmReply)

  /** The event's control is on screen and enabled in draft `d`. */
  function Enabled(d: Draft, e: Event): (enabled: bool)
    ensures enabled && e.PickDate? ==> ShowsDateStep(d)
    ensures enabled && e.PickDate? && e.date.Some? ==>
      e.date.value % MsPerDay == 0 && e.now <= e.date.value && WeekDay(e.date.value) != 0
    ensures enabled && e.ClickSlot? ==> e.index < |d.slots| && d.slots[e.index].available
    ensures enabled && (e.TypeName? || e.TypeEmail? || e.TypePhone? || e.PressConfirm?) ==> ShowsClientStep(d)
    ensures enabled && e.PressConfirm? ==> !d.submitting
  {
    match e
    case ChooseService(value) => IsCatalogId(value) && value != d.service
    case PickDate(date, now, _) =>
      ShowsDateStep(d) && (date.None? || (date.value % MsPerDay == 0 && !DateDisabled(date.value, now)))
    case ClickSlot(i) => SlotButtonEnabled(d, i)
    case TypeName(_) => ShowsClientStep(d)
    case TypeEmail(_) => ShowsClientStep(d)
    case TypePhone(_) => ShowsClientStep(d)
    case TypeWebhookUrl(_) => true
    case PressConfirm(_) => ShowsClientStep(d) && !d.submitting
  }

  /** The draft after the handler of an enabled event ran to completion. */
  function Step(d: Draft, e: Event): Draft
    requires Enabled(d, e)
  {
    match e
    case ChooseService(value) => ServiceChanged(d, value)
    case PickDate(date, _, reply) => DateSelected(d, date, reply).draft
    case ClickSlot(i) => d.(time := d.slots[i].time)
    case TypeName(name) => d.(clientName := name)
    case TypeEmail(email) => d.(clientEmail := email)
    case TypePhone(phone) => d.(clientPhone := phone)
    case TypeWebhookUrl(url) => d.(webhookUrl := url)
    case PressConfirm(reply) => BookingConfirmed(d, reply).draft
  }

  /** Runs a session: events whose control is not enabled are not delivered. */
  function Run(d: Draft, events: seq<Event>): Draft
    decreases |events|
  {
    if events == [] then d
    else
      var next := if Enabled(d, events[0]) then Step(d, events[0]) else d;
      Run(next, events[1..])
  }

  // -------------------------------------------------------------- invariant

  /** `time` is the time of an available slot in `slots`. */
  predicate TimeOffered(slots: seq<TimeSlot>, time: string) {
    exists i :: 0 <= i < |slots| && slots[i].time == time && slots[i].available
  }

  /**
    Between events no request is in flight, the service is a catalog entry,
    a date is set only under a service and is never a Sunday, and a time only
    under a date and only as the time of an available slot.
   */
  predicate Inv(d: Draft) {
    && !d.loadingSlots && !d.submitting
    && (d.service != "" ==> IsCatalogId(d.service))
    && (d.date.Some? ==> d.service != "" && WeekDay(d.date.value) != 0)
    && (d.time != "" ==> d.date.Some? && TimeOffered(d.slots, d.time))
  }

  lemma InitialInv()
    ensures Inv(Initial())
  {}

  lemma StepPreservesInv(d: Draft, e: Event)
    requires Inv(d) && Enabled(d, e)
    ensures Inv(Step(d, e))
  {}

  /** Every draft a session can reach from the start keeps the invariant. */
  lemma {:induction false} RunPreservesInv(d: Draft, events: seq<Event>)
    requires Inv(d)
    ensures Inv(Run(d, events))
    decreases |events|
  {
    if events != [] {
      var next := if Enabled(d, events[0]) then Step(d, events[0]) else d;
      if Enabled(d, events[0]) { StepPreservesInv(d, events[0]); }
      RunPreservesInv(next, events[1..]);
    }
  }

  /** The steps appear in order: step 4 only under step 3, step 3 only under step 2. */
  lemma StepsAppearInOrder(events: seq<Event>)
    ensures var d := Run(Initial(), events);
      && (ShowsClientStep(d) ==> ShowsTimeStep(d))
      && (ShowsTimeStep(d) ==> ShowsDateStep(d))
  {
    RunPreservesInv(Initial(), events);
  }

  /** In a reachable draft, the selected date is never a Sunday. */
  lemma SelectedDateNeverSunday(events: seq<Event>)
    ensures var d := Run(Initial(), events);
      d.date.Some? ==> WeekDay(d.date.value) != 0
  {
    RunPreservesInv(Initial(), events);
  }

  /**
    In a reachable draft, a posted booking names a catalog service and a time
    that the slot list offers as available.
   */
  lemma PostedBookingIsOffered(events: seq<Event>, reply: ConfirmReply)
    ensures var d := Run(Initial(), events);
      var t := BookingConfirmed(d, reply);
      t.request.Some? ==> IsCatalogId(t.request.value.serviceId) && TimeOffered(d.slots, t.request.value.time)
  {
    RunPreservesInv(Initial(), events);
  }

  /** In a reachable draft, a slot query sends the catalog duration of the chosen service. */
  lemma QueriedDurationIsCatalogs(events: seq<Event>, date: Instant, reply: SlotsReply)
    ensures var d := Run(Initial(), events);
      var t := DateSelected(d, Some(date), reply);
      t.request.Some? ==> exists i :: 0 <= i < |Catalog()| && Catalog()[i].id == d.service
                                     && t.request.value.durationMinutes == Catalog()[i].duration
  {
    RunPreservesInv(Initial(), events);
  }

  // ---------------------------------------------------- handler properties

  /** A later service choice overrides an earlier one completely. */
  lemma ServiceChangeOverrides(d: Draft, v: string, w: string)
    ensures ServiceChanged(ServiceChanged(d, v), w) == ServiceChanged(d, w)
  {}

  /** A successful booking from a reachable draft returns the widget to its start, keeping the webhook URL. */
  lemma ConfirmedBookingRestarts(d: Draft, reply: ConfirmReply)
    requires Inv(d) && reply.ConfirmOk?
    ensures var t := BookingConfirmed(d, reply);
      t.request.Some? ==> t.draft == Initial().(webhookUrl := d.webhookUrl)
  {}

  /** A failed booking can be sent again unchanged. */
  lemma FailedBookingRetries(d: Draft)
    requires Inv(d)
    ensures var t := BookingConfirmed(d, ConfirmFailed);
      t.draft == d && BookingConfirmed(t.draft, ConfirmFailed) == t
  {}
}
