/**
  The booking section component: its ten state fields and its handlers, each
  run to completion (the webhook's answer is a parameter, the request the
  handler posts is returned).
 */
module BookingWidget {
  import opened Booking
  import opened BookingFlow

  class BookingSection {
    var selectedService: string
    var selectedDate: Option<Instant>
    var availableSlots: seq<TimeSlot>
    var selectedTime: string
    var isLoadingSlots: bool
    var isSubmitting: bool
    var clientName: string
    var clientEmail: string
    var clientPhone: string
    var webhookUrl: string

    /** The component's state as a value. */
    function Snapshot(): Draft
      reads this
    {
      Draft(selectedService, selectedDate, availableSlots, selectedTime, isLoadingSlots,
            isSubmitting, clientName, clientEmail, clientPhone, webhookUrl)
    }

    /** Every field starts empty, unset or false. */
    constructor ()
      ensures Snapshot() == Initial()
      ensures Inv(Snapshot())
    {
      selectedService, selectedDate, availableSlots, selectedTime := "", None, [], "";
      isLoadingSlots, isSubmitting := false, false;
      clientName, clientEmail, clientPhone, webhookUrl := "", "", "", "";
    }

    /** The service selector's change handler. */
    method HandleServiceChange(value: string)
      modifies this
      ensures selectedService == value && selectedDate.None? && selectedTime == "" && availableSlots == []
      ensures clientName == old(clientName) && clientEmail == old(clientEmail)
      ensures clientPhone == old(clientPhone) && webhookUrl == old(webhookUrl)
      ensures isLoadingSlots == old(isLoadingSlots) && isSubmitting == old(isSubmitting)
      ensures Snapshot() == ServiceChanged(old(Snapshot()), value)
    {
      selectedService := value;
      selectedDate := None;
      selectedTime := "";
      availableSlots := [];
    }

    /** Queries the webhook for the slots of `date`; the webhook answers `reply`. */
    method FetchAvailableSlots(date: Instant, serviceId: string, reply: SlotsReply)
      returns (request: Option<SlotsRequest>)
      modifies this
      ensures old(webhookUrl) == "" ==> request.None? && Snapshot() == old(Snapshot())
      ensures old(webhookUrl) != "" ==>
        && request == Some(SlotsRequest(date, serviceId, ServiceDuration(serviceId)))
        && availableSlots == SlotsAfterReply(reply)
      ensures old(webhookUrl) != "" ==> !isLoadingSlots
      ensures Transition(Snapshot(), request) == SlotsFetched(old(Snapshot()), date, serviceId, reply)
    {
      if webhookUrl == "" {
        return None;
      }
      isLoadingSlots := true;
      var duration := ServiceDuration(serviceId);
      request := Some(SlotsRequest(date, serviceId, duration));
      match reply {
        case SlotsOk(slots) =>
          availableSlots := if slots.Some? then slots.value else [];
        case SlotsFailed =>
          availableSlots := FallbackSlots();
      }
      isLoadingSlots := false;
    }

    /** The calendar's select handler; `reply` answers the slot query if one is made. */
    method HandleDateSelect(date: Option<Instant>, reply: SlotsReply)
      returns (request: Option<SlotsRequest>)
      modifies this
      ensures selectedDate == date && selectedTime == ""
      ensures request.Some? ==> date.Some? && old(selectedService) != "" && old(webhookUrl) != ""
      ensures date.None? || old(selectedService) == "" ==> availableSlots == old(availableSlots)
      ensures selectedService == old(selectedService) && webhookUrl == old(webhookUrl)
      ensures clientName == old(clientName) && clientEmail == old(clientEmail) && clientPhone == old(clientPhone)
      ensures Transition(Snapshot(), request) == DateSelected(old(Snapshot()), date, reply)
    {
      selectedDate := date;
      selectedTime := "";
      request := None;
      if date.Some? && selectedService != "" {
        request := FetchAvailableSlots(date.value, selectedService, reply);
      }
    }

    /** A slot button's click: takes the slot's time if the button is on screen and enabled. */
    method ClickSlot(i: nat) returns (taken: bool)
      modifies this
      ensures taken == SlotButtonEnabled(old(Snapshot()), i)
      ensures taken ==> selectedTime == old(availableSlots)[i].time && old(availableSlots)[i].available
      ensures taken ==> Snapshot() == old(Snapshot()).(time := old(availableSlots)[i].time)
      ensures !taken ==> Snapshot() == old(Snapshot())
    {
      taken := SlotButtonEnabled(Snapshot(), i);
      if taken {
        selectedTime := availableSlots[i].time;
      }
    }

    method SetClientName(name: string)
      modifies this
      ensures Snapshot() == old(Snapshot()).(clientName := name)
    {
      clientName := name;
    }

    method SetClientEmail(email: string)
      modifies this
      ensures Snapshot() == old(Snapshot()).(clientEmail := email)
    {
      clientEmail := email;
    }

    method SetClientPhone(phone: string)
      modifies this
      ensures Snapshot() == old(Snapshot()).(clientPhone := phone)
    {
      clientPhone := phone;
    }

    method SetWebhookUrl(url: string)
      modifies this
      ensures Snapshot() == old(Snapshot()).(webhookUrl := url)
    {
      webhookUrl := url;
    }

    /** The confirm button's handler; `reply` is the webhook's answer to the booking. */
    method HandleConfirmBooking(reply: ConfirmReply) returns (request: Option<BookingRequest>)
      modifies this
      ensures request.None? <==> !DraftComplete(old(Snapshot())) || old(webhookUrl) == ""
      ensures request.None? ==> Snapshot() == old(Snapshot())
      ensures request.Some? ==> request.value == BookingOf(old(Snapshot())) && !isSubmitting
      ensures request.Some? && reply.ConfirmOk? ==>
        && selectedService == "" && selectedDate.None? && selectedTime == ""
        && clientName == "" && clientEmail == "" && clientPhone == "" && availableSlots == []
      ensures request.Some? && reply.ConfirmFailed? ==> Snapshot() == old(Snapshot()).(submitting := false)
      ensures webhookUrl == old(webhookUrl) && isLoadingSlots == old(isLoadingSlots)
      ensures Transition(Snapshot(), request) == BookingConfirmed(old(Snapshot()), reply)
    {
      if selectedService == "" || selectedDate.None? || selectedTime == ""
         || clientName == "" || clientEmail == "" || clientPhone == "" {
        return None;
      }
      if webhookUrl == "" {
        return None;
      }
      isSubmitting := true;
      request := Some(BookingRequest(selectedService, selectedDate.value, selectedTime,
                                     clientName, clientEmail, clientPhone));
      match reply {
        case ConfirmOk =>
          selectedService := "";
          selectedDate := None;
          selectedTime := "";
          clientName := "";
          clientEmail := "";
          clientPhone := "";
          availableSlots := [];
        case ConfirmFailed =>
      }
      isSubmitting := false;
    }

    /**
      Delivers one customer event to the component, as its enabled control
      would: the handler's new state is that of the session model's step.
     */
    method Dispatch(e: Event)
      requires Enabled(Snapshot(), e)
      modifies this
      ensures Snapshot() == Step(old(Snapshot()), e)
      ensures old(Inv(Snapshot())) ==> Inv(Snapshot())
    {
      if Inv(Snapshot()) { StepPreservesInv(Snapshot(), e); }
      match e {
        case ChooseService(value) => HandleServiceChange(value);
        case PickDate(date, _, reply) => var _ := HandleDateSelect(date, reply);
        case ClickSlot(i) => var _ := ClickSlot(i);
        case TypeName(name) => SetClientName(name);
        case TypeEmail(email) => SetClientEmail(email);
        case TypePhone(phone) => SetClientPhone(phone);
        case TypeWebhookUrl(url) => SetWebhookUrl(url);
        case PressConfirm(reply) => var _ := HandleConfirmBooking(reply);
      }
    }
  }
}
