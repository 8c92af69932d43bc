/**
  Values of the salon's booking widget: the service catalog and its duration
  lookup, time slots, the replies of the booking webhook, the payloads the
  widget posts to it, and the calendar's rule for days that cannot be picked.
 */
module Booking {

  datatype Option<+T> = None | Some(value: T)

  /** An entry of the hard-coded service catalog. */
  datatype Service = Service(id: string, name: string, duration: int)

  /** A bookable time of day and whether it can still be taken. */
  datatype TimeSlot = TimeSlot(time: string, available: bool)

  /** The five services offered, in the order the selector lists them. */
  function Catalog(): (c: seq<Service>)
    ensures |c| == 5
  {
    [ Service("corte-finalizacao", "Corte & Finalização", 60),
      Service("coloracao", "Coloração Completa", 120),
      Service("mechas-tratamento", "Mechas & Tratamento", 180),
      Service("hidratacao-premium", "Hidratação Premium", 90),
      Service("penteado-evento", "Penteado para Evento", 90) ]
  }

  predicate IsCatalogId(id: string) {
    exists i :: 0 <= i < |Catalog()| && Catalog()[i].id == id
  }

  /** The first service of `services` whose id is `id`, if there is one. */
  function FindService(services: seq<Service>, id: string): (r: Option<Service>)
    ensures r.None? <==> forall i :: 0 <= i < |services| ==> services[i].id != id
    ensures r.Some? ==> exists i :: 0 <= i < |services| && services[i] == r.value
                                     && forall j :: 0 <= j < i ==> services[j].id != id
    ensures r.Some? ==> r.value.id == id
  {
    if services == [] then None
    else if services[0].id == id then Some(services[0])
    else
      var r := FindService(services[1..], id);
      assert r.Some? ==> exists i :: 1 <= i < |services| && services[i] == r.value
                                      && forall j :: 1 <= j < i ==> services[j].id != id
      by {
        if r.Some? {
          var k :| 0 <= k < |services[1..]| && services[1..][k] == r.value
                   && forall j :: 0 <= j < k ==> services[1..][j].id != id;
          assert forall j :: 1 <= j < k + 1 ==> services[j].id == services[1..][j - 1].id;
        }
      }
      r
  }

  /**
    The duration, in minutes, sent with a slot query: the catalog's duration
    for a known id, and 60 when the id is unknown (or its duration is zero).
   */
  function ServiceDuration(id: string): (minutes: int)
    ensures !IsCatalogId(id) ==> minutes == 60
    ensures forall i :: 0 <= i < |Catalog()| && Catalog()[i].id == id ==> minutes == Catalog()[i].duration
  {
    match FindService(Catalog(), id)
    case None => 60
    case Some(s) => if s.duration != 0 then s.duration else 60
  }

  lemma CatalogDurations()
    ensures ServiceDuration("corte-finalizacao") == 60
    ensures ServiceDuration("coloracao") == 120
    ensures ServiceDuration("mechas-tratamento") == 180
    ensures ServiceDuration("hidratacao-premium") == 90
    ensures ServiceDuration("penteado-evento") == 90
  {
    var c := Catalog();
    assert c[0].id == "corte-finalizacao" && c[1].id == "coloracao" && c[2].id == "mechas-tratamento";
    assert c[3].id == "hidratacao-premium" && c[4].id == "penteado-evento";
  }

  /** The slot list shown when the slot query fails. */
  function FallbackSlots(): (s: seq<TimeSlot>)
    ensures |s| == 6
  {
    [ TimeSlot("09:00", true), TimeSlot("10:00", true), TimeSlot("11:00", false),
      TimeSlot("14:00", true), TimeSlot("15:00", true), TimeSlot("16:00", true) ]
  }

  lemma FallbackOnlyElevenBlocked()
    ensures forall i :: 0 <= i < 6 ==> (!FallbackSlots()[i].available <==> FallbackSlots()[i].time == "11:00")
  {}

  /** What the webhook answered to a slot query. */
  datatype SlotsReply =
    | SlotsOk(slots: Option<seq<TimeSlot>>)  // a 2xx response; `slots` absent or falsy is None
    | SlotsFailed                            // a non-2xx status, a network error or an unreadable body

  /** What the webhook answered to a booking confirmation. */
  datatype ConfirmReply = ConfirmOk | ConfirmFailed

  /** The slot list the widget keeps after a slot query was answered. */
  function SlotsAfterReply(reply: SlotsReply): (s: seq<TimeSlot>)
    ensures reply.SlotsOk? && reply.slots.Some? ==> s == reply.slots.value
    ensures reply.SlotsOk? && reply.slots.None? ==> s == []
    ensures reply.SlotsFailed? ==> s == FallbackSlots()
  {
    match reply
    case SlotsOk(slots) => if slots.Some? then slots.value else []
    case SlotsFailed => FallbackSlots()
  }

  /**
    A JavaScript `Date`, as the count of milliseconds since the epoch in local
    time (the time-zone offset is folded in).
   */
  type Instant = int

  const MsPerDay: int := 86_400_000

  /** `Date.getDay()`: 0 is Sunday; the epoch day 1970-01-01 was a Thursday (4). */
  function WeekDay(t: Instant): (d: int)
    ensures 0 <= d < 7
  {
    (t / MsPerDay + 4) % 7
  }

  /** Shifting an instant by whole days shifts its day number by as many. */
  lemma DayShift(t: Instant, k: int)
    ensures (t + k * MsPerDay) / MsPerDay == t / MsPerDay + k
  {
    var q, r := t / MsPerDay, t % MsPerDay;
    assert t + k * MsPerDay == (q + k) * MsPerDay + r;
    DivUnique(t + k * MsPerDay, q + k, r);
  }

  lemma DivUnique(x: int, q: int, r: int)
    requires x == q * MsPerDay + r && 0 <= r < MsPerDay
    ensures x / MsPerDay == q
  {}

  /** The next day has the next weekday, Saturday (6) being followed by Sunday (0). */
  lemma WeekDayNext(t: Instant)
    ensures WeekDay(t + MsPerDay) == (WeekDay(t) + 1) % 7
  {
    DayShift(t, 1);
  }

  /** The day of the week repeats every seven days. */
  lemma WeekDayPeriodic(t: Instant)
    ensures WeekDay(t + 7 * MsPerDay) == WeekDay(t)
  {
    DayShift(t, 7);
  }

  /** The first instant of the day that contains `t` (local midnight). */
  function StartOfDay(t: Instant): (m: Instant)
    ensures m <= t < m + MsPerDay
    ensures m % MsPerDay == 0
  {
    (t / MsPerDay) * MsPerDay
  }

  /** The calendar refuses instants before `now` and Sundays. */
  function DateDisabled(date: Instant, now: Instant): (disabled: bool)
    ensures date < now ==> disabled
    ensures WeekDay(date) == 0 ==> disabled
    ensures disabled && WeekDay(date) != 0 ==> date < now
  {
    date < now || WeekDay(date) == 0
  }

  /** A day the calendar refuses stays refused as time goes on. */
  lemma DisabledStaysDisabled(date: Instant, now: Instant, later: Instant)
    requires now <= later && DateDisabled(date, now)
    ensures DateDisabled(date, later)
  {}

  /** The epoch, 1970-01-01, was a Thursday, and 2024-01-07 a Sunday. */
  lemma WeekDayCalendar()
    ensures WeekDay(0) == 4
    ensures WeekDay(19729 * MsPerDay) == 0
  {}

  /**
    The calendar hands over the midnight of the picked day, so the current
    day can be picked only when `now` is exactly midnight and it is not a Sunday.
   */
  lemma TodayDisabledAfterMidnight(now: Instant)
    ensures DateDisabled(StartOfDay(now), now) <==> now % MsPerDay != 0 || WeekDay(now) == 0
  {}

  /** The body of the `get_available_slots` request. */
  datatype SlotsRequest = SlotsRequest(date: Instant, serviceId: string, durationMinutes: int)

  /** The body of the `confirm_booking` request. */
  datatype BookingRequest = BookingRequest(
    serviceId: string, date: Instant, time: string,
    clientName: string, clientEmail: string, clientPhone: string)
}
