/** One guest journey: the cached record, what the journey did to the outside world, and what the record
    must have to do with it at every stage. */
module JourneyState {
  import opened Calendar
  import opened Wrappers
  import opened Communication
  import opened BookingGraph
  import LodgingScript
  import StaySelection

  datatype Guest = Guest(documentId: string, givenNames: string, surname: string, email: string, billingAddress: string)

  datatype Booking = Booking(bookingId: string, cottage: string, period: Option<Period>)

  datatype Invoice = Invoice(number: string, receipt: string)

  datatype Record = Record(guestId: string, personalInfo: Option<Guest>, booking: Option<Booking>, invoice: Option<Invoice>)

  datatype Effect =
    | Booked(id: string, cottage: string, period: Period)  // the booking service answered with this id
    | PaymentAccepted(payment: PaymentRequest)
    | Paid(invoice: string)                                // the payment service took the money
    | ConfirmationAccepted(confirmation: Confirmation)
    | CheckinAccepted(checkin: CheckinToday)
    | LodgingStarted(visit: LodgingScript.Visit)

  /** A stay selected, and the search it came from. */
  datatype Pick = Pick(best: StaySelection.Candidate, search: StaySelection.Search)

  /** The journey's state; `log`, `path`, `pick`, `setUp` and `closes` are traces. */
  datatype State = State(
    store: map<string, Record>,
    guest: Option<Guest>,
    guestId: string,
    cottages: Option<seq<string>>,
    key: string,
    attached: bool,                   // the bus has a consumer
    cancelled: bool,
    log: seq<Effect>,
    path: seq<Step>,                  // booking steps executed
    pick: Option<Pick>,               // the last stay selected
    setUp: bool,                      // communication setup got past its argument checks
    closes: nat)                      // times the channel was closed

  /** String helpers of the program's library, left open. */
  datatype Text = Text(trim: string -> string, sameFold: (string, string) -> bool, lower: string -> string)

  // ---------- the matching rules ----------

  predicate PaymentMatches(text: Text, m: PaymentRequest, r: Record) {
    && text.trim(m.invoiceNumber) != ""
    && m.total.Some? && m.total.value.amount > 0 && text.trim(m.total.value.currency) != ""
    && m.cottageName.Some? && text.trim(m.cottageName.value) != ""
    && r.personalInfo.Some?
    && r.booking.Some? && r.booking.value.cottage != ""
    && m.payerEmail.Some? && text.sameFold(text.trim(m.payerEmail.value), text.trim(r.personalInfo.value.email))
    && m.cottageName.value == r.booking.value.cottage
  }

  predicate ConfirmationMatches(m: Confirmation, r: Record, guestId: string) {
    && r.booking.Some? && m.bookingId == r.booking.value.bookingId
    && m.status == Confirmed
    && m.guestId == Some(guestId)
  }

  predicate CheckinMatches(m: CheckinToday, r: Record, guestId: string) {
    && r.booking.Some? && r.booking.value.period.Some?
    && m.bookingId == r.booking.value.bookingId
    && m.guestId == guestId
    && m.cottageName == r.booking.value.cottage
    && m.checkIn == Some(r.booking.value.period.value.start)
  }

  /** The rules as tests; they look at nothing of the record but guest and booking. */
  function PaymentTest(text: Text, guest: Option<Guest>, booking: Option<Booking>): PaymentRequest -> bool {
    (m: PaymentRequest) => PaymentMatches(text, m, Record("", guest, booking, None))
  }

  function ConfirmationTest(booking: Option<Booking>, guestId: string): Confirmation -> bool {
    (m: Confirmation) => ConfirmationMatches(m, Record("", None, booking, None), guestId)
  }

  function CheckinTest(booking: Option<Booking>, guestId: string): CheckinToday -> bool {
    (m: CheckinToday) => CheckinMatches(m, Record("", None, booking, None), guestId)
  }

  // ---------- the story so far ----------

  /** The record of a journey whose guest is `g`, held under the journey's key. */
  ghost predicate Recorded(s: State, g: Guest) {
    && s.key != "" && s.key in s.store
    && s.store[s.key].personalInfo == Some(g) && s.guest == Some(g)
  }

  function Rec(s: State): Record
    requires s.key in s.store
  {
    s.store[s.key]
  }

  /** A stay as the selection makes them: three nights or more, from a midnight on. */
  predicate ProperStay(p: Period) {
    Nights(p) >= 3 && StartOfDay(p.start) == p.start
  }

  /** Cottage and period are those of the stay selected last, which was the best of its search. */
  ghost predicate Picked(cottage: string, period: Period, pick: Option<Pick>) {
    && pick.Some? && cottage == pick.value.best.cottage && period == pick.value.best.period
    && StaySelection.BestOf(pick.value.search, pick.value.best)
    && ProperStay(period)
  }

  /** A booking as the journey may make it: a named cottage and the stay selected last. */
  ghost predicate ProperBooking(e: Effect, pick: Option<Pick>) {
    e.Booked? && e.cottage != "" && Picked(e.cottage, e.period, pick)
  }

  /** The effects happened in this order, each about the same booking, guest and invoice. */
  ghost predicate Tale(text: Text, s: State, g: Guest) {
    && |s.log| <= 6
    && (|s.log| >= 1 ==> ProperBooking(s.log[0], s.pick))
    && (|s.log| >= 2 ==>
          && s.log[0].id != "" && s.guestId != ""
          && s.log[1].PaymentAccepted? && PaymentFor(text, s.log[1].payment, s.log[0], g))
    && (|s.log| >= 3 ==> s.log[2] == Paid(text.trim(s.log[1].payment.invoiceNumber)))
    && (|s.log| >= 4 ==> s.log[3] == ConfirmationAccepted(Confirmation(s.log[0].id, Confirmed, Some(s.guestId))))
    && (|s.log| >= 5 ==>
          s.log[4] == CheckinAccepted(CheckinToday(s.log[0].id, s.guestId, s.log[0].cottage, Some(s.log[0].period.start))))
    && (|s.log| >= 6 ==>
          && s.log[5].LodgingStarted?
          && s.log[5].visit.period == s.log[0].period
          && s.log[5].visit.bookingId == s.log[0].id && s.log[5].visit.documentId == g.documentId)
  }

  lemma LodgingComesLast(text: Text, s: State, g: Guest)
    requires Tale(text, s, g)
    ensures forall e :: e in s.log && e.LodgingStarted? ==> |s.log| == 6 && e == s.log[5]
  {
  }

  /** The record agrees with the tale: in particular booking id, cottage and period never change once booked. */
  ghost predicate Story(text: Text, s: State, g: Guest) {
    && Recorded(s, g) && Tale(text, s, g)
    && (s.log == [] ==>
          && Rec(s).invoice.None?
          && (Rec(s).booking.Some? ==> Rec(s).booking.value.bookingId == ""))
    && (|s.log| >= 1 ==>
          Rec(s).booking == Some(Booking(s.log[0].id, s.log[0].cottage, Some(s.log[0].period))))
    && (|s.log| >= 2 ==>
          Rec(s).invoice.Some? && Rec(s).invoice.value.number == text.trim(s.log[1].payment.invoiceNumber))
  }

  /** The record with the trimmed invoice number of a payment request. */
  function Invoiced(text: Text, r: Record, m: PaymentRequest): Record {
    var receipt := if r.invoice.Some? then r.invoice.value.receipt else "";
    r.(invoice := Some(Invoice(text.trim(m.invoiceNumber), receipt)))
  }

  /** The state after a message was accepted. */
  function AfterPayment(text: Text, s: State, m: PaymentRequest): State
    requires s.key in s.store
  {
    s.(store := s.store[s.key := Invoiced(text, Rec(s), m)], log := s.log + [PaymentAccepted(m)])
  }

  function AfterConfirmation(s: State, m: Confirmation): State {
    s.(log := s.log + [ConfirmationAccepted(m)])
  }

  function AfterCheckin(s: State, m: CheckinToday): State {
    s.(log := s.log + [CheckinAccepted(m)])
  }

  lemma PaymentExtendsStory(text: Text, s: State, g: Guest, m: PaymentRequest)
    requires Story(text, s, g) && |s.log| == 1 && s.log[0].id != "" && s.guestId != "" && PaymentMatches(text, m, Rec(s))
    ensures Story(text, AfterPayment(text, s, m), g)
  {
  }

  lemma ConfirmationExtendsStory(text: Text, s: State, g: Guest, m: Confirmation)
    requires Story(text, s, g) && |s.log| == 3 && ConfirmationMatches(m, Rec(s), s.guestId)
    ensures Story(text, AfterConfirmation(s, m), g)
  {
  }

  lemma CheckinExtendsStory(text: Text, s: State, g: Guest, m: CheckinToday)
    requires Story(text, s, g) && |s.log| == 4 && CheckinMatches(m, Rec(s), s.guestId)
    ensures Story(text, AfterCheckin(s, m), g)
  {
  }

  lemma LodgingExtendsStory(text: Text, s: State, g: Guest, visit: LodgingScript.Visit)
    requires Story(text, s, g) && |s.log| == 5
    requires visit.period == s.log[0].period && visit.bookingId == s.log[0].id && visit.documentId == g.documentId
    ensures Story(text, s.(log := s.log + [LodgingStarted(visit)]), g)
  {
  }

  /** Once booked, a payment request matches exactly if it has an invoice number, a positive total in some currency,
      the booked cottage and the guest's email; a confirmation exactly if it confirms this booking of this guest. */
  lemma PaymentMatchesIff(text: Text, s: State, g: Guest, m: PaymentRequest)
    requires Story(text, s, g) && |s.log| >= 1
    ensures PaymentMatches(text, m, Rec(s)) <==>
            && text.trim(m.invoiceNumber) != ""
            && m.total.Some? && m.total.value.amount > 0 && text.trim(m.total.value.currency) != ""
            && m.cottageName == Some(s.log[0].cottage) && text.trim(s.log[0].cottage) != ""
            && m.payerEmail.Some? && text.sameFold(text.trim(m.payerEmail.value), text.trim(g.email))
    ensures PaymentTest(text, Some(g), Rec(s).booking)(m) <==> PaymentMatches(text, m, Rec(s))
  {
  }

  lemma ConfirmationMatchesIff(text: Text, s: State, g: Guest, m: Confirmation)
    requires Story(text, s, g) && |s.log| >= 1
    ensures ConfirmationMatches(m, Rec(s), s.guestId) <==> m == Confirmation(s.log[0].id, Confirmed, Some(s.guestId))
    ensures ConfirmationTest(Rec(s).booking, s.guestId)(m) <==> ConfirmationMatches(m, Rec(s), s.guestId)
  {
  }

  lemma AcceptedInTale(text: Text, s: State, g: Guest)
    requires Tale(text, s, g)
    ensures forall m :: PaymentAccepted(m) in s.log ==> m in PaymentsIn(s.log)
    ensures forall m :: ConfirmationAccepted(m) in s.log ==> m in ConfirmationsIn(s.log)
    ensures forall m :: CheckinAccepted(m) in s.log ==> m in CheckinsIn(s.log)
  {
  }

  /** Once booked, a check-in message matches exactly if it names booking, guest, cottage and the very
      instant the stay starts; that instant is a midnight. */
  lemma CheckinMatchesIff(text: Text, s: State, g: Guest, m: CheckinToday)
    requires Story(text, s, g) && |s.log| >= 1
    ensures CheckinMatches(m, Rec(s), s.guestId) <==>
            m == CheckinToday(s.log[0].id, s.guestId, s.log[0].cottage, Some(s.log[0].period.start))
    ensures CheckinMatches(m, Rec(s), s.guestId) ==> StartOfDay(m.checkIn.value) == m.checkIn.value
    ensures CheckinTest(Rec(s).booking, s.guestId)(m) <==> CheckinMatches(m, Rec(s), s.guestId)
  {
  }

  /** 2026-04-20T15:00:00Z, the check-in of the documented example message. */
  const DOCUMENTED_CHECKIN := 1776697200

  /** No journey ever accepts the documented example, nor any message that names the right day at 15:00,
      whatever else it says. */
  lemma DocumentedCheckinNeverMatches(text: Text, s: State, g: Guest, m: CheckinToday)
    requires Story(text, s, g) && |s.log| >= 1
    requires m.checkIn == Some(DOCUMENTED_CHECKIN) || m.checkIn == Some(s.log[0].period.start + 15 * HOUR)
    ensures !CheckinMatches(m, Rec(s), s.guestId)
  {
    CheckinMatchesIff(text, s, g, m);
    assert StartOfDay(DOCUMENTED_CHECKIN) + 15 * HOUR == DOCUMENTED_CHECKIN;
  }

  /** The messages accepted, by the places the tale has for them. */
  function PaymentsIn(log: seq<Effect>): seq<PaymentRequest> {
    if |log| >= 2 && log[1].PaymentAccepted? then [log[1].payment] else []
  }

  function ConfirmationsIn(log: seq<Effect>): seq<Confirmation> {
    if |log| >= 4 && log[3].ConfirmationAccepted? then [log[3].confirmation] else []
  }

  function CheckinsIn(log: seq<Effect>): seq<CheckinToday> {
    if |log| >= 5 && log[4].CheckinAccepted? then [log[4].checkin] else []
  }

  /** A payment request with a positive total for this guest's email and the booked cottage. */
  predicate PaymentFor(text: Text, m: PaymentRequest, booked: Effect, g: Guest)
    requires booked.Booked?
  {
    && text.trim(m.invoiceNumber) != ""
    && m.total.Some? && m.total.value.amount > 0
    && m.cottageName == Some(booked.cottage)
    && m.payerEmail.Some? && text.sameFold(text.trim(m.payerEmail.value), text.trim(g.email))
  }
}

/** The journey as the program runs it. Everything the outside world decides is an arbitrary choice made
    inside the methods or a sequence of messages passed to them. */
module GuestJourney {
  import opened Wrappers
  import opened Communication
  import opened WeightedChoice
  import opened BookingGraph
  import opened JourneyState
  import opened JourneyOutcome
  import StaySelection
  import LodgingPlan
  import LodgingScript
  import LodgingStep
  import JourneyIsolation
  import TypedBus
  import GuestBus

  /** `Unfinished` is no error of the program: what was given of the outside world ended while the journey was
      still under way. */
  datatype Error =
    | Unfinished | CacheFailed | RemoteFailed | EmptyGuestId | EmptyCottages | EmptySelection | NoSuitablePeriod
    | NoBookingId | NoMatchingMessage | LodgingFailed | CleanupFailed
    // checks of the cached context
    | NoGuestContext | NilBooking | NilPeriod | AlreadyBooked | NoPaymentContext | NoLodgingContext

  /** Checks that a journey never trips over. */
  predicate Unreachable(e: Error) {
    e in {NoGuestContext, NilBooking, NilPeriod, AlreadyBooked, NoPaymentContext, NoLodgingContext}
  }

  predicate Fine(e: Option<Error>) {
    e.None? || !Unreachable(e.value)
  }

  /** Some message from position `from` on passes the test. */
  ghost predicate Among<M>(ms: seq<M>, from: nat, test: M -> bool) {
    exists k :: from <= k < |ms| && test(ms[k])
  }

  lemma AmongSplit<M>(ms: seq<M>, from: nat, middle: nat, test: M -> bool)
    requires from <= middle <= |ms|
    ensures Among(ms, from, test) <==> Among(ms[..middle], from, test) || Among(ms, middle, test)
  {
    if Among(ms[..middle], from, test) {
      var k :| from <= k < middle && test(ms[..middle][k]);
      assert test(ms[k]);
    }
    if Among(ms, from, test) {
      var k :| from <= k < |ms| && test(ms[k]);
      assert k < middle ==> test(ms[..middle][k]);
    }
  }

  lemma AmongNew<M>(ms: seq<M>, m: Option<M>, test: M -> bool)
    ensures Among(ms + AsSeq(m), |ms|, test) <==> m.Some? && test(m.value)
  {
    if m.Some? {
      assert (ms + AsSeq(m))[|ms|] == m.value;
    }
  }

  /** A wait is under way. */
  predicate Listening<M>(b: TypedBus.Bus<M>) {
    b.waiter.Looking? || b.waiter.Blocked?
  }

  class GuestJourney {
    const text: Text
    const reliable: bool  // cache and channel operations do not fail and nobody cancels
    var s: State
    var bus: GuestBus.GuestBus
    ghost var played: seq<GuestBus.Event>  // the run of the bus so far

    ghost predicate Calm()
      reads this
    {
      reliable ==> !s.cancelled
    }

    constructor (text: Text, reliable: bool, store: map<string, Record>)
      ensures this.text == text && this.reliable == reliable && Calm()
      ensures s == State(store, None, "", None, "", false, false, [], [], None, false, 0)
      ensures bus == GuestBus.NEW_BUS && played == []
    {
      this.text, this.reliable := text, reliable;
      s := State(store, None, "", None, "", false, false, [], [], None, false, 0);
      bus, played := GuestBus.NEW_BUS, [];
    }

    // ---------- the cache ----------

    /** Only time passes: the journey may get cancelled. */
    ghost predicate Later(before: State)
      reads this
    {
      && s == before.(cancelled := s.cancelled)
      && (before.cancelled ==> s.cancelled)
    }

    method Pause()
      requires Calm()
      modifies this`s
      ensures Calm() && Later(old(s))
    {
      var cancel: bool := *;
      if cancel && !reliable {
        s := s.(cancelled := true);
      }
    }

    /** Cache operations fail once the journey is cancelled, and may fail otherwise. */
    method CacheAnswers() returns (ok: bool)
      requires Calm()
      modifies this`s
      ensures Calm() && Later(old(s)) && (ok ==> !s.cancelled) && (reliable ==> ok)
    {
      Pause();
      var fault: bool := *;
      ok := !s.cancelled && (reliable || !fault);
    }

    /** The key of the record: once set it is never derived again. */
    method EnsureKey() returns (ok: bool)
      modifies this`s
      ensures s == old(s).(key := s.key) && (ok <==> s.key != "")
      ensures old(s).key != "" ==> s.key == old(s).key
      ensures old(s).key == "" && old(s).guestId != "" ==> s.key == JourneyIsolation.GUEST_PREFIX + s.guestId
    {
      if s.key == "" && s.guestId != "" {
        s := s.(key := JourneyIsolation.GUEST_PREFIX + s.guestId);
      }
      ok := s.key != "";
    }

    method Load() returns (r: Option<Record>)
      requires Calm()
      modifies this`s
      ensures Calm() && (old(s).key != "" ==> Later(old(s)))
      ensures r.Some? ==> !s.cancelled && s.key in s.store && r.value == s.store[s.key]
      ensures reliable && s.key != "" && s.key in s.store ==> r.Some?
    {
      var keyed := EnsureKey();
      if !keyed {
        return None;
      }
      var ok := CacheAnswers();
      r := if ok && s.key in s.store then Some(s.store[s.key]) else None;
    }

    method Save(r: Record) returns (ok: bool)
      requires Calm()
      modifies this`s
      ensures Calm() && (old(s).cancelled ==> s.cancelled) && (reliable && s.key != "" ==> ok)
      ensures s == old(s).(key := s.key, cancelled := s.cancelled, store := if ok then old(s).store[s.key := r] else old(s).store)
      ensures old(s).key != "" ==> s.key == old(s).key
      ensures ok ==> !s.cancelled
    {
      ok := EnsureKey();
      if !ok {
        return;
      }
      ok := CacheAnswers();
      if ok {
        s := s.(store := s.store[s.key := r]);
      }
    }

    // ---------- registration and communication ----------

    method CreateGuest(g: Guest) returns (err: Option<Error>)
      requires Calm() && s.log == [] && s.path == []
      modifies this`s
      ensures Calm() && Fine(err)
      ensures s.key == "guest.pending." + text.lower(g.documentId) == JourneyIsolation.KeyFor(text.lower, g.documentId) != ""
      ensures s == old(s).(key := s.key, guest := Some(g), cancelled := s.cancelled, store := s.store)
      ensures s.store - {s.key} == old(s).store - {s.key}
      ensures reliable ==> err.None?
      ensures err.None? ==> Story(text, s, g) && Rec(s) == Record("", Some(g), None, None)
    {
      s := s.(guest := Some(g), key := JourneyIsolation.KeyFor(text.lower, g.documentId));
      var ok := Save(Record("", Some(g), None, None));
      err := if ok then None else Some(CacheFailed);
    }

    /** Effects on everything but this journey's own record and traces. */
    ghost predicate Kept(before: State)
      reads this
    {
      && s.key == before.key && s.guest == before.guest && before.log <= s.log
      && s.store - {s.key} == before.store - {before.key}
      && (before.cancelled ==> s.cancelled)
    }

    ghost predicate SameChannel(before: State)
      reads this
    {
      s.guestId == before.guestId && s.attached == before.attached && s.setUp == before.setUp && s.closes == before.closes
    }

    /** `answer` is the guest id the service gives, if it answers. */
    method RegisterGuest(answer: Option<string>, ghost g: Guest) returns (err: Option<Error>)
      requires Calm() && Story(text, s, g) && s.log == []
      modifies this`s
      ensures Calm() && Story(text, s, g) && Fine(err) && Kept(old(s)) && err != Some(Unfinished)
      ensures s == old(s).(guestId := s.guestId, store := s.store, cancelled := s.cancelled)
      ensures err.None? ==> Some(s.guestId) == answer && Rec(s) == Rec(old(s)).(guestId := s.guestId)
      ensures reliable ==> (err.None? <==> answer.Some?)
    {
      var r := Load();
      if r.None? {
        return Some(CacheFailed);
      }
      if r.value.personalInfo.None? {
        return Some(NoGuestContext);
      }
      s := s.(guest := r.value.personalInfo);
      if answer.None? {
        return Some(RemoteFailed);
      }
      s := s.(guestId := answer.value);
      var saved := Save(r.value.(guestId := answer.value, personalInfo := s.guest));
      err := if saved then None else Some(CacheFailed);
    }

    /** Registers, then reads the account back. A cancelled flow ends early without an error. */
    method RegisterFlow(env: Surroundings, ghost g: Guest) returns (err: Option<Error>)
      requires Calm() && Story(text, s, g) && s.log == []
      modifies this`s
      ensures Calm() && Story(text, s, g) && Fine(err) && Kept(old(s)) && err != Some(Unfinished)
      ensures s == old(s).(guestId := s.guestId, store := s.store, cancelled := s.cancelled)
      ensures reliable ==> (err.None? <==> Registers(env)) && (err.None? ==> s.guestId == env.registered.value)
    {
      Pause();
      if s.cancelled {
        return None;
      }
      err := RegisterGuest(env.registered, g);
      if err.Some? {
        return;
      }
      Pause();
      if s.cancelled {
        return None;
      }
      err := if s.guestId == "" then Some(EmptyGuestId) else if env.account then None else Some(RemoteFailed);
    }

    /** Declares, binds and consumes; each failure closes the channel before it returns. Success starts the bus
        afresh. */
    method SetupCommunication(env: Surroundings) returns (err: Option<Error>)
      requires Calm()
      modifies this
      ensures Calm() && Fine(err) && err != Some(Unfinished)
      ensures err.None? <==> old(s).guestId != "" && SetsUp(env)
      ensures if err.None? then bus == GuestBus.NEW_BUS && played == [] else bus == old(bus) && played == old(played)
      ensures s == old(s).(setUp := s.setUp, closes := s.closes, attached := s.attached)
      ensures if old(s).guestId == "" then err.Some? && s == old(s)
              else s.setUp && (if err.None? then s.attached && s.closes == old(s).closes
                               else s.attached == old(s).attached && s.closes == old(s).closes + 1)
    {
      if s.guestId == "" {
        return Some(EmptyGuestId);
      }
      s := s.(setUp := true);
      if !env.declared {
        s := s.(closes := s.closes + 1);
        return Some(RemoteFailed);
      }
      if !env.bound {
        s := s.(closes := s.closes + 1);
        return Some(RemoteFailed);
      }
      if !env.consuming {
        s := s.(closes := s.closes + 1);
        return Some(RemoteFailed);
      }
      s := s.(attached := true);
      bus, played := GuestBus.NEW_BUS, [];
      err := None;
    }

    // ---------- booking ----------

    /** What holds when the flow is about to execute a step. */
    ghost predicate Before(step: Step)
      requires s.key in s.store
      reads this
    {
      var b := Rec(s).booking;
      && (step == SelectCottage ==> s.cottages.Some?)
      && (step == SelectPeriod ==> b.Some? && s.cottages.Some? && s.cottages.value != [])
      && (step == BookCottage ==>
            b.Some? && b.value.period.Some? && Picked(b.value.cottage, b.value.period.value, s.pick))
      && (step != End ==> s.log == [])
    }

    /** Validates and executes one step. */
    method ExecuteStep(step: Step, d: Draw, ghost g: Guest) returns (err: Option<Error>)
      requires Calm() && Story(text, s, g) && Before(step) && |s.log| <= 1
      modifies this`s
      ensures Calm() && Recorded(s, g) && Tale(text, s, g) && Fine(err) && Kept(old(s)) && err != Some(Unfinished)
      ensures s == old(s).(cottages := s.cottages, store := s.store, cancelled := s.cancelled, log := s.log, pick := s.pick)
      ensures |s.log| <= 1
      ensures err.None? ==> Story(text, s, g) && forall next :: Edge(step, next) ==> Before(next)
      ensures reliable && s.guestId != "" ==> (err.None? <==> StepResult(step, d, TripOf(old(s))).Some?)
      ensures err.None? ==> StepResult(step, d, TripOf(old(s))) == Some(TripOf(s))
    {
      match step
      case ListCottages =>
        if d.names.None? {
          return Some(RemoteFailed);
        }
        s := s.(cottages := d.names);
        err := None;
      case SelectCottage =>
        err := ExecuteSelectCottage(d.index, g);
      case SelectPeriod =>
        err := ExecuteSelectPeriod(d, g);
      case BookCottage =>
        err := ExecuteBookCottage(d.booking, g);
      case End =>
        err := None;
      EdgesFrom(step);
    }

    /** A random cottage of the list, which is there and not empty. */
    method ExecuteSelectCottage(index: nat, ghost g: Guest) returns (err: Option<Error>)
      requires Calm() && Story(text, s, g) && Before(SelectCottage)
      modifies this`s
      ensures Calm() && Story(text, s, g) && Fine(err) && Kept(old(s)) && err != Some(Unfinished)
      ensures s == old(s).(store := s.store, cancelled := s.cancelled)
      ensures err.None? ==> s.cottages.value != [] && Rec(s).booking.Some?
                            && Rec(s).booking.value.cottage == s.cottages.value[index % |s.cottages.value|]
      ensures reliable ==> (err.None? <==> s.cottages.value != [])
    {
      if s.cottages == Some([]) {
        return Some(EmptyCottages);
      }
      var selected := s.cottages.value[index % |s.cottages.value|];
      var r := Load();
      if r.None? {
        return Some(CacheFailed);
      }
      var b := if r.value.booking.None? then Booking("", "", None) else r.value.booking.value;
      var ok := Save(r.value.(booking := Some(b.(cottage := selected))));
      err := if ok then None else Some(CacheFailed);
    }

    /** The search of a period selection. */
    method ChooseStay(now: int, cottages: seq<string>, service: StaySelection.Service) returns (r: StaySelection.Selection)
      ensures var search := StaySelection.Search(now, cottages, service);
              && (r.Selected? ==> Picked(r.best.cottage, r.best.period, Some(Pick(r.best, search))))
              && (r.Selected? <==> Answered(search) && BestOfSearch(search).Some?)
              && (r.Selected? ==> BestOfSearch(search) == Some(r.best))
    {
      r := StaySelection.SelectStay(now, cottages, service);
      ghost var search := StaySelection.Search(now, cottages, service);
      if r.Selected? {
        StaySelection.SelectedStayHasANight(search, r.best);
        BestIsUnique(search, r.best);
      }
    }

    /** The best stay on offer replaces both cottage and period. */
    method ExecuteSelectPeriod(d: Draw, ghost g: Guest) returns (err: Option<Error>)
      requires Calm() && Story(text, s, g) && Before(SelectPeriod)
      modifies this`s
      ensures Calm() && Story(text, s, g) && Fine(err) && Kept(old(s)) && err != Some(Unfinished)
      ensures s == old(s).(store := s.store, cancelled := s.cancelled, pick := s.pick)
      ensures err.None? ==> Before(BookCottage) && Choice(d, s.cottages.value) == Some(s.pick.value.best)
                            && s.pick.value.search == StaySelection.Search(d.now.value, s.cottages.value, d.service)
      ensures reliable ==> (err.None? <==> Choice(d, s.cottages.value).Some?)
    {
      if d.now.None? {
        return Some(RemoteFailed);
      }
      var r := Load();
      if r.None? {
        return Some(CacheFailed);
      }
      if r.value.booking.None? {
        return Some(NilBooking);
      }
      if |s.cottages.value| == 0 {
        return Some(EmptyCottages);
      }
      var selection := ChooseStay(d.now.value, s.cottages.value, d.service);
      match selection
      case Unavailable =>
        err := Some(RemoteFailed);
      case NoSuitablePeriod =>
        err := Some(NoSuitablePeriod);
      case Selected(best) =>
        var b := r.value.booking.value.(cottage := best.cottage, period := Some(best.period));
        var ok := Save(r.value.(booking := Some(b)));
        if !ok {
          return Some(CacheFailed);
        }
        s := s.(pick := Some(Pick(best, StaySelection.Search(d.now.value, s.cottages.value, d.service))));
        err := None;
    }

    /** `answer` is the booking id the service gives, if it answers. */
    method ExecuteBookCottage(answer: Option<string>, ghost g: Guest) returns (err: Option<Error>)
      requires Calm() && Story(text, s, g) && Before(BookCottage)
      modifies this`s
      ensures Calm() && Fine(err) && Kept(old(s)) && err != Some(Unfinished)
      ensures s == old(s).(store := s.store, cancelled := s.cancelled, log := s.log)
      ensures Recorded(s, g) && Tale(text, s, g) && |s.log| <= 1
      ensures err.None? ==> Story(text, s, g) && |s.log| == 1 && Some(s.log[0].id) == answer
      ensures reliable && s.guestId != "" ==> (err.None? <==> s.pick.value.best.cottage != "" && answer.Some?)
    {
      if s.guestId == "" {
        return Some(EmptyGuestId);
      }
      var r := Load();
      if r.None? {
        return Some(CacheFailed);
      }
      if r.value.personalInfo.None? {
        return Some(NoGuestContext);
      }
      if r.value.booking.None? {
        return Some(NilBooking);
      }
      var b := r.value.booking.value;
      if b.cottage == "" {
        return Some(EmptySelection);
      }
      if b.period.None? {
        return Some(NilPeriod);
      }
      if b.bookingId != "" {
        return Some(AlreadyBooked);
      }
      if answer.None? {
        return Some(RemoteFailed);
      }
      s := s.(log := s.log + [Booked(answer.value, b.cottage, b.period.value)]);
      var saved := Save(r.value.(booking := Some(b.(bookingId := answer.value))));
      err := if saved then None else Some(CacheFailed);
    }

    /** One turn of the walk: the step, then a weighted choice of the next one, if there is any. */
    method Turn(step: Step, draw: Draw, ghost g: Guest) returns (err: Option<Error>, next: Option<Step>)
      requires Calm() && Story(text, s, g) && Before(step) && |s.log| <= 1 && 0.0 <= draw.next < 1.0
      modifies this`s
      ensures Calm() && Recorded(s, g) && Tale(text, s, g) && Fine(err) && Kept(old(s)) && |s.log| <= 1 && err != Some(Unfinished)
      ensures s == old(s).(cottages := s.cottages, store := s.store, cancelled := s.cancelled, log := s.log, pick := s.pick,
                           path := old(s).path + [step])
      ensures err.None? ==> Story(text, s, g) && StepResult(step, draw, TripOf(old(s))) == Some(TripOf(s))
      ensures next == if err.None? && step != End then Some(NextStep(step, draw.next)) else None
      ensures next.Some? ==> Edge(step, next.value) && Before(next.value)
      ensures reliable && s.guestId != "" ==> (err.None? <==> StepResult(step, draw, TripOf(old(s))).Some?)
    {
      Enter(step, g);
      err := ExecuteStep(step, draw, g);
      if err.Some? || step == End {
        return err, None;
      }
      var chosen := PickNext(step, draw.next);
      next := Some(chosen);
    }

    method Enter(step: Step, ghost g: Guest)
      requires Calm() && Story(text, s, g) && Before(step)
      modifies this`s
      ensures Calm() && Story(text, s, g) && Before(step) && TripOf(s) == TripOf(old(s))
      ensures s == old(s).(path := old(s).path + [step])
    {
      s := s.(path := s.path + [step]);
    }

    method TurnUnlessCancelled(step: Step, draw: Draw, ghost g: Guest) returns (err: Option<Error>, next: Option<Step>)
      requires Calm() && Story(text, s, g) && Before(step) && |s.log| <= 1 && 0.0 <= draw.next < 1.0
      modifies this`s
      ensures Calm() && Recorded(s, g) && Tale(text, s, g) && Fine(err) && Kept(old(s)) && |s.log| <= 1 && SameChannel(old(s))
      ensures err != Some(Unfinished) && (s.path == old(s).path || s.path == old(s).path + [step])
      ensures err.None? ==> Story(text, s, g)
      ensures next.Some? ==> err.None? && s.path == old(s).path + [step] && next.value == NextStep(step, draw.next)
                             && Edge(step, next.value) && Before(next.value)
      ensures reliable && s.guestId != "" ==>
                && (err.None? <==> StepResult(step, draw, TripOf(old(s))).Some?)
                && (err.None? ==> StepResult(step, draw, TripOf(old(s))) == Some(TripOf(s)) && (next.Some? <==> step != End))
    {
      Pause();
      if s.cancelled {
        return None, None;
      }
      err, next := Turn(step, draw, g);
    }

    method PickNext(step: Step, r: real) returns (next: Step)
      requires step != End && 0.0 <= r < 1.0
      ensures Edge(step, next) && next == NextStep(step, r)
    {
      Totals(step);
      ghost var at;
      next, at := PickRandomWeighted(Transitions(step), r);
      PickFollowsEdge(step, r * Upto(Transitions(step), |Transitions(step)|), at);
      ChoiceIsNextStep(step, r, at);
    }

    /** How the walk came out, in terms of what it met. */
    ghost predicate WalkedAs(w: Walked, err: Option<Error>)
      reads this
    {
      match w
      case WalkFails => err.Some? && err != Some(Unfinished)
      case WalkGoesOn => err == Some(Unfinished)
      case WalkEnds(booked) => err.None? && TripOf(s).booked == booked
    }

    /** The random walk over the booking graph, as far as the given draws take it. A cancelled flow ends early
        without an error. */
    method BookingFlow(draws: seq<Draw>, ghost g: Guest) returns (err: Option<Error>)
      requires Calm() && Story(text, s, g) && s.log == [] && s.path == []
      requires forall i :: 0 <= i < |draws| ==> 0.0 <= draws[i].next < 1.0
      modifies this`s
      ensures Calm() && Recorded(s, g) && Tale(text, s, g) && Fine(err) && Kept(old(s)) && |s.log| <= 1
      ensures SameChannel(old(s)) && Walk(s.path)
      ensures err.None? ==> Story(text, s, g)
      ensures reliable && s.guestId != "" ==> WalkedAs(WalkOutcome(draws, ListCottages, TripOf(old(s))), err)
    {
      var step := ListCottages;
      for i := 0 to |draws|
        invariant Calm() && Story(text, s, g) && Before(step) && Kept(old(s)) && |s.log| <= 1
        invariant SameChannel(old(s))
        invariant Walk(s.path) && (if s.path == [] then step == ListCottages else Edge(s.path[|s.path| - 1], step))
        invariant reliable && s.guestId != "" ==>
                    WalkOutcome(draws[i..], step, TripOf(s)) == WalkOutcome(draws, ListCottages, TripOf(old(s)))
      {
        WalkOn(s.path, step);
        ghost var rest := draws[i..];
        assert rest[0] == draws[i] && rest[1..] == draws[i + 1..];
        var next: Option<Step>;
        err, next := TurnUnlessCancelled(step, draws[i], g);
        if err.Some? || next.None? {
          return;
        }
        step := next.value;
      }
      err := Some(Unfinished);
    }

    // ---------- payment and the waits ----------

    /** The result of a wait by what it heard. */
    ghost predicate HearsAs<M>(h: GuestBus.Hearing<M>, err: Option<Error>, accepted: Option<M>)
      reads this
    {
      && bus == h.bus && accepted == h.accepted
      && err == if h.accepted.Some? then None else if h.done then Some(NoMatchingMessage) else Some(Unfinished)
    }

    ghost predicate HasRecord()
      reads this
    {
      s.key != "" && s.key in s.store
    }

    /** The bus is on a run of its machine, and what its waits accepted is what the log tells. */
    ghost predicate BusInHand()
      reads this
    {
      && bus == GuestBus.Run(played)
      && bus.payments.accepted == PaymentsIn(s.log)
      && bus.confirmations.accepted == ConfirmationsIn(s.log)
      && bus.checkins.accepted == CheckinsIn(s.log)
    }

    /** One step of the bus goroutine or of a wait. A delivery is taken only while the bus has a consumer. */
    method Advance(e: GuestBus.Event)
      requires bus == GuestBus.Run(played) && (e.Take? ==> s.attached)
      modifies this`bus, this`played
      ensures bus == GuestBus.Run(played) && bus == GuestBus.Next(old(bus), e)
      ensures GuestBus.Moved(bus.payments, old(bus).payments, GuestBus.OnPayments(e))
      ensures GuestBus.Moved(bus.confirmations, old(bus).confirmations, GuestBus.OnConfirmations(e))
      ensures GuestBus.Moved(bus.checkins, old(bus).checkins, GuestBus.OnCheckins(e))
    {
      GuestBus.RunIsSound(played);
      GuestBus.NextMoves(bus, e);
      GuestBus.RunSnoc(played, e);
      bus := GuestBus.Next(bus, e);
      played := played + [e];
    }

    /** Deliveries between two waits. */
    method PlayArrivals(arrivals: seq<GuestBus.Event>)
      requires bus == GuestBus.Run(played) && s.attached
      modifies this`bus, this`played
      ensures bus == GuestBus.Run(played) && bus == GuestBus.Arrived(old(bus), arrivals)
      ensures GuestBus.SameWaits(bus.payments, old(bus).payments)
      ensures GuestBus.SameWaits(bus.confirmations, old(bus).confirmations)
      ensures GuestBus.SameWaits(bus.checkins, old(bus).checkins)
    {
      for i := 0 to |arrivals|
        invariant bus == GuestBus.Run(played)
        invariant GuestBus.Arrived(bus, arrivals[i..]) == GuestBus.Arrived(old(bus), arrivals)
        invariant GuestBus.SameWaits(bus.payments, old(bus).payments)
        invariant GuestBus.SameWaits(bus.confirmations, old(bus).confirmations)
        invariant GuestBus.SameWaits(bus.checkins, old(bus).checkins)
      {
        assert arrivals[i..][1..] == arrivals[i + 1..];
        if GuestBus.Goroutine(arrivals[i]) {
          Advance(arrivals[i]);
        }
      }
    }

    method SyncStateCache(ghost g: Guest) returns (err: Option<Error>)
      requires Calm() && Story(text, s, g)
      modifies this`s
      ensures Calm() && Story(text, s, g) && Fine(err) && Kept(old(s))
      ensures s == old(s).(store := s.store, cancelled := s.cancelled)
      ensures err.None? ==> !s.cancelled && s.guestId != "" && Rec(s) == Rec(old(s)).(guestId := s.guestId)
      ensures err != Some(Unfinished) && (reliable && s.guestId != "" ==> err.None?)
    {
      if s.guestId == "" {
        return Some(EmptyGuestId);
      }
      var r := Load();
      if r.None? {
        return Some(CacheFailed);
      }
      var updated := r.value.(guestId := s.guestId);
      if s.guest.Some? {
        updated := updated.(personalInfo := s.guest);
      }
      var ok := Save(updated);
      err := if ok then None else Some(CacheFailed);
    }

    /** Compares a request with the record and saves its trimmed invoice number. */
    method MatchPaymentRequest(m: PaymentRequest) returns (ok: bool)
      requires Calm() && HasRecord()
      modifies this`s
      ensures Calm() && (old(s).cancelled ==> s.cancelled)
      ensures s == (if ok then AfterPayment(text, old(s), m) else old(s)).(cancelled := s.cancelled)
      ensures ok ==> PaymentMatches(text, m, Rec(old(s)))
      ensures reliable ==> (ok <==> PaymentMatches(text, m, Rec(old(s))))
    {
      ok := false;
      var r := Load();
      if r.Some? && PaymentMatches(text, m, r.value) {
        ok := Save(Invoiced(text, r.value, m));
        if ok {
          s := s.(log := s.log + [PaymentAccepted(m)]);
        }
      }
    }

    /** Passes the verdict to the bus and unsubscribes if the wait is over. */
    method DecidePayment(e: TypedBus.Event<PaymentRequest>, ok: bool) returns (done: bool)
      requires bus == GuestBus.Run(played) && Listening(bus.payments) && (ok ==> TypedBus.Tried(bus.payments, e).Some?)
      modifies this`bus, this`played
      ensures bus == GuestBus.Run(played)
      ensures GuestBus.SameWaits(bus.confirmations, old(bus).confirmations) && GuestBus.SameWaits(bus.checkins, old(bus).checkins)
      ensures if done then bus.payments.waiter.Absent? else Listening(bus.payments)
      ensures bus.payments.handled == old(bus).payments.handled + AsSeq(TypedBus.Tried(old(bus).payments, e))
      ensures bus.payments.accepted == old(bus).payments.accepted + (if ok then AsSeq(TypedBus.Tried(old(bus).payments, e)) else [])
      ensures ok ==> done
      ensures bus == GuestBus.Decision(GuestBus.PAYMENTS, old(bus), e, ok)
      ensures done == GuestBus.Next(old(bus), GuestBus.AtPayments(TypedBus.Decided(e, ok))).payments.waiter.Leaving?
    {
      Advance(GuestBus.AtPayments(TypedBus.Decided(e, ok)));
      done := bus.payments.waiter.Leaving?;
      if done {
        Advance(GuestBus.AtPayments(TypedBus.Unsubscribe));
      }
    }

    /** One step of the wait. */
    method ListenForPayment(e: GuestBus.Event) returns (done: bool, accepted: Option<PaymentRequest>)
      requires Calm() && HasRecord() && s.attached && bus == GuestBus.Run(played) && Listening(bus.payments)
      modifies this
      ensures Calm() && (old(s).cancelled ==> s.cancelled) && bus == GuestBus.Run(played)
      ensures GuestBus.SameWaits(bus.confirmations, old(bus).confirmations) && GuestBus.SameWaits(bus.checkins, old(bus).checkins)
      ensures if done then bus.payments.waiter.Absent? else Listening(bus.payments)
      ensures old(bus).payments.handled <= bus.payments.handled && bus.payments.accepted == old(bus).payments.accepted + AsSeq(accepted)
      ensures s == (if accepted.Some? then AfterPayment(text, old(s), accepted.value) else old(s)).(cancelled := s.cancelled)
      ensures accepted.Some? ==> done && PaymentMatches(text, accepted.value, Rec(old(s)))
      ensures reliable ==> (accepted.Some? <==> Among(bus.payments.handled, |old(bus).payments.handled|, PaymentTest(text, Rec(old(s)).personalInfo, Rec(old(s)).booking)))
      ensures reliable ==> GuestBus.Hearing(bus, done, accepted) == GuestBus.HearOne(GuestBus.PAYMENTS, old(bus), e, PaymentTest(text, Rec(old(s)).personalInfo, Rec(old(s)).booking))
    {
      done, accepted := false, None;
      if GuestBus.Goroutine(e) {
        Advance(e);
      } else if e.AtPayments? {
        var m, ok := TypedBus.Tried(bus.payments, e.p), false;
        if m.Some? {
          ok := MatchPaymentRequest(m.value);
          accepted := if ok then m else None;
        }
        done := DecidePayment(e.p, ok);
        AmongNew(old(bus).payments.handled, m, PaymentTest(text, Rec(old(s)).personalInfo, Rec(old(s)).booking));
      }
    }

    /** Subscribes, after what arrived before. */
    method OpenPayment(reception: Reception)
      requires bus == GuestBus.Run(played) && bus.payments.waiter.Absent? && s.attached
      modifies this`bus, this`played
      ensures bus == GuestBus.Run(played) && Listening(bus.payments)
      ensures bus == GuestBus.Next(GuestBus.Arrived(old(bus), reception.arrivals), GuestBus.AtPayments(TypedBus.Subscribe(reception.ch)))
      ensures GuestBus.SameWaits(bus.confirmations, old(bus).confirmations) && GuestBus.SameWaits(bus.checkins, old(bus).checkins)
      ensures bus.payments.handled == old(bus).payments.handled && bus.payments.accepted == old(bus).payments.accepted
    {
      PlayArrivals(reception.arrivals);
      Advance(GuestBus.AtPayments(TypedBus.Subscribe(reception.ch)));
    }

    /** Listens as the schedule goes. */
    method UntilPayment(schedule: seq<GuestBus.Event>) returns (err: Option<Error>, accepted: Option<PaymentRequest>)
      requires Calm() && HasRecord() && s.attached && bus == GuestBus.Run(played) && Listening(bus.payments)
      modifies this
      ensures Calm() && (old(s).cancelled ==> s.cancelled) && bus == GuestBus.Run(played)
      ensures GuestBus.SameWaits(bus.confirmations, old(bus).confirmations) && GuestBus.SameWaits(bus.checkins, old(bus).checkins)
      ensures (err.None? <==> accepted.Some?) && (err.Some? ==> err.value in {NoMatchingMessage, Unfinished})
      ensures err != Some(Unfinished) ==> bus.payments.waiter.Absent?
      ensures old(bus).payments.handled <= bus.payments.handled && bus.payments.accepted == old(bus).payments.accepted + AsSeq(accepted)
      ensures s == (if accepted.Some? then AfterPayment(text, old(s), accepted.value) else old(s)).(cancelled := s.cancelled)
      ensures accepted.Some? ==> PaymentMatches(text, accepted.value, Rec(old(s)))
      ensures reliable ==> (err.None? <==> Among(bus.payments.handled, |old(bus).payments.handled|, PaymentTest(text, Rec(old(s)).personalInfo, Rec(old(s)).booking)))
      ensures reliable ==> HearsAs(GuestBus.Hear(GuestBus.PAYMENTS, old(bus), schedule, PaymentTest(text, Rec(old(s)).personalInfo, Rec(old(s)).booking)), err, accepted)
    {
      for i := 0 to |schedule|
        invariant Calm() && s == old(s).(cancelled := s.cancelled) && (old(s).cancelled ==> s.cancelled)
        invariant bus == GuestBus.Run(played) && Listening(bus.payments) && bus.payments.accepted == old(bus).payments.accepted
        invariant GuestBus.SameWaits(bus.confirmations, old(bus).confirmations) && GuestBus.SameWaits(bus.checkins, old(bus).checkins)
        invariant old(bus).payments.handled <= bus.payments.handled
        invariant reliable ==> !Among(bus.payments.handled, |old(bus).payments.handled|, PaymentTest(text, Rec(old(s)).personalInfo, Rec(old(s)).booking))
        invariant reliable ==> GuestBus.Hear(GuestBus.PAYMENTS, bus, schedule[i..], PaymentTest(text, Rec(old(s)).personalInfo, Rec(old(s)).booking))
                               == GuestBus.Hear(GuestBus.PAYMENTS, old(bus), schedule, PaymentTest(text, Rec(old(s)).personalInfo, Rec(old(s)).booking))
      {
        ghost var before := bus.payments.handled;
        assert schedule[i..][1..] == schedule[i + 1..];
        var done;
        done, accepted := ListenForPayment(schedule[i]);
        AmongSplit(bus.payments.handled, |old(bus).payments.handled|, |before|, PaymentTest(text, Rec(old(s)).personalInfo, Rec(old(s)).booking));
        if done {
          return (if accepted.Some? then None else Some(NoMatchingMessage)), accepted;
        }
      }
      err, accepted := Some(Unfinished), None;
    }

    /** Tries the messages the bus hands over until one matches and its invoice is saved. */
    method WaitPaymentRequest(reception: Reception, ghost g: Guest) returns (err: Option<Error>)
      requires Calm() && Story(text, s, g) && |s.log| == 1 && s.log[0].id != "" && s.guestId != ""
      requires BusInHand() && GuestBus.Idle(bus) && s.attached
      modifies this
      ensures Calm() && Story(text, s, g) && Fine(err) && Kept(old(s))
      ensures s == old(s).(store := s.store, cancelled := s.cancelled, log := s.log)
      ensures if err.None? then |s.log| == 2 else s.log == old(s).log
      ensures BusInHand() && (err != Some(Unfinished) ==> GuestBus.Idle(bus))
      ensures old(bus).payments.handled <= bus.payments.handled
      ensures reliable ==> (err.None? <==> Among(bus.payments.handled, |old(bus).payments.handled|, PaymentTest(text, Rec(old(s)).personalInfo, Rec(old(s)).booking)))
      ensures reliable ==> (err.None? <==> PaymentWait(text, g, BookingIn(old(s)), old(bus), reception).accepted.Some?) && (err.None? ==> bus == PaymentWait(text, g, BookingIn(old(s)), old(bus), reception).bus)
    {
      ghost var before := s;
      OpenPayment(reception);
      var accepted;
      err, accepted := UntilPayment(reception.during);
      if accepted.Some? {
        PaymentExtendsStory(text, before, g, accepted.value);
      }
    }

    /** `answer` is the receipt the payment service gives, if it answers. */
    method PaymentFlow(answer: Option<string>, ghost g: Guest) returns (err: Option<Error>)
      requires Calm() && Story(text, s, g) && |s.log| == 2
      modifies this`s
      ensures Calm() && Story(text, s, g) && Fine(err) && Kept(old(s))
      ensures s == old(s).(store := s.store, cancelled := s.cancelled, log := s.log) && 2 <= |s.log| <= 3
      ensures err.None? ==> s.cancelled || |s.log| == 3
      ensures err.None? && |s.log| == 3 ==>
                answer.Some? && Rec(s) == Rec(old(s)).(invoice := Some(Invoice(Rec(old(s)).invoice.value.number, answer.value)))
      ensures err != Some(Unfinished) && (reliable ==> (err.None? <==> answer.Some?))
    {
      Pause();
      if s.cancelled {
        return None;
      }
      var r := Load();
      if r.None? {
        return Some(CacheFailed);
      }
      var b, n := r.value.booking, r.value.invoice;
      if r.value.personalInfo.None? || b.None? || b.value.bookingId == "" || b.value.cottage == "" || b.value.period.None?
         || n.None? || n.value.number == "" {
        return Some(NoPaymentContext);
      }
      if answer.None? {
        return Some(RemoteFailed);
      }
      s := s.(log := s.log + [Paid(n.value.number)]);
      var saved := Save(r.value.(invoice := Some(n.value.(receipt := answer.value))));
      err := if saved then None else Some(CacheFailed);
    }

    /** Compares a confirmation with the record. */
    method MatchBookingConfirmation(m: Confirmation) returns (ok: bool)
      requires Calm() && HasRecord()
      modifies this`s
      ensures Calm() && (old(s).cancelled ==> s.cancelled)
      ensures s == (if ok then AfterConfirmation(old(s), m) else old(s)).(cancelled := s.cancelled)
      ensures ok ==> ConfirmationMatches(m, Rec(old(s)), old(s).guestId)
      ensures reliable ==> (ok <==> ConfirmationMatches(m, Rec(old(s)), old(s).guestId))
    {
      var r := Load();
      ok := r.Some? && ConfirmationMatches(m, r.value, s.guestId);
      if ok {
        s := s.(log := s.log + [ConfirmationAccepted(m)]);
      }
    }

    /** Passes the verdict to the bus and unsubscribes if the wait is over. */
    method DecideConfirmation(e: TypedBus.Event<Confirmation>, ok: bool) returns (done: bool)
      requires bus == GuestBus.Run(played) && Listening(bus.confirmations) && (ok ==> TypedBus.Tried(bus.confirmations, e).Some?)
      modifies this`bus, this`played
      ensures bus == GuestBus.Run(played)
      ensures GuestBus.SameWaits(bus.payments, old(bus).payments) && GuestBus.SameWaits(bus.checkins, old(bus).checkins)
      ensures if done then bus.confirmations.waiter.Absent? else Listening(bus.confirmations)
      ensures bus.confirmations.handled == old(bus).confirmations.handled + AsSeq(TypedBus.Tried(old(bus).confirmations, e))
      ensures bus.confirmations.accepted == old(bus).confirmations.accepted + (if ok then AsSeq(TypedBus.Tried(old(bus).confirmations, e)) else [])
      ensures ok ==> done
      ensures bus == GuestBus.Decision(GuestBus.CONFIRMATIONS, old(bus), e, ok)
      ensures done == GuestBus.Next(old(bus), GuestBus.AtConfirmations(TypedBus.Decided(e, ok))).confirmations.waiter.Leaving?
    {
      Advance(GuestBus.AtConfirmations(TypedBus.Decided(e, ok)));
      done := bus.confirmations.waiter.Leaving?;
      if done {
        Advance(GuestBus.AtConfirmations(TypedBus.Unsubscribe));
      }
    }

    /** One step of the wait. */
    method ListenForConfirmation(e: GuestBus.Event) returns (done: bool, accepted: Option<Confirmation>)
      requires Calm() && HasRecord() && s.attached && bus == GuestBus.Run(played) && Listening(bus.confirmations)
      modifies this
      ensures Calm() && (old(s).cancelled ==> s.cancelled) && bus == GuestBus.Run(played)
      ensures GuestBus.SameWaits(bus.payments, old(bus).payments) && GuestBus.SameWaits(bus.checkins, old(bus).checkins)
      ensures if done then bus.confirmations.waiter.Absent? else Listening(bus.confirmations)
      ensures old(bus).confirmations.handled <= bus.confirmations.handled && bus.confirmations.accepted == old(bus).confirmations.accepted + AsSeq(accepted)
      ensures s == (if accepted.Some? then AfterConfirmation(old(s), accepted.value) else old(s)).(cancelled := s.cancelled)
      ensures accepted.Some? ==> done && ConfirmationMatches(accepted.value, Rec(old(s)), old(s).guestId)
      ensures reliable ==> (accepted.Some? <==> Among(bus.confirmations.handled, |old(bus).confirmations.handled|, ConfirmationTest(Rec(old(s)).booking, old(s).guestId)))
      ensures reliable ==> GuestBus.Hearing(bus, done, accepted) == GuestBus.HearOne(GuestBus.CONFIRMATIONS, old(bus), e, ConfirmationTest(Rec(old(s)).booking, old(s).guestId))
    {
      done, accepted := false, None;
      if GuestBus.Goroutine(e) {
        Advance(e);
      } else if e.AtConfirmations? {
        var m, ok := TypedBus.Tried(bus.confirmations, e.c), false;
        if m.Some? {
          ok := MatchBookingConfirmation(m.value);
          accepted := if ok then m else None;
        }
        done := DecideConfirmation(e.c, ok);
        AmongNew(old(bus).confirmations.handled, m, ConfirmationTest(Rec(old(s)).booking, old(s).guestId));
      }
    }

    /** Subscribes, after what arrived before. */
    method OpenConfirmation(reception: Reception)
      requires bus == GuestBus.Run(played) && bus.confirmations.waiter.Absent? && s.attached
      modifies this`bus, this`played
      ensures bus == GuestBus.Run(played) && Listening(bus.confirmations)
      ensures bus == GuestBus.Next(GuestBus.Arrived(old(bus), reception.arrivals), GuestBus.AtConfirmations(TypedBus.Subscribe(reception.ch)))
      ensures GuestBus.SameWaits(bus.payments, old(bus).payments) && GuestBus.SameWaits(bus.checkins, old(bus).checkins)
      ensures bus.confirmations.handled == old(bus).confirmations.handled && bus.confirmations.accepted == old(bus).confirmations.accepted
    {
      PlayArrivals(reception.arrivals);
      Advance(GuestBus.AtConfirmations(TypedBus.Subscribe(reception.ch)));
    }

    /** Listens as the schedule goes. */
    method UntilConfirmation(schedule: seq<GuestBus.Event>) returns (err: Option<Error>, accepted: Option<Confirmation>)
      requires Calm() && HasRecord() && s.attached && bus == GuestBus.Run(played) && Listening(bus.confirmations)
      modifies this
      ensures Calm() && (old(s).cancelled ==> s.cancelled) && bus == GuestBus.Run(played)
      ensures GuestBus.SameWaits(bus.payments, old(bus).payments) && GuestBus.SameWaits(bus.checkins, old(bus).checkins)
      ensures (err.None? <==> accepted.Some?) && (err.Some? ==> err.value in {NoMatchingMessage, Unfinished})
      ensures err != Some(Unfinished) ==> bus.confirmations.waiter.Absent?
      ensures old(bus).confirmations.handled <= bus.confirmations.handled && bus.confirmations.accepted == old(bus).confirmations.accepted + AsSeq(accepted)
      ensures s == (if accepted.Some? then AfterConfirmation(old(s), accepted.value) else old(s)).(cancelled := s.cancelled)
      ensures accepted.Some? ==> ConfirmationMatches(accepted.value, Rec(old(s)), old(s).guestId)
      ensures reliable ==> (err.None? <==> Among(bus.confirmations.handled, |old(bus).confirmations.handled|, ConfirmationTest(Rec(old(s)).booking, old(s).guestId)))
      ensures reliable ==> HearsAs(GuestBus.Hear(GuestBus.CONFIRMATIONS, old(bus), schedule, ConfirmationTest(Rec(old(s)).booking, old(s).guestId)), err, accepted)
    {
      for i := 0 to |schedule|
        invariant Calm() && s == old(s).(cancelled := s.cancelled) && (old(s).cancelled ==> s.cancelled)
        invariant bus == GuestBus.Run(played) && Listening(bus.confirmations) && bus.confirmations.accepted == old(bus).confirmations.accepted
        invariant GuestBus.SameWaits(bus.payments, old(bus).payments) && GuestBus.SameWaits(bus.checkins, old(bus).checkins)
        invariant old(bus).confirmations.handled <= bus.confirmations.handled
        invariant reliable ==> !Among(bus.confirmations.handled, |old(bus).confirmations.handled|, ConfirmationTest(Rec(old(s)).booking, old(s).guestId))
        invariant reliable ==> GuestBus.Hear(GuestBus.CONFIRMATIONS, bus, schedule[i..], ConfirmationTest(Rec(old(s)).booking, old(s).guestId))
                               == GuestBus.Hear(GuestBus.CONFIRMATIONS, old(bus), schedule, ConfirmationTest(Rec(old(s)).booking, old(s).guestId))
      {
        ghost var before := bus.confirmations.handled;
        assert schedule[i..][1..] == schedule[i + 1..];
        var done;
        done, accepted := ListenForConfirmation(schedule[i]);
        AmongSplit(bus.confirmations.handled, |old(bus).confirmations.handled|, |before|, ConfirmationTest(Rec(old(s)).booking, old(s).guestId));
        if done {
          return (if accepted.Some? then None else Some(NoMatchingMessage)), accepted;
        }
      }
      err, accepted := Some(Unfinished), None;
    }

    /** Waits for a confirmation of the booking. */
    method WaitBookingConfirmation(reception: Reception, ghost g: Guest) returns (err: Option<Error>)
      requires Calm() && Story(text, s, g) && |s.log| == 3
      requires BusInHand() && GuestBus.Idle(bus) && s.attached
      modifies this
      ensures Calm() && Story(text, s, g) && Fine(err) && Kept(old(s))
      ensures s == old(s).(cancelled := s.cancelled, log := s.log)
      ensures if err.None? then |s.log| == 4 else s.log == old(s).log
      ensures BusInHand() && (err != Some(Unfinished) ==> GuestBus.Idle(bus))
      ensures old(bus).confirmations.handled <= bus.confirmations.handled
      ensures reliable ==> (err.None? <==> Among(bus.confirmations.handled, |old(bus).confirmations.handled|, ConfirmationTest(Rec(old(s)).booking, old(s).guestId)))
      ensures reliable ==> (err.None? <==> ConfirmationWait(BookingIn(old(s)), old(s).guestId, old(bus), reception).accepted.Some?) && (err.None? ==> bus == ConfirmationWait(BookingIn(old(s)), old(s).guestId, old(bus), reception).bus)
    {
      ghost var before := s;
      OpenConfirmation(reception);
      var accepted;
      err, accepted := UntilConfirmation(reception.during);
      if accepted.Some? {
        ConfirmationExtendsStory(text, before, g, accepted.value);
      }
    }

    /** Compares a check-in message with the record. */
    method MatchCheckinToday(m: CheckinToday) returns (ok: bool)
      requires Calm() && HasRecord()
      modifies this`s
      ensures Calm() && (old(s).cancelled ==> s.cancelled)
      ensures s == (if ok then AfterCheckin(old(s), m) else old(s)).(cancelled := s.cancelled)
      ensures ok ==> CheckinMatches(m, Rec(old(s)), old(s).guestId)
      ensures reliable ==> (ok <==> CheckinMatches(m, Rec(old(s)), old(s).guestId))
    {
      var r := Load();
      ok := r.Some? && CheckinMatches(m, r.value, s.guestId);
      if ok {
        s := s.(log := s.log + [CheckinAccepted(m)]);
      }
    }

    /** Passes the verdict to the bus and unsubscribes if the wait is over. */
    method DecideCheckin(e: TypedBus.Event<CheckinToday>, ok: bool) returns (done: bool)
      requires bus == GuestBus.Run(played) && Listening(bus.checkins) && (ok ==> TypedBus.Tried(bus.checkins, e).Some?)
      modifies this`bus, this`played
      ensures bus == GuestBus.Run(played)
      ensures GuestBus.SameWaits(bus.payments, old(bus).payments) && GuestBus.SameWaits(bus.confirmations, old(bus).confirmations)
      ensures if done then bus.checkins.waiter.Absent? else Listening(bus.checkins)
      ensures bus.checkins.handled == old(bus).checkins.handled + AsSeq(TypedBus.Tried(old(bus).checkins, e))
      ensures bus.checkins.accepted == old(bus).checkins.accepted + (if ok then AsSeq(TypedBus.Tried(old(bus).checkins, e)) else [])
      ensures ok ==> done
      ensures bus == GuestBus.Decision(GuestBus.CHECKINS, old(bus), e, ok)
      ensures done == GuestBus.Next(old(bus), GuestBus.AtCheckins(TypedBus.Decided(e, ok))).checkins.waiter.Leaving?
    {
      Advance(GuestBus.AtCheckins(TypedBus.Decided(e, ok)));
      done := bus.checkins.waiter.Leaving?;
      if done {
        Advance(GuestBus.AtCheckins(TypedBus.Unsubscribe));
      }
    }

    /** One step of the wait. */
    method ListenForCheckin(e: GuestBus.Event) returns (done: bool, accepted: Option<CheckinToday>)
      requires Calm() && HasRecord() && s.attached && bus == GuestBus.Run(played) && Listening(bus.checkins)
      modifies this
      ensures Calm() && (old(s).cancelled ==> s.cancelled) && bus == GuestBus.Run(played)
      ensures GuestBus.SameWaits(bus.payments, old(bus).payments) && GuestBus.SameWaits(bus.confirmations, old(bus).confirmations)
      ensures if done then bus.checkins.waiter.Absent? else Listening(bus.checkins)
      ensures old(bus).checkins.handled <= bus.checkins.handled && bus.checkins.accepted == old(bus).checkins.accepted + AsSeq(accepted)
      ensures s == (if accepted.Some? then AfterCheckin(old(s), accepted.value) else old(s)).(cancelled := s.cancelled)
      ensures accepted.Some? ==> done && CheckinMatches(accepted.value, Rec(old(s)), old(s).guestId)
      ensures reliable ==> (accepted.Some? <==> Among(bus.checkins.handled, |old(bus).checkins.handled|, CheckinTest(Rec(old(s)).booking, old(s).guestId)))
      ensures reliable ==> GuestBus.Hearing(bus, done, accepted) == GuestBus.HearOne(GuestBus.CHECKINS, old(bus), e, CheckinTest(Rec(old(s)).booking, old(s).guestId))
    {
      done, accepted := false, None;
      if GuestBus.Goroutine(e) {
        Advance(e);
      } else if e.AtCheckins? {
        var m, ok := TypedBus.Tried(bus.checkins, e.k), false;
        if m.Some? {
          ok := MatchCheckinToday(m.value);
          accepted := if ok then m else None;
        }
        done := DecideCheckin(e.k, ok);
        AmongNew(old(bus).checkins.handled, m, CheckinTest(Rec(old(s)).booking, old(s).guestId));
      }
    }

    /** Subscribes, after what arrived before. */
    method OpenCheckin(reception: Reception)
      requires bus == GuestBus.Run(played) && bus.checkins.waiter.Absent? && s.attached
      modifies this`bus, this`played
      ensures bus == GuestBus.Run(played) && Listening(bus.checkins)
      ensures bus == GuestBus.Next(GuestBus.Arrived(old(bus), reception.arrivals), GuestBus.AtCheckins(TypedBus.Subscribe(reception.ch)))
      ensures GuestBus.SameWaits(bus.payments, old(bus).payments) && GuestBus.SameWaits(bus.confirmations, old(bus).confirmations)
      ensures bus.checkins.handled == old(bus).checkins.handled && bus.checkins.accepted == old(bus).checkins.accepted
    {
      PlayArrivals(reception.arrivals);
      Advance(GuestBus.AtCheckins(TypedBus.Subscribe(reception.ch)));
    }

    /** Listens as the schedule goes. */
    method UntilCheckin(schedule: seq<GuestBus.Event>) returns (err: Option<Error>, accepted: Option<CheckinToday>)
      requires Calm() && HasRecord() && s.attached && bus == GuestBus.Run(played) && Listening(bus.checkins)
      modifies this
      ensures Calm() && (old(s).cancelled ==> s.cancelled) && bus == GuestBus.Run(played)
      ensures GuestBus.SameWaits(bus.payments, old(bus).payments) && GuestBus.SameWaits(bus.confirmations, old(bus).confirmations)
      ensures (err.None? <==> accepted.Some?) && (err.Some? ==> err.value in {NoMatchingMessage, Unfinished})
      ensures err != Some(Unfinished) ==> bus.checkins.waiter.Absent?
      ensures old(bus).checkins.handled <= bus.checkins.handled && bus.checkins.accepted == old(bus).checkins.accepted + AsSeq(accepted)
      ensures s == (if accepted.Some? then AfterCheckin(old(s), accepted.value) else old(s)).(cancelled := s.cancelled)
      ensures accepted.Some? ==> CheckinMatches(accepted.value, Rec(old(s)), old(s).guestId)
      ensures reliable ==> (err.None? <==> Among(bus.checkins.handled, |old(bus).checkins.handled|, CheckinTest(Rec(old(s)).booking, old(s).guestId)))
      ensures reliable ==> HearsAs(GuestBus.Hear(GuestBus.CHECKINS, old(bus), schedule, CheckinTest(Rec(old(s)).booking, old(s).guestId)), err, accepted)
    {
      for i := 0 to |schedule|
        invariant Calm() && s == old(s).(cancelled := s.cancelled) && (old(s).cancelled ==> s.cancelled)
        invariant bus == GuestBus.Run(played) && Listening(bus.checkins) && bus.checkins.accepted == old(bus).checkins.accepted
        invariant GuestBus.SameWaits(bus.payments, old(bus).payments) && GuestBus.SameWaits(bus.confirmations, old(bus).confirmations)
        invariant old(bus).checkins.handled <= bus.checkins.handled
        invariant reliable ==> !Among(bus.checkins.handled, |old(bus).checkins.handled|, CheckinTest(Rec(old(s)).booking, old(s).guestId))
        invariant reliable ==> GuestBus.Hear(GuestBus.CHECKINS, bus, schedule[i..], CheckinTest(Rec(old(s)).booking, old(s).guestId))
                               == GuestBus.Hear(GuestBus.CHECKINS, old(bus), schedule, CheckinTest(Rec(old(s)).booking, old(s).guestId))
      {
        ghost var before := bus.checkins.handled;
        assert schedule[i..][1..] == schedule[i + 1..];
        var done;
        done, accepted := ListenForCheckin(schedule[i]);
        AmongSplit(bus.checkins.handled, |old(bus).checkins.handled|, |before|, CheckinTest(Rec(old(s)).booking, old(s).guestId));
        if done {
          return (if accepted.Some? then None else Some(NoMatchingMessage)), accepted;
        }
      }
      err, accepted := Some(Unfinished), None;
    }

    /** Waits for the day of arrival. */
    method WaitCheckinToday(reception: Reception, ghost g: Guest) returns (err: Option<Error>)
      requires Calm() && Story(text, s, g) && |s.log| == 4
      requires BusInHand() && GuestBus.Idle(bus) && s.attached
      modifies this
      ensures Calm() && Story(text, s, g) && Fine(err) && Kept(old(s))
      ensures s == old(s).(cancelled := s.cancelled, log := s.log)
      ensures if err.None? then |s.log| == 5 else s.log == old(s).log
      ensures BusInHand() && (err != Some(Unfinished) ==> GuestBus.Idle(bus))
      ensures old(bus).checkins.handled <= bus.checkins.handled
      ensures reliable ==> (err.None? <==> Among(bus.checkins.handled, |old(bus).checkins.handled|, CheckinTest(Rec(old(s)).booking, old(s).guestId)))
      ensures reliable ==> (err.None? <==> CheckinWait(BookingIn(old(s)), old(s).guestId, old(bus), reception).accepted.Some?) && (err.None? ==> bus == CheckinWait(BookingIn(old(s)), old(s).guestId, old(bus), reception).bus)
    {
      ghost var before := s;
      OpenCheckin(reception);
      var accepted;
      err, accepted := UntilCheckin(reception.during);
      if accepted.Some? {
        CheckinExtendsStory(text, before, g, accepted.value);
      }
    }

    // ---------- lodging and cleanup ----------

    method Lodge(env: LodgingScript.Env, visit: LodgingScript.Visit) returns (ok: bool)
      ensures ok <==> Completes(env, visit)
    {
      var step := new LodgingStep.RunLodging(env, LodgingPlan.DEFAULT_FLOW);
      ok := step.Execute(visit);
    }

    method LodgingFlow(env: LodgingScript.Env, connected: bool, keyId: string, ghost g: Guest) returns (err: Option<Error>)
      requires Calm() && Story(text, s, g) && |s.log| == 5
      modifies this`s
      ensures Calm() && Story(text, s, g) && Fine(err) && Kept(old(s))
      ensures s == old(s).(cancelled := s.cancelled, log := s.log)
      ensures err.None? ==> s.cancelled || |s.log| == 6
      ensures err != Some(Unfinished) && (|s.log| == 6 ==> (err.None? <==> Completes(env, s.log[5].visit)))
      ensures reliable ==> (err.None? <==> connected && Completes(env, VisitOf(g, StayOf(old(s)), keyId)))
    {
      Pause();
      if s.cancelled {
        return None;
      }
      err := RunLodging(env, connected, keyId, g);
    }

    /** The one step of the lodging flow. */
    method RunLodging(env: LodgingScript.Env, connected: bool, keyId: string, ghost g: Guest) returns (err: Option<Error>)
      requires Calm() && Story(text, s, g) && |s.log| == 5
      modifies this`s
      ensures Calm() && Story(text, s, g) && Fine(err) && Kept(old(s))
      ensures s == old(s).(cancelled := s.cancelled, log := s.log) && 5 <= |s.log| <= 6
      ensures err.None? ==> |s.log| == 6
      ensures err != Some(Unfinished) && (|s.log| == 6 ==> (err.None? <==> Completes(env, s.log[5].visit)))
      ensures reliable ==> (err.None? <==> connected && Completes(env, VisitOf(g, StayOf(old(s)), keyId)))
    {
      var visit: Option<LodgingScript.Visit>;
      err, visit := LodgingContext(keyId, g);
      if err.Some? {
        return;
      }
      if !connected {
        return Some(RemoteFailed);
      }
      err := LiveThrough(env, visit.value, g);
    }

    method LiveThrough(env: LodgingScript.Env, visit: LodgingScript.Visit, ghost g: Guest) returns (err: Option<Error>)
      requires Story(text, s, g) && |s.log| == 5
      requires visit.period == s.log[0].period && visit.bookingId == s.log[0].id && visit.documentId == g.documentId
      modifies this`s
      ensures Story(text, s, g) && s == old(s).(log := old(s).log + [LodgingStarted(visit)])
      ensures err == if Completes(env, visit) then None else Some(LodgingFailed)
    {
      LodgingExtendsStory(text, s, g, visit);
      s := s.(log := s.log + [LodgingStarted(visit)]);
      var ok := Lodge(env, visit);
      err := if ok then None else Some(LodgingFailed);
    }

    /** The visit the cached record tells of; its checks cannot fail. */
    method LodgingContext(keyId: string, ghost g: Guest) returns (err: Option<Error>, visit: Option<LodgingScript.Visit>)
      requires Calm() && Story(text, s, g) && |s.log| == 5
      modifies this`s
      ensures Calm() && Later(old(s)) && Fine(err) && Story(text, s, g) && err != Some(Unfinished)
      ensures err.None? ==> visit == Some(VisitOf(g, StayOf(s), keyId))
      ensures reliable ==> err.None?
    {
      visit := None;
      var r := Load();
      if r.None? {
        return Some(CacheFailed), None;
      }
      var b := r.value.booking;
      if r.value.personalInfo.None? || b.None? || b.value.bookingId == "" || b.value.period.None? {
        return Some(NoLodgingContext), None;
      }
      err := None;
      visit := Some(LodgingScript.Visit(b.value.period.value, r.value.personalInfo.value.documentId, b.value.bookingId, keyId));
    }

    /** Inspects and deletes the record, then closes the channel if the bus has a consumer. */
    method Cleanup() returns (err: Option<Error>)
      requires Calm() && s.key != ""
      modifies this`s
      ensures Calm() && Fine(err) && (old(s).cancelled ==> s.cancelled)
      ensures s == old(s).(store := s.store, cancelled := s.cancelled, attached := s.attached, closes := s.closes)
      ensures s.store - {s.key} == old(s).store - {s.key}
      ensures err.None? ==> !s.cancelled
      ensures reliable && s.key in old(s).store ==>
                err.None? && s.key !in s.store && !s.attached && s.closes == old(s).closes + (if old(s).attached then 1 else 0)
    {
      var r := Load();
      if r.None? {
        return Some(CacheFailed);
      }
      var ok := CacheAnswers();
      if !ok {
        return Some(CacheFailed);
      }
      s := s.(store := s.store - {s.key});
      if s.attached {
        var fault: bool := *;
        if fault && !reliable {
          return Some(CleanupFailed);
        }
        s := s.(attached := false, closes := s.closes + 1);
      }
      err := None;
    }

    /** How the channel stands between setup and cleanup. Nothing is booked before it is set up. */
    ghost predicate ChannelInHand()
      reads this
    {
      && (if s.setUp then (s.attached && s.closes == 0) || (!s.attached && s.closes == 1) else !s.attached && s.closes == 0)
      && (s.log != [] ==> s.setUp && s.attached)
    }

    /** From registration to a booking the cache knows the id of. */
    method UntilBooked(env: Surroundings, ghost g: Guest) returns (err: Option<Error>)
      requires Calm() && Story(text, s, g) && s.log == [] && s.path == [] && !s.attached && !s.setUp && s.closes == 0
      requires TripOf(s) == NO_TRIP && bus == GuestBus.NEW_BUS && played == []
      requires forall i :: 0 <= i < |env.draws| ==> 0.0 <= env.draws[i].next < 1.0
      modifies this
      ensures Calm() && Recorded(s, g) && Tale(text, s, g) && |s.log| <= 1 && Fine(err) && Kept(old(s))
      ensures Walk(s.path) && ChannelInHand() && bus == GuestBus.NEW_BUS && played == []
      ensures err.None? ==> Story(text, s, g) && |s.log| == 1 && s.log[0].id != "" && s.guestId != ""
      ensures reliable ==> (err.None? <==> Registers(env) && SetsUp(env) && BookedIn(env.draws).Some?)
      ensures reliable && err.None? ==> s.guestId == env.registered.value && Some(StayOf(s)) == BookedIn(env.draws)
    {
      err := RegisterFlow(env, g);
      if err.Some? {
        return;
      }
      err := SetupCommunication(env);
      if err.Some? {
        return;
      }
      err := BookingFlow(env.draws, g);
      if err.Some? {
        return;
      }
      err := CheckBooking(g);
    }

    /** The booking made must have an id; then the record is brought up to date. */
    method CheckBooking(ghost g: Guest) returns (err: Option<Error>)
      requires Calm() && Story(text, s, g) && |s.log| <= 1
      modifies this`s
      ensures Calm() && Story(text, s, g) && Fine(err) && Kept(old(s)) && err != Some(Unfinished)
      ensures s == old(s).(store := s.store, cancelled := s.cancelled)
      ensures err.None? ==> |s.log| == 1 && s.log[0].id != "" && s.guestId != ""
      ensures reliable && s.guestId != "" ==> (err.None? <==> |s.log| == 1 && s.log[0].id != "")
    {
      var r := Load();
      if r.None? {
        return Some(CacheFailed);
      }
      if r.value.booking.None? || r.value.booking.value.bookingId == "" {
        return Some(NoBookingId);
      }
      err := SyncStateCache(g);
    }

    /** The payment request, the payment, and the record brought up to date. */
    method Pay(env: Surroundings, ghost g: Guest) returns (err: Option<Error>)
      requires Calm() && Story(text, s, g) && |s.log| == 1 && s.log[0].id != "" && s.guestId != ""
      requires BusInHand() && GuestBus.Idle(bus) && s.attached
      modifies this
      ensures Calm() && Story(text, s, g) && Fine(err) && Kept(old(s)) && SameChannel(old(s)) && s.path == old(s).path
      ensures |s.log| <= 3 && (err.None? ==> |s.log| == 3)
      ensures BusInHand() && (err.None? ==> GuestBus.Idle(bus))
      ensures reliable ==> var h := PaymentWait(text, g, BookingIn(old(s)), old(bus), env.payments);
                           && (err.None? <==> h.accepted.Some? && env.receipt.Some?)
                           && (err.None? ==> bus == h.bus)
    {
      err := WaitPaymentRequest(env.payments, g);
      if err.Some? {
        return;
      }
      err := PaymentFlow(env.receipt, g);
      if err.Some? {
        return;
      }
      err := SyncStateCache(g);
    }

    /** From the payment request to the end of the stay. */
    method FromPaymentOn(env: Surroundings, ghost g: Guest) returns (err: Option<Error>)
      requires Calm() && Story(text, s, g) && |s.log| == 1 && s.log[0].id != "" && s.guestId != ""
      requires BusInHand() && GuestBus.Idle(bus) && s.attached
      modifies this
      ensures Calm() && Story(text, s, g) && Fine(err) && Kept(old(s)) && SameChannel(old(s)) && s.path == old(s).path
      ensures err.None? ==> s.cancelled || |s.log| == 6
      ensures |s.log| == 6 ==> err != Some(Unfinished) && (err.None? <==> Completes(env.chat, s.log[5].visit))
      ensures BusInHand()
      ensures reliable ==> (err.None? <==> && Arrives(text, g, BookingIn(old(s)), old(s).guestId, old(bus), env)
                                           && env.connected && Completes(env.chat, VisitOf(g, StayOf(old(s)), env.keyId)))
    {
      err := UntilLodging(env, g);
      if err.None? {
        err := LodgingFlow(env.chat, env.connected, env.keyId, g);
      }
    }

    method UntilLodging(env: Surroundings, ghost g: Guest) returns (err: Option<Error>)
      requires Calm() && Story(text, s, g) && |s.log| == 1 && s.log[0].id != "" && s.guestId != ""
      requires BusInHand() && GuestBus.Idle(bus) && s.attached
      modifies this
      ensures Calm() && Story(text, s, g) && Fine(err) && Kept(old(s)) && SameChannel(old(s)) && s.path == old(s).path
      ensures |s.log| <= 5 && (err.None? ==> |s.log| == 5)
      ensures BusInHand()
      ensures reliable ==> (err.None? <==> Arrives(text, g, BookingIn(old(s)), old(s).guestId, old(bus), env))
    {
      err := Pay(env, g);
      if err.None? {
        err := UntilArrival(env, g);
      }
    }

    /** The confirmation, then the day of arrival. */
    method UntilArrival(env: Surroundings, ghost g: Guest) returns (err: Option<Error>)
      requires Calm() && Story(text, s, g) && |s.log| == 3
      requires BusInHand() && GuestBus.Idle(bus) && s.attached
      modifies this
      ensures Calm() && Story(text, s, g) && Fine(err) && Kept(old(s))
      ensures s == old(s).(cancelled := s.cancelled, log := s.log)
      ensures |s.log| <= 5 && (err.None? ==> |s.log| == 5)
      ensures BusInHand()
      ensures reliable ==> var h := ConfirmationWait(BookingIn(old(s)), old(s).guestId, old(bus), env.confirmations);
                           (err.None? <==> h.accepted.Some? && CheckinWait(BookingIn(old(s)), old(s).guestId, h.bus, env.checkins).accepted.Some?)
    {
      err := WaitBookingConfirmation(env.confirmations, g);
      if err.None? {
        err := WaitCheckinToday(env.checkins, g);
      }
    }

    /** All stages between guest creation and cleanup. */
    method Stages(env: Surroundings, ghost g: Guest) returns (err: Option<Error>)
      requires Calm() && Story(text, s, g) && s.log == [] && s.path == [] && !s.attached && !s.setUp && s.closes == 0
      requires TripOf(s) == NO_TRIP && bus == GuestBus.NEW_BUS && played == []
      requires forall i :: 0 <= i < |env.draws| ==> 0.0 <= env.draws[i].next < 1.0
      modifies this
      ensures Calm() && Recorded(s, g) && Tale(text, s, g) && Fine(err) && Kept(old(s))
      ensures Walk(s.path) && ChannelInHand() && (bus.taken != [] ==> s.setUp) && AllDelivered()
      ensures err.None? ==> s.cancelled || |s.log| == 6
      ensures |s.log| == 6 ==> err != Some(Unfinished) && (err.None? <==> Completes(env.chat, s.log[5].visit))
      ensures reliable ==> (err.None? <==> Prospers(text, g, env))
    {
      err := UntilBooked(env, g);
      if err.None? {
        err := FromPaymentOn(env, g);
      }
      EveryoneDelivered(g);
    }

    /** Every message accepted came in a delivery of its type, which is acked once settled. */
    ghost predicate AllDelivered()
      reads this
    {
      && (forall m :: PaymentAccepted(m) in s.log ==> GuestBus.Delivered(bus, GuestBus.PaymentDelivery(Some(m))))
      && (forall m :: ConfirmationAccepted(m) in s.log ==> GuestBus.Delivered(bus, GuestBus.ConfirmationDelivery(Some(m))))
      && (forall m :: CheckinAccepted(m) in s.log ==> GuestBus.Delivered(bus, GuestBus.CheckinDelivery(Some(m))))
    }

    lemma EveryoneDelivered(g: Guest)
      requires Tale(text, s, g) && BusInHand()
      ensures AllDelivered()
    {
      AcceptedInTale(text, s, g);
      GuestBus.RunIsSound(played);
      GuestBus.AcceptedWasDelivered(bus);
    }

    /** The whole journey. Cleanup runs on every way out, once on success and after every error. */
    method Start(g: Guest, env: Surroundings) returns (err: Option<Error>)
      requires Calm() && s == State(s.store, None, "", None, "", false, false, [], [], None, false, 0)
      requires bus == GuestBus.NEW_BUS && played == []
      requires forall i :: 0 <= i < |env.draws| ==> 0.0 <= env.draws[i].next < 1.0
      modifies this
      // the key is fixed by the document id, and no other journey's record is touched
      ensures s.key == "guest.pending." + text.lower(g.documentId)
      ensures s.store - {s.key} == old(s).store - {s.key}
      // whatever happened, it happened in order and about one booking; lodging comes last of six
      ensures Tale(text, s, g) && Walk(s.path)
      ensures forall e :: e in s.log && e.LodgingStarted? ==> |s.log| == 6 && e == s.log[5]
      // every message accepted came in a delivery of its type, which is acked once settled
      ensures AllDelivered()
      // the queue was set up before anything was booked or delivered
      ensures s.log != [] || bus.taken != [] ==> s.setUp
      // success means that the stay was lived through to its end
      ensures err.None? ==> |s.log| == 6 && Completes(env.chat, s.log[5].visit)
      ensures reliable && |s.log| == 6 ==> (err.None? <==> Completes(env.chat, s.log[5].visit))
      // exactly when a reliable journey succeeds
      ensures reliable ==> (err.None? <==> Prospers(text, g, env))
      // no check of the cached context can fail
      ensures Fine(err)
      // cleanup
      ensures reliable && err != Some(Unfinished) ==>
                s.key !in s.store && !s.attached && s.closes == (if s.setUp then 1 else 0)
      ensures reliable && err.None? ==> s.setUp && s.closes == 1
    {
      err := CreateGuest(g);
      if err.None? {
        err := Stages(env, g);
        LodgingComesLast(text, s, g);
        if err == Some(Unfinished) {
          return;
        }
      }
      err := CleanupAfter(err);
    }

    /** Cleans up, and once more after an error, be it of the journey or of the first cleanup. */
    method CleanupAfter(failure: Option<Error>) returns (err: Option<Error>)
      requires Calm() && s.key != "" && Fine(failure)
      modifies this`s
      ensures Calm() && Fine(err) && (err.None? ==> failure.None? && !s.cancelled) && (old(s).cancelled ==> s.cancelled)
      ensures s == old(s).(store := s.store, cancelled := s.cancelled, attached := s.attached, closes := s.closes)
      ensures s.store - {s.key} == old(s).store - {s.key}
      ensures reliable && s.key in old(s).store ==>
                err == failure && s.key !in s.store && !s.attached && s.closes == old(s).closes + (if old(s).attached then 1 else 0)
    {
      err := failure;
      if err.None? {
        err := Cleanup();
      }
      if err.Some? {
        var _ := Cleanup();
      }
    }
  }
}
