/** What a journey meets, and what comes of it when cache and channel do not fail and nobody cancels. */
module JourneyOutcome {
  import opened Calendar
  import opened Wrappers
  import opened Communication
  import opened BookingGraph
  import opened JourneyState
  import StaySelection
  import LodgingPlan
  import LodgingScript
  import GuestBus

  /** What one turn of the booking walk meets: the random numbers and what listing, clock, availability and booking
      answer, should they be asked. None is a failed request. */
  datatype Draw = Draw(
    next: real,
    index: nat,
    names: Option<seq<string>>,
    now: Option<int>,
    service: StaySelection.Service,
    booking: Option<string>)

  /** What a wait meets: its channel, what the bus goroutine does before it subscribes, and how goroutine and
      waiter take turns from then on. */
  datatype Reception = Reception(ch: nat, arrivals: seq<GuestBus.Event>, during: seq<GuestBus.Event>)

  /** What a journey meets: the answers to registration, account, queue and payment, the draws of its walk, the three
      waits, and the chat. */
  datatype Surroundings = Surroundings(
    registered: Option<string>,
    account: bool,
    declared: bool, bound: bool, consuming: bool,
    draws: seq<Draw>,
    payments: Reception,
    receipt: Option<string>,
    confirmations: Reception,
    checkins: Reception,
    connected: bool,
    chat: LodgingScript.Env,
    keyId: string)

  // ---------- the booking walk ----------

  datatype BookedStay = BookedStay(id: string, cottage: string, period: Period)

  /** What the walk has in hand: the cottages listed, the stay selected, the stay booked. */
  datatype Trip = Trip(listed: seq<string>, pick: Option<StaySelection.Candidate>, booked: Option<BookedStay>)

  function TripOf(s: State): Trip {
    Trip(if s.cottages.Some? then s.cottages.value else [],
         if s.pick.Some? then Some(s.pick.value.best) else None,
         if |s.log| >= 1 && s.log[0].Booked? then Some(BookedStay(s.log[0].id, s.log[0].cottage, s.log[0].period)) else None)
  }

  /** The stay of a journey that has booked. */
  function StayOf(s: State): BookedStay
    requires |s.log| >= 1 && s.log[0].Booked?
  {
    BookedStay(s.log[0].id, s.log[0].cottage, s.log[0].period)
  }

  function BookingIn(s: State): Booking
    requires |s.log| >= 1 && s.log[0].Booked?
  {
    BookingOf(StayOf(s))
  }

  /** Every request of a search is answered. */
  ghost predicate Answered(search: StaySelection.Search) {
    forall k: nat, w :: k < |search.cottages| && w in StaySelection.SEARCH_WINDOWS ==> search.service(k, w).Some?
  }

  ghost function BestOfSearch(search: StaySelection.Search): Option<StaySelection.Candidate> {
    if exists c :: StaySelection.BestOf(search, c) then
      var c :| StaySelection.BestOf(search, c);
      Some(c)
    else None
  }

  lemma BestIsUnique(search: StaySelection.Search, c: StaySelection.Candidate)
    requires StaySelection.BestOf(search, c)
    ensures BestOfSearch(search) == Some(c)
  {
    var best := BestOfSearch(search).value;
    StaySelection.OptimumIsUnique(search.now, search.cottages, StaySelection.SEARCH_WINDOWS, StaySelection.NUMBER_OF_NIGHTS,
                                  search.service, best, c);
  }

  /** The stay a period selection comes to. */
  ghost function Choice(d: Draw, listed: seq<string>): Option<StaySelection.Candidate> {
    if d.now.Some? && listed != [] && Answered(StaySelection.Search(d.now.value, listed, d.service)) then
      BestOfSearch(StaySelection.Search(d.now.value, listed, d.service))
    else None
  }

  /** What one step of the walk makes of a trip, or None if it fails. */
  ghost function StepResult(step: Step, d: Draw, t: Trip): Option<Trip> {
    match step
    case ListCottages => if d.names.Some? then Some(t.(listed := d.names.value)) else None
    case SelectCottage => if t.listed != [] then Some(t) else None
    case SelectPeriod => if Choice(d, t.listed).Some? then Some(t.(pick := Choice(d, t.listed))) else None
    case BookCottage =>
      if t.pick.Some? && t.pick.value.cottage != "" && d.booking.Some? then
        Some(t.(booked := Some(BookedStay(d.booking.value, t.pick.value.cottage, t.pick.value.period))))
      else None
    case End => Some(t)
  }

  datatype Walked = WalkFails | WalkGoesOn | WalkEnds(booked: Option<BookedStay>)

  ghost function WalkOutcome(draws: seq<Draw>, step: Step, t: Trip): Walked
    decreases |draws|
  {
    if draws == [] then WalkGoesOn
    else
      var r := StepResult(step, draws[0], t);
      if r.None? then WalkFails
      else if step == End then WalkEnds(r.value.booked)
      else WalkOutcome(draws[1..], NextStep(step, draws[0].next), r.value)
  }

  const NO_TRIP := Trip([], None, None)

  /** The stay the draws lead to, if the walk ends with a booking the service gave an id for. */
  ghost function BookedIn(draws: seq<Draw>): Option<BookedStay> {
    match WalkOutcome(draws, ListCottages, NO_TRIP)
    case WalkEnds(booked) => if booked.Some? && booked.value.id != "" then booked else None
    case _ => None
  }

  /** The shortest way to a booking: list, select a cottage, select a period, book, end, each by the luck of the draw
      and with every request answered. */
  lemma ShortestWalkBooks(names: seq<string>, now: int, service: StaySelection.Service, best: StaySelection.Candidate, id: string)
    requires names != [] && Answered(StaySelection.Search(now, names, service))
    requires StaySelection.BestOf(StaySelection.Search(now, names, service), best) && best.cottage != "" && id != ""
    ensures var d := Draw(0.0, 0, Some(names), Some(now), service, Some(id));
            BookedIn([d, d, d.(next := 0.9), d, d]) == Some(BookedStay(id, best.cottage, best.period))
  {
    var d := Draw(0.0, 0, Some(names), Some(now), service, Some(id));
    var draws := [d, d, d.(next := 0.9), d, d];
    BestIsUnique(StaySelection.Search(now, names, service), best);
    var listed := Trip(names, None, None);
    var picked := listed.(pick := Some(best));
    var booked := picked.(booked := Some(BookedStay(id, best.cottage, best.period)));
    assert draws[1..] == [d, d.(next := 0.9), d, d] && draws[1..][1..] == [d.(next := 0.9), d, d];
    assert [d.(next := 0.9), d, d][1..] == [d, d] && [d, d][1..] == [d];
    assert WalkOutcome([d], End, booked) == WalkEnds(booked.booked);
    assert WalkOutcome([d, d], BookCottage, picked) == WalkOutcome([d], End, booked);
    assert WalkOutcome([d.(next := 0.9), d, d], SelectPeriod, listed) == WalkOutcome([d, d], BookCottage, picked);
    assert WalkOutcome([d, d.(next := 0.9), d, d], SelectCottage, listed) == WalkOutcome([d.(next := 0.9), d, d], SelectPeriod, listed);
  }

  // ---------- the whole journey ----------

  ghost predicate Completes(env: LodgingScript.Env, visit: LodgingScript.Visit) {
    LodgingScript.Run(env, LodgingScript.START, LodgingScript.StayScript(LodgingPlan.DEFAULT_FLOW, visit)).ok
  }

  predicate Registers(env: Surroundings) {
    env.registered.Some? && env.registered.value != "" && env.account
  }

  predicate SetsUp(env: Surroundings) {
    env.declared && env.bound && env.consuming
  }

  function BookingOf(b: BookedStay): Booking {
    Booking(b.id, b.cottage, Some(b.period))
  }

  function VisitOf(g: Guest, b: BookedStay, keyId: string): LodgingScript.Visit {
    LodgingScript.Visit(b.period, g.documentId, b.id, keyId)
  }

  function PaymentWait(text: Text, g: Guest, booking: Booking, bus: GuestBus.GuestBus, r: Reception): GuestBus.Hearing<PaymentRequest> {
    GuestBus.WaitOutcome(GuestBus.PAYMENTS, bus, r.ch, r.arrivals, r.during, PaymentTest(text, Some(g), Some(booking)))
  }

  function ConfirmationWait(booking: Booking, guestId: string, bus: GuestBus.GuestBus, r: Reception): GuestBus.Hearing<Confirmation> {
    GuestBus.WaitOutcome(GuestBus.CONFIRMATIONS, bus, r.ch, r.arrivals, r.during, ConfirmationTest(Some(booking), guestId))
  }

  function CheckinWait(booking: Booking, guestId: string, bus: GuestBus.GuestBus, r: Reception): GuestBus.Hearing<CheckinToday> {
    GuestBus.WaitOutcome(GuestBus.CHECKINS, bus, r.ch, r.arrivals, r.during, CheckinTest(Some(booking), guestId))
  }

  /** The stages after the booking: a matching payment request is heard and paid, then a matching confirmation and a
      matching check-in message are heard. */
  ghost predicate Arrives(text: Text, g: Guest, booking: Booking, guestId: string, bus: GuestBus.GuestBus, env: Surroundings) {
    var paid := PaymentWait(text, g, booking, bus, env.payments);
    var confirmed := ConfirmationWait(booking, guestId, paid.bus, env.confirmations);
    && paid.accepted.Some? && env.receipt.Some?
    && confirmed.accepted.Some?
    && CheckinWait(booking, guestId, confirmed.bus, env.checkins).accepted.Some?
  }

  /** All that a journey needs to succeed. */
  ghost predicate Prospers(text: Text, g: Guest, env: Surroundings) {
    && Registers(env) && SetsUp(env)
    && var booked := BookedIn(env.draws);
       && booked.Some?
       && Arrives(text, g, BookingOf(booked.value), env.registered.value, GuestBus.NEW_BUS, env)
       && env.connected && Completes(env.chat, VisitOf(g, booked.value, env.keyId))
  }
}
