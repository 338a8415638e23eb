/** The time gate of a planned action: the hour-event service, the goroutine that forwards the events of
    one hour, and the waiter. Every buffer holds one event, senders drop what does not fit, and the three
    sides interleave freely. */
module TimeGate {
  import opened Calendar
  import opened Wrappers

  /** The forwarding goroutine registers itself at some point after the wait started it. */
  datatype Forwarder = Unregistered | Listening | Holding(event: int) | Ended

  datatype Waiter = Started | Selecting | Passed | Failed

  datatype Gate = Gate(
    target: int,
    accepted: seq<int>,           // all hour events the service accepted so far
    current: Option<int>,         // the service's current time
    announcing: Option<int>,      // event the service is about to offer to its subscribers
    snapshot: Option<bool>,       // once taken: whether that round of offers includes this wait
    forwarder: Forwarder,
    events: Option<int>,          // subscriber channel
    notifications: Option<int>,   // channel between forwarder and waiter
    waiter: Waiter)

  datatype Event =
    | Accept(time: int)  // a decoded hour event becomes the current time
    | Snapshot           // the service copies the list of subscribers
    | Offer              // the service offers it: taken if the channel is empty, else dropped
    | Register
    | Forward            // keep the event if its hour is the target's hour
    | Notify
    | EndForwarder
    | CheckCurrent       // the waiter compares the current time once
    | Receive            // the waiter's select picks a notification
    | Cancel

  /** Where the service stands when a wait starts: between two announcements, about to copy the list of
      subscribers for the latest event, or offering that event to a list without this wait. */
  datatype Phase = Resting | Announcing | Offering

  function NewGate(target: int, accepted: seq<int>, phase: Phase): Gate {
    var latest := if accepted == [] then None else Some(accepted[|accepted| - 1]);
    Gate(target, accepted, latest,
         if phase.Resting? then None else latest,
         if phase.Offering? && latest.Some? then Some(false) else None,
         Unregistered, None, None, Started)
  }

  predicate Enabled(g: Gate, e: Event) {
    match e
    case Accept(_) => g.announcing.None?
    case Snapshot => g.announcing.Some? && g.snapshot.None?
    case Offer => g.announcing.Some? && g.snapshot.Some?
    case Register => g.forwarder.Unregistered?
    case Forward => g.forwarder.Listening? && g.events.Some?
    case Notify => g.forwarder.Holding? && g.notifications.None?
    case EndForwarder => !g.forwarder.Ended?
    case CheckCurrent => g.waiter.Started?
    case Receive => g.waiter.Selecting? && g.notifications.Some?
    case Cancel => g.waiter.Selecting?
  }

  function Step(g: Gate, e: Event): Gate
    requires Enabled(g, e)
  {
    match e
    case Accept(t) =>
      g.(accepted := g.accepted + [t], current := Some(t), announcing := Some(t), snapshot := None)
    case Snapshot => g.(snapshot := Some(g.forwarder.Listening? || g.forwarder.Holding?))
    case Offer =>
      g.(announcing := None, snapshot := None, events := if g.snapshot.value && g.events.None? then g.announcing else g.events)
    case Register => g.(forwarder := Listening)
    case Forward =>
      g.(events := None, forwarder := if HourOf(g.events.value) == HourOf(g.target) then Holding(g.events.value) else Listening)
    case Notify => g.(forwarder := Listening, notifications := Some(g.forwarder.event))
    case EndForwarder => g.(forwarder := Ended)
    case CheckCurrent => g.(waiter := if g.current.Some? && g.current.value >= g.target then Passed else Selecting)
    case Receive =>
      var t := g.notifications.value;
      g.(notifications := None, waiter := if SameDay(t, g.target) && t >= g.target then Passed else Selecting)
    case Cancel => g.(waiter := Failed)
  }

  function Run(g: Gate, events: seq<Event>): Gate {
    if events == [] then g
    else
      var before, e := Run(g, events[..|events| - 1]), events[|events| - 1];
      if Enabled(before, e) then Step(before, e) else before
  }

  // ---------- safety ----------

  function InFlight(g: Gate): set<int> {
    (if g.announcing.Some? then {g.announcing.value} else {})
    + (if g.events.Some? then {g.events.value} else {})
    + (if g.forwarder.Holding? then {g.forwarder.event} else {})
    + (if g.notifications.Some? then {g.notifications.value} else {})
  }

  ghost predicate Sound(g: Gate) {
    && (forall t :: t in InFlight(g) ==> t in g.accepted)
    && (g.current.Some? ==> g.current.value in g.accepted)
    && (g.waiter.Passed? ==> exists t :: t in g.accepted && t >= g.target)
  }

  lemma StepIsSound(g: Gate, e: Event)
    requires Enabled(g, e) && Sound(g)
    ensures Sound(Step(g, e))
  {
    var after := Step(g, e);
    assert forall t :: t in g.accepted ==> t in after.accepted;
    if g.waiter.Passed? {
      var t :| t in g.accepted && t >= g.target;
      assert t in after.accepted;
    } else if e.CheckCurrent? && after.waiter.Passed? {
      assert g.current.value in after.accepted;
    } else if e.Receive? && after.waiter.Passed? {
      assert g.notifications.value in InFlight(g);
    }
  }

  ghost predicate NonDecreasing(s: seq<int>) {
    forall i, j :: 0 <= i < j < |s| ==> s[i] <= s[j]
  }

  lemma {:induction false} RunIsSound(g: Gate, events: seq<Event>)
    requires Sound(g)
    ensures Sound(Run(g, events)) && Run(g, events).target == g.target && g.accepted <= Run(g, events).accepted
  {
    if events != [] {
      var front, e := events[..|events| - 1], events[|events| - 1];
      RunIsSound(g, front);
      if Enabled(Run(g, front), e) {
        StepIsSound(Run(g, front), e);
      }
    }
  }

  /** Whatever is dropped and however the sides interleave, a wait passes only after the service accepted
      an event at or after the target; if events never go back, the latest accepted one is such an event. */
  lemma PassedMeansTimeHasCome(target: int, before: seq<int>, phase: Phase, events: seq<Event>)
    requires Run(NewGate(target, before, phase), events).waiter.Passed?
    ensures var g := Run(NewGate(target, before, phase), events);
            && (exists t :: t in g.accepted && t >= target)
            && (NonDecreasing(g.accepted) ==> g.accepted != [] && g.accepted[|g.accepted| - 1] >= target)
  {
    RunIsSound(NewGate(target, before, phase), events);
  }

  // ---------- which waits pass ----------

  /** An event that ends the wait when it comes through both channels. */
  predicate Qualifies(g: Gate, t: int) {
    SameDay(t, g.target) && t >= g.target && HourOf(t) == HourOf(g.target)
  }

  /** The offer under way will be taken. */
  predicate Caught(g: Gate) {
    Enabled(g, Offer) && g.snapshot.value && g.events.None? && Qualifies(g, g.announcing.value)
  }

  /** The waiter is about to look at the clock, and the latest event accepted has reached the target. */
  predicate SeesTarget(g: Gate) {
    g.waiter.Started? && g.accepted != [] && g.accepted[|g.accepted| - 1] >= g.target
  }

  predicate Opens(g: Gate, e: Event) {
    (e.Offer? && Caught(g)) || (e.CheckCurrent? && SeesTarget(g))
  }

  /** An event that will end the wait is past the service. */
  predicate Carried(g: Gate) {
    || (g.events.Some? && Qualifies(g, g.events.value))
    || (g.forwarder.Holding? && Qualifies(g, g.forwarder.event))
    || (g.notifications.Some? && Qualifies(g, g.notifications.value))
  }

  predicate GivesUp(e: Event) {
    e.Cancel? || e.EndForwarder?
  }

  /** The clock shows the latest event, and what the forwarder passes on has the target's hour. */
  predicate RightHour(g: Gate) {
    && g.current == (if g.accepted == [] then None else Some(g.accepted[|g.accepted| - 1]))
    && (g.forwarder.Holding? ==> HourOf(g.forwarder.event) == HourOf(g.target))
    && (g.notifications.Some? ==> HourOf(g.notifications.value) == HourOf(g.target))
  }

  /** A step opens the gate for good, or leaves it as it was: the event caught stays on its way until its own
      receipt ends the wait. */
  lemma StepOpens(g: Gate, e: Event)
    requires Enabled(g, e) && RightHour(g) && !GivesUp(e)
    ensures RightHour(Step(g, e))
    ensures (Step(g, e).waiter.Passed? || Carried(Step(g, e))) <==> (g.waiter.Passed? || Carried(g) || Opens(g, e))
  {
  }

  /** Step k of the run opened the gate. */
  predicate OpenedAt(g: Gate, events: seq<Event>, k: nat) {
    k < |events| && Enabled(Run(g, events[..k]), events[k]) && Opens(Run(g, events[..k]), events[k])
  }

  ghost predicate Opened(g: Gate, events: seq<Event>) {
    exists k: nat :: OpenedAt(g, events, k)
  }

  lemma OpenedGrows(g: Gate, events: seq<Event>)
    requires events != []
    ensures var front, e := events[..|events| - 1], events[|events| - 1];
            Opened(g, events) <==> Opened(g, front) || (Enabled(Run(g, front), e) && Opens(Run(g, front), e))
  {
    var front := events[..|events| - 1];
    forall k: nat | k < |front| ensures events[..k] == front[..k] && events[k] == front[k] {
    }
    if Opened(g, front) {
      var k: nat :| OpenedAt(g, front, k);
      assert OpenedAt(g, events, k);
    }
    if Opened(g, events) {
      var k: nat :| OpenedAt(g, events, k);
      assert k < |front| ==> OpenedAt(g, front, k);
    }
    if OpenedAt(g, events, |front|) {
      assert Opened(g, events);
    }
  }

  lemma {:induction false} RunOpens(g: Gate, events: seq<Event>)
    requires RightHour(g) && !g.waiter.Passed? && !Carried(g)
    requires forall i :: 0 <= i < |events| ==> !GivesUp(events[i])
    ensures RightHour(Run(g, events))
    ensures (Run(g, events).waiter.Passed? || Carried(Run(g, events))) <==> Opened(g, events)
  {
    if events != [] {
      var front, e := events[..|events| - 1], events[|events| - 1];
      RunOpens(g, front);
      OpenedGrows(g, events);
      if Enabled(Run(g, front), e) {
        StepOpens(Run(g, front), e);
      }
    }
  }

  /** Nothing is left on its way to the waiter. */
  predicate Drained(g: Gate) {
    g.events.None? && !g.forwarder.Holding? && g.notifications.None?
  }

  /** Which drained runs pass: exactly those in which the waiter's one look at the clock saw the target
      reached, or an event of the target hour, not before the target, was offered while the wait was on the
      service's list and its channel was free. */
  lemma PassesIff(target: int, before: seq<int>, phase: Phase, events: seq<Event>)
    requires forall i :: 0 <= i < |events| ==> !GivesUp(events[i])
    requires Drained(Run(NewGate(target, before, phase), events))
    ensures Run(NewGate(target, before, phase), events).waiter.Passed? <==> Opened(NewGate(target, before, phase), events)
  {
    RunOpens(NewGate(target, before, phase), events);
  }

  // ---------- which waits can still pass ----------

  predicate Ends(g: Gate, t: int) {
    SameDay(t, g.target) && t >= g.target
  }

  /** The service can still accept an event of the target hour. */
  predicate HourOpen(g: Gate) {
    g.accepted == [] || g.accepted[|g.accepted| - 1] < HourEnd(g.target)
  }

  /** The wait can still pass: it has yet to look at the clock, or an event that ends it is on its way or
      can still get there. */
  predicate Hopeful(g: Gate) {
    || g.waiter.Passed?
    || g.waiter.Started?
    || (g.waiter.Selecting? &&
        (|| (g.notifications.Some? && Ends(g, g.notifications.value))
         || (g.forwarder.Holding? && Ends(g, g.forwarder.event))
         || (!g.forwarder.Ended? &&
             (|| (g.events.Some? && Qualifies(g, g.events.value))
              || (g.announcing.Some? && Qualifies(g, g.announcing.value) && g.snapshot != Some(false))
              || HourOpen(g)))))
  }

  /** Some continuation, with events that never go back, passes. */
  ghost predicate CanPass(g: Gate) {
    exists events :: NonDecreasing(Run(g, events).accepted) && Run(g, events).waiter.Passed?
  }

  lemma StaysHopeless(g: Gate, e: Event)
    requires !Hopeful(g) && Enabled(g, e) && NonDecreasing(Step(g, e).accepted)
    ensures !Hopeful(Step(g, e))
  {
    if e.Accept? {
      var all := Step(g, e).accepted;
      if !HourOpen(g) {
        assert all[|g.accepted| - 1] <= all[|g.accepted|];
        RestOfHour(e.time, g.target);
      }
    }
  }

  lemma {:induction false} HopelessNeverPasses(g: Gate, events: seq<Event>)
    requires !Hopeful(g) && NonDecreasing(Run(g, events).accepted)
    ensures !Hopeful(Run(g, events))
  {
    if events != [] {
      var front, e := events[..|events| - 1], events[|events| - 1];
      var h := Run(g, front);
      AcceptedGrows(h, e);
      HopelessNeverPasses(g, front);
      if Enabled(h, e) {
        StaysHopeless(h, e);
      }
    }
  }

  lemma AcceptedGrows(g: Gate, e: Event)
    ensures Enabled(g, e) ==> g.accepted <= Step(g, e).accepted
  {
  }

  lemma {:induction false} RunCons(g: Gate, e: Event, events: seq<Event>)
    requires Enabled(g, e)
    ensures Run(g, [e] + events) == Run(Step(g, e), events)
  {
    if events == [] {
      RunSnoc(g, [], e);
      assert [e] + events == [] + [e];
    } else {
      var front, last := events[..|events| - 1], events[|events| - 1];
      RunCons(g, e, front);
      RunSnoc(g, [e] + front, last);
      assert [e] + events == ([e] + front) + [last];
    }
  }

  /** If a step can be taken after which the wait can pass, it can pass. */
  lemma Via(g: Gate, e: Event)
    requires Enabled(g, e) && CanPass(Step(g, e))
    ensures CanPass(g)
  {
    var events :| NonDecreasing(Run(Step(g, e), events).accepted) && Run(Step(g, e), events).waiter.Passed?;
    RunCons(g, e, events);
  }

  lemma Already(g: Gate)
    requires NonDecreasing(g.accepted) && g.waiter.Passed?
    ensures CanPass(g)
  {
    assert Run(g, []) == g;
  }

  lemma NotifiedPasses(g: Gate)
    requires NonDecreasing(g.accepted) && g.waiter.Selecting?
    requires g.notifications.Some? && Ends(g, g.notifications.value)
    ensures CanPass(g)
  {
    Already(Step(g, Receive));
    Via(g, Receive);
  }

  lemma HeldPasses(g: Gate)
    requires NonDecreasing(g.accepted) && g.waiter.Selecting?
    requires g.forwarder.Holding? && Ends(g, g.forwarder.event)
    ensures CanPass(g)
    decreases if g.notifications.Some? then 1 else 0
  {
    if g.notifications.None? {
      NotifiedPasses(Step(g, Notify));
      Via(g, Notify);
    } else if Ends(g, g.notifications.value) {
      NotifiedPasses(g);
    } else {
      HeldPasses(Step(g, Receive));
      Via(g, Receive);
    }
  }

  /** The steps left until the forwarder listens and all behind it is empty. */
  function Clutter(g: Gate): nat {
    (if g.forwarder.Unregistered? then 1 else 0)
    + (if g.forwarder.Holding? then 2 else 0)
    + (if g.events.Some? then 3 else 0)
    + (if g.notifications.Some? then 1 else 0)
  }

  /** A step that tidies up, if the forwarder does not listen yet or something is behind it. */
  lemma Tidy(g: Gate) returns (e: Event)
    requires g.waiter.Selecting? && !g.forwarder.Ended? && (!g.forwarder.Listening? || g.notifications.Some?)
    ensures e in {Register, Notify, Receive} && Enabled(g, e)
    ensures Clutter(Step(g, e)) < Clutter(g)
  {
    e := if g.notifications.Some? then Receive else if g.forwarder.Holding? then Notify else Register;
  }

  lemma EventPasses(g: Gate)
    requires NonDecreasing(g.accepted) && g.waiter.Selecting? && !g.forwarder.Ended?
    requires g.events.Some? && Qualifies(g, g.events.value)
    ensures CanPass(g)
    decreases Clutter(g)
  {
    if g.forwarder.Listening? && g.notifications.None? {
      HeldPasses(Step(g, Forward));
      Via(g, Forward);
    } else {
      var e := Tidy(g);
      if Step(g, e).waiter.Passed? {
        Already(Step(g, e));
      } else {
        EventPasses(Step(g, e));
      }
      Via(g, e);
    }
  }

  lemma OfferPasses(g: Gate)
    requires NonDecreasing(g.accepted) && g.waiter.Selecting? && !g.forwarder.Ended?
    requires g.announcing.Some? && Qualifies(g, g.announcing.value) && g.snapshot != Some(false)
    ensures CanPass(g)
    decreases Clutter(g), if g.snapshot.None? then 1 else 0
  {
    if !g.forwarder.Listening? || g.notifications.Some? {
      var e := Tidy(g);
      if Step(g, e).waiter.Passed? {
        Already(Step(g, e));
      } else {
        OfferPasses(Step(g, e));
      }
      Via(g, e);
    } else if g.events.Some? {
      OfferPasses(Step(g, Forward));
      Via(g, Forward);
    } else if g.snapshot.None? {
      OfferPasses(Step(g, Snapshot));
      Via(g, Snapshot);
    } else {
      EventPasses(Step(g, Offer));
      Via(g, Offer);
    }
  }

  /** The earliest event at or after the target that the service can accept. */
  function Due(g: Gate): int {
    if g.accepted != [] && g.accepted[|g.accepted| - 1] > g.target then g.accepted[|g.accepted| - 1] else g.target
  }

  /** The step with which the service finishes its round of offers. */
  function Finish(g: Gate): Event {
    if g.snapshot.None? then Snapshot else Offer
  }

  lemma HourPasses(g: Gate)
    requires NonDecreasing(g.accepted) && g.waiter.Selecting? && !g.forwarder.Ended? && HourOpen(g)
    ensures CanPass(g)
    decreases if g.announcing.None? then 0 else if g.snapshot.Some? then 1 else 2
  {
    if g.announcing.Some? {
      HourPasses(Step(g, Finish(g)));
      Via(g, Finish(g));
    } else {
      RestOfHour(Due(g), g.target);
      OfferPasses(Step(g, Accept(Due(g))));
      Via(g, Accept(Due(g)));
    }
  }

  lemma ClockPasses(g: Gate)
    requires NonDecreasing(g.accepted) && g.waiter.Started?
    ensures CanPass(g)
    decreases if g.announcing.None? then 0 else if g.snapshot.Some? then 1 else 2
  {
    if g.announcing.Some? {
      ClockPasses(Step(g, Finish(g)));
      Via(g, Finish(g));
    } else {
      var accepted := Step(g, Accept(Due(g)));
      Already(Step(accepted, CheckCurrent));
      Via(accepted, CheckCurrent);
      Via(g, Accept(Due(g)));
    }
  }

  /** The exact limit of what a wait promises, at every moment of every run: it can still pass if and only
      if it is hopeful. In particular it is lost once its hour is over and no event of it is on its way. */
  lemma CanPassIff(g: Gate)
    requires NonDecreasing(g.accepted)
    ensures CanPass(g) <==> Hopeful(g)
  {
    if CanPass(g) && !Hopeful(g) {
      var events :| NonDecreasing(Run(g, events).accepted) && Run(g, events).waiter.Passed?;
      HopelessNeverPasses(g, events);
    }
    if g.waiter.Passed? {
      Already(g);
    } else if g.waiter.Started? {
      ClockPasses(g);
    } else if Hopeful(g) {
      HopePasses(g);
    }
  }

  lemma HopePasses(g: Gate)
    requires NonDecreasing(g.accepted) && g.waiter.Selecting? && Hopeful(g)
    ensures CanPass(g)
  {
    if g.notifications.Some? && Ends(g, g.notifications.value) {
      NotifiedPasses(g);
    } else if g.forwarder.Holding? && Ends(g, g.forwarder.event) {
      HeldPasses(g);
    } else if g.events.Some? && Qualifies(g, g.events.value) {
      EventPasses(g);
    } else if HourOpen(g) {
      HourPasses(g);
    } else {
      OfferPasses(g);
    }
  }

  /** A wait is lost once it is cancelled, and once its forwarder has ended with no notification left. */
  lemma GivenUpIsLost(g: Gate)
    requires NonDecreasing(g.accepted) && g.waiter.Selecting?
    ensures !CanPass(Step(g, Cancel))
    ensures Enabled(g, EndForwarder) && g.notifications.None? ==> !CanPass(Step(g, EndForwarder))
  {
    CanPassIff(Step(g, Cancel));
    if Enabled(g, EndForwarder) {
      CanPassIff(Step(g, EndForwarder));
    }
  }

  /** And waits do get lost: the target hour strikes after the waiter looked at the clock but before its
      forwarder registered; one hour later there is no hope left. */
  lemma TargetHourCanBeMissed(target: int)
    ensures var strikes := [CheckCurrent, Accept(target), Snapshot, Offer, Register];
            var g := Run(NewGate(target, [], Resting), strikes + [Accept(target + HOUR)]);
            !CanPass(g) && NonDecreasing(g.accepted) && target in g.accepted
  {
    var g0 := NewGate(target, [], Resting);
    var looked := [] + [CheckCurrent];
    var accepted := looked + [Accept(target)];
    var copied := accepted + [Snapshot];
    var offered := copied + [Offer];
    RunSnoc(g0, [], CheckCurrent);
    RunSnoc(g0, looked, Accept(target));
    RunSnoc(g0, accepted, Snapshot);
    RunSnoc(g0, copied, Offer);
    RunSnoc(g0, offered, Register);
    var strikes := [CheckCurrent, Accept(target), Snapshot, Offer, Register];
    assert strikes == offered + [Register];
    RunSnoc(g0, strikes, Accept(target + HOUR));
    RestOfHour(target + HOUR, target);
    CanPassIff(Run(g0, strikes + [Accept(target + HOUR)]));
  }

  lemma RunSnoc(g: Gate, events: seq<Event>, e: Event)
    ensures Run(g, events + [e]) == if Enabled(Run(g, events), e) then Step(Run(g, events), e) else Run(g, events)
  {
    assert (events + [e])[..|events|] == events;
  }
}
