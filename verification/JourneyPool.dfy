/** The pool of concurrent journeys: a journey that ends leaves a notice in a channel whose capacity is
    the concurrency level, and the main loop starts a new journey for each notice. */
module JourneyPool {
  datatype Pool = Pool(level: nat, launched: nat, live: nat, notices: nat, restarting: bool, stopped: bool)

  datatype Event = Launch | Finish | TakeNotice | Restart | Stop

  predicate Starting(p: Pool) {
    p.launched < p.level
  }

  /** `Finish` blocks while the channel is full. */
  predicate Enabled(p: Pool, e: Event) {
    match e
    case Launch => Starting(p)
    case Finish => p.live > 0 && p.notices < p.level
    case TakeNotice => !Starting(p) && !p.stopped && !p.restarting && p.notices > 0
    case Restart => p.restarting
    case Stop => !Starting(p) && !p.restarting
  }

  function Step(p: Pool, e: Event): Pool
    requires Enabled(p, e)
  {
    match e
    case Launch => p.(launched := p.launched + 1, live := p.live + 1)
    case Finish => p.(live := p.live - 1, notices := p.notices + 1)
    case TakeNotice => p.(notices := p.notices - 1, restarting := true)
    case Restart => p.(live := p.live + 1, restarting := false)
    case Stop => p.(stopped := true)
  }

  function Run(level: nat, events: seq<Event>): Pool {
    if events == [] then Pool(level, 0, 0, 0, false, false)
    else
      var before, e := Run(level, events[..|events| - 1]), events[|events| - 1];
      if Enabled(before, e) then Step(before, e) else before
  }

  /** Live journeys and waiting notices never exceed the level and make it up between loop turns, also
      after the loop stopped; so a journey that ends never blocks on its notice. */
  lemma {:induction false} SlotsAreConserved(level: nat, events: seq<Event>)
    ensures var p := Run(level, events);
            && p.level == level
            && p.live + p.notices + (if p.restarting then 1 else 0) == p.launched <= level
            && (!Starting(p) && !p.restarting ==> p.live + p.notices == level)
            && (p.live > 0 ==> Enabled(p, Finish))
            && (p.launched < level ==> Enabled(p, Launch))
  {
    if events != [] {
      SlotsAreConserved(level, events[..|events| - 1]);
    }
  }

  /** A journey that ends is replaced: from any moment of any run between two loop turns at which the loop still
      goes on, the notice of a journey that ends is taken and a new journey started in its place. */
  lemma EndedJourneyIsReplaced(level: nat, events: seq<Event>)
    requires var p := Run(level, events); p.live > 0 && p.launched == level && !p.restarting && !p.stopped
    ensures var p := Run(level, events);
            && Enabled(p, Finish) && Step(p, Finish).live == p.live - 1
            && Enabled(Step(p, Finish), TakeNotice)
            && Enabled(Step(Step(p, Finish), TakeNotice), Restart)
            && Step(Step(Step(p, Finish), TakeNotice), Restart) == p
  {
    SlotsAreConserved(level, events);
  }

  /** All slots can be filled at the start. */
  lemma {:induction false} AllLaunched(level: nat, n: nat)
    requires n <= level
    ensures Run(level, seq(n, _ => Launch)) == Pool(level, n, n, 0, false, false)
  {
    if n > 0 {
      AllLaunched(level, n - 1);
      assert seq(n, _ => Launch)[..n - 1] == seq(n - 1, _ => Launch);
    }
  }

  /** After shutdown no journey is started any more: the loop stops at once and live journeys only get fewer. */
  lemma {:induction false} NothingStartsAfterStop(level: nat, events: seq<Event>, more: seq<Event>)
    requires Run(level, events).stopped
    ensures var p, q := Run(level, events), Run(level, events + more);
            q.stopped && q.live <= p.live && q.launched == p.launched == level && !q.restarting
  {
    Stopped(level, events);
    if more == [] {
      assert events + more == events;
    } else {
      var front := more[..|more| - 1];
      NothingStartsAfterStop(level, events, front);
      SlotsAreConserved(level, events + front);
      assert (events + more)[..|events + more| - 1] == events + front;
    }
  }

  lemma {:induction false} Stopped(level: nat, events: seq<Event>)
    ensures var p := Run(level, events);
            && (p.stopped ==> p.launched == level && !p.restarting)
            && (!p.stopped && !Starting(p) && !p.restarting ==> Enabled(p, Stop) && Step(p, Stop).stopped)
  {
    SlotsAreConserved(level, events);
    if events != [] {
      Stopped(level, events[..|events| - 1]);
      SlotsAreConserved(level, events[..|events| - 1]);
    }
  }
}
