/** One typed half of the guest communication bus: an overflow queue, subscriber channels of capacity
    one, and the waiter loop that drains them. The program has three copies of it. */
module TypedBus {
  import opened Wrappers

  /** The wait loop: about to look at the queue, blocked in its select, or on the way out. */
  datatype Waiter = Absent | Looking(ch: nat) | Blocked(ch: nat) | Leaving(ch: nat)

  /** `channels` maps each subscribed channel to the message in its buffer, if any. The last five fields
      are the traces of a run. */
  datatype Bus<M> = Bus(
    pending: seq<M>,
    channels: map<nat, Option<M>>,
    waiter: Waiter,
    published: seq<M>,
    handled: seq<M>,     // taken by a wait, matching or not
    abandoned: seq<M>,   // left in a channel when it was unsubscribed
    waits: nat,          // waits that ended
    accepted: seq<M>)    // messages a wait returned on

  function Fresh<M>(): Bus<M> {
    Bus([], map[], Absent, [], [], [], 0, [])
  }

  datatype Event<M> =
    | Publish(msg: M)
    | Subscribe(ch: nat)
    | Look(matches: bool)     // take one pending message, if there is one, and try it
    | Receive(matches: bool)  // the select picks the channel
    | GiveUp                  // the select picks ctx.Done or the end of the bus
    | Unsubscribe

  /** Offers the message to every subscriber whose buffer is empty. */
  function Notified<M>(channels: map<nat, Option<M>>, msg: M): map<nat, Option<M>> {
    map ch | ch in channels :: if channels[ch].None? then Some(msg) else channels[ch]
  }

  predicate Delivers<M>(channels: map<nat, Option<M>>) {
    exists ch :: ch in channels && channels[ch].None?
  }

  /** A wait subscribes only after the one before it ended: one waiter at a time. */
  predicate Enabled<M>(b: Bus<M>, e: Event<M>) {
    match e
    case Publish(_) => true
    case Subscribe(ch) => b.waiter.Absent? && ch !in b.channels
    case Look(_) => b.waiter.Looking?
    case Receive(_) => b.waiter.Blocked? && b.waiter.ch in b.channels && b.channels[b.waiter.ch].Some?
    case GiveUp => b.waiter.Blocked?
    case Unsubscribe => b.waiter.Leaving?
  }

  function Try<M>(b: Bus<M>, msg: M, matches: bool, otherwise: Waiter): Bus<M>
    requires !b.waiter.Absent?
  {
    b.(handled := b.handled + [msg],
       waiter := if matches then Leaving(b.waiter.ch) else otherwise,
       accepted := if matches then b.accepted + [msg] else b.accepted)
  }

  function Step<M>(b: Bus<M>, e: Event<M>): Bus<M>
    requires Enabled(b, e)
  {
    match e
    case Publish(msg) =>
      b.(published := b.published + [msg],
         channels := Notified(b.channels, msg),
         pending := if Delivers(b.channels) then b.pending else b.pending + [msg])
    case Subscribe(ch) => b.(channels := b.channels[ch := None], waiter := Looking(ch))
    case Look(matches) =>
      if b.pending == [] then b.(waiter := Blocked(b.waiter.ch))
      else Try(b.(pending := b.pending[1..]), b.pending[0], matches, Blocked(b.waiter.ch))
    case Receive(matches) =>
      var ch := b.waiter.ch;
      Try(b.(channels := b.channels[ch := None]), b.channels[ch].value, matches, Looking(ch))
    case GiveUp => b.(waiter := Leaving(b.waiter.ch))
    case Unsubscribe =>
      b.(channels := b.channels - {b.waiter.ch}, waiter := Absent, waits := b.waits + 1,
         abandoned := b.abandoned + Buffered(b.channels, b.waiter.ch))
  }

  function Buffered<M>(channels: map<nat, Option<M>>, ch: nat): seq<M> {
    if ch in channels && channels[ch].Some? then [channels[ch].value] else []
  }

  /** A step that is not enabled does not happen. */
  function Next<M>(b: Bus<M>, e: Event<M>): Bus<M> {
    if Enabled(b, e) then Step(b, e) else b
  }

  function Run<M>(b: Bus<M>, events: seq<Event<M>>): Bus<M> {
    if events == [] then b else Next(Run(b, events[..|events| - 1]), events[|events| - 1])
  }

  /** The message a step hands to the waiter's match, if any. */
  function Tried<M>(b: Bus<M>, e: Event<M>): Option<M> {
    if e.Look? && Enabled(b, e) && |b.pending| > 0 then Some(b.pending[0])
    else if e.Receive? && Enabled(b, e) then b.channels[b.waiter.ch]
    else None
  }

  /** The step with the verdict of the match filled in. */
  function Decided<M>(e: Event<M>, matches: bool): Event<M> {
    match e
    case Look(_) => Look(matches)
    case Receive(_) => Receive(matches)
    case _ => e
  }

  predicate Matching<M>(e: Event<M>) {
    (e.Look? || e.Receive?) && e.matches
  }

  /** What a wait makes of a step: the message tried is handled, and accepted if it matched. */
  lemma NextTries<M>(b: Bus<M>, e: Event<M>)
    ensures var after := Next(b, e);
            && after.handled == b.handled + AsSeq(Tried(b, e))
            && after.accepted == b.accepted + (if Matching(e) then AsSeq(Tried(b, e)) else [])
            && (Matching(e) && Tried(b, e).Some? ==> after.waiter.Leaving?)
  {
  }

  lemma RunSnoc<M>(b: Bus<M>, events: seq<Event<M>>, e: Event<M>)
    ensures Run(b, events + [e]) == Next(Run(b, events), e)
  {
    assert (events + [e])[..|events|] == events;
  }

  // ---------- conservation ----------

  function InChannel<M>(b: Bus<M>): seq<M> {
    if b.waiter.Absent? then [] else Buffered(b.channels, b.waiter.ch)
  }

  ghost predicate OneWaiter<M>(b: Bus<M>) {
    b.channels.Keys == if b.waiter.Absent? then {} else {b.waiter.ch}
  }

  /** Every published message is in exactly one place, and a wait that ends leaves at most one behind. */
  ghost predicate Conserved<M>(b: Bus<M>) {
    && multiset(b.published) == multiset(b.pending) + multiset(InChannel(b)) + multiset(b.handled) + multiset(b.abandoned)
    && |b.abandoned| <= b.waits
    && multiset(b.accepted) <= multiset(b.handled)
    && |b.accepted| <= b.waits + (if b.waiter.Leaving? then 1 else 0)
  }

  lemma HeadOut<M>(s: seq<M>)
    requires s != []
    ensures multiset(s) == multiset([s[0]]) + multiset(s[1..])
  {
    assert s == [s[0]] + s[1..];
  }

  lemma StepKeepsOneWaiter<M>(b: Bus<M>, e: Event<M>)
    requires Enabled(b, e) && OneWaiter(b)
    ensures OneWaiter(Step(b, e))
  {
    if e.Publish? {
      assert Notified(b.channels, e.msg).Keys == b.channels.Keys;
    }
  }

  lemma PublishConserves<M>(b: Bus<M>, msg: M)
    requires OneWaiter(b) && Conserved(b)
    ensures Conserved(Step(b, Publish(msg)))
  {
    var after := Step(b, Publish(msg));
    if Delivers(b.channels) {
      assert b.waiter.ch in b.channels;
      assert InChannel(b) == [] && InChannel(after) == [msg];
    } else {
      assert InChannel(after) == InChannel(b);
    }
    assert multiset(after.published) == multiset(b.published) + multiset{msg};
  }

  lemma LookConserves<M>(b: Bus<M>, matches: bool)
    requires b.waiter.Looking? && Conserved(b)
    ensures Conserved(Step(b, Look(matches)))
  {
    if b.pending != [] {
      HeadOut(b.pending);
      var after := Step(b, Look(matches));
      assert InChannel(after) == InChannel(b);
      assert multiset(after.handled) == multiset(b.handled) + multiset{b.pending[0]};
    }
  }

  lemma ReceiveConserves<M>(b: Bus<M>, matches: bool)
    requires Enabled(b, Receive(matches)) && Conserved(b)
    ensures Conserved(Step(b, Receive(matches)))
  {
    var after, msg := Step(b, Receive(matches)), b.channels[b.waiter.ch].value;
    assert InChannel(b) == [msg] && InChannel(after) == [];
    assert multiset(after.handled) == multiset(b.handled) + multiset{msg};
  }

  lemma UnsubscribeConserves<M>(b: Bus<M>)
    requires b.waiter.Leaving? && Conserved(b)
    ensures Conserved(Step(b, Unsubscribe))
  {
    var after := Step(b, Unsubscribe);
    assert InChannel(after) == [];
    assert multiset(after.abandoned) == multiset(b.abandoned) + multiset(InChannel(b));
  }

  lemma StepConserves<M>(b: Bus<M>, e: Event<M>)
    requires Enabled(b, e) && OneWaiter(b) && Conserved(b)
    ensures Conserved(Step(b, e))
  {
    match e
    case Publish(msg) => PublishConserves(b, msg);
    case Look(matches) => LookConserves(b, matches);
    case Receive(matches) => ReceiveConserves(b, matches);
    case Unsubscribe => UnsubscribeConserves(b);
    case Subscribe(_) =>
    case GiveUp =>
  }

  /** Conservation over every interleaving of the bus goroutine and one waiter at a time. */
  lemma {:induction false} RunConserves<M>(b: Bus<M>, events: seq<Event<M>>)
    requires OneWaiter(b) && Conserved(b)
    ensures OneWaiter(Run(b, events)) && Conserved(Run(b, events))
  {
    if events != [] {
      var front, e := events[..|events| - 1], events[|events| - 1];
      RunConserves(b, front);
      if Enabled(Run(b, front), e) {
        StepKeepsOneWaiter(Run(b, front), e);
        StepConserves(Run(b, front), e);
      }
    }
  }

  // ---------- when the bus is first-in first-out ----------

  /** Handled, buffered and queued messages are the published ones, in order, and nothing is lost. */
  ghost predicate InOrder<M>(b: Bus<M>) {
    b.handled + InChannel(b) + b.pending == b.published && b.abandoned == []
  }

  /** A step keeps the turn: no message passes a queued one into the channel, none is taken from the queue
      while an older one is in the channel, and no channel is dropped with a message in it. */
  predicate KeepsTurn<M>(b: Bus<M>, e: Event<M>) {
    match e
    case Publish(_) => Delivers(b.channels) ==> |b.pending| == 0
    case Look(_) => |InChannel(b)| == 0 || |b.pending| == 0
    case Unsubscribe => |InChannel(b)| == 0
    case _ => true
  }

  ghost predicate Distinct<M>(s: seq<M>) {
    forall i, j :: 0 <= i < j < |s| ==> s[i] != s[j]
  }

  lemma PublishedIn<M>(b: Bus<M>, msg: M)
    requires OneWaiter(b)
    ensures var after := Step(b, Publish(msg));
            if Delivers(b.channels) then InChannel(b) == [] && InChannel(after) == [msg] && after.pending == b.pending
            else InChannel(after) == InChannel(b) && after.pending == b.pending + [msg]
  {
    if Delivers(b.channels) {
      assert b.waiter.ch in b.channels;
    }
  }

  lemma TurnKeepsOrder<M>(b: Bus<M>, e: Event<M>)
    requires Enabled(b, e) && OneWaiter(b) && InOrder(b) && KeepsTurn(b, e)
    ensures InOrder(Step(b, e))
  {
    if e.Publish? {
      PublishedIn(b, e.msg);
    } else if e.Look? && b.pending != [] {
      assert b.pending == [b.pending[0]] + b.pending[1..];
    }
  }

  lemma PublishBreaksOrder<M>(b: Bus<M>, msg: M)
    requires OneWaiter(b) && InOrder(b) && Delivers(b.channels) && b.pending != [] && Distinct(b.published + [msg])
    ensures !InOrder(Step(b, Publish(msg)))
  {
    PublishedIn(b, msg);
    var after, n := Step(b, Publish(msg)), |b.handled|;
    assert after.published[n] == b.published[n] == b.pending[0];
    assert (after.handled + InChannel(after) + after.pending)[n] == msg == after.published[|b.published|];
  }

  lemma LookBreaksOrder<M>(b: Bus<M>, matches: bool)
    requires b.waiter.Looking? && InOrder(b) && InChannel(b) != [] && b.pending != [] && Distinct(b.published)
    ensures !InOrder(Step(b, Look(matches)))
  {
    var after, n := Step(b, Look(matches)), |b.handled|;
    assert b.published[n] == InChannel(b)[0] && b.published[n + 1] == b.pending[0];
    assert (after.handled + InChannel(after) + after.pending)[n] == b.pending[0];
  }

  lemma OtherwiseBreaksOrder<M>(b: Bus<M>, e: Event<M>)
    requires Enabled(b, e) && OneWaiter(b) && InOrder(b) && !KeepsTurn(b, e) && Distinct(Step(b, e).published)
    ensures !InOrder(Step(b, e))
  {
    match e
    case Publish(msg) => PublishBreaksOrder(b, msg);
    case Look(matches) => LookBreaksOrder(b, matches);
    case Unsubscribe =>
  }

  ghost predicate AlwaysInOrder<M>(events: seq<Event<M>>) {
    forall k :: 0 <= k <= |events| ==> InOrder(Run(Fresh(), events[..k]))
  }

  ghost predicate TurnKeptAt<M>(events: seq<Event<M>>, k: nat)
    requires k < |events|
  {
    var b := Run(Fresh(), events[..k]);
    Enabled(b, events[k]) ==> KeepsTurn(b, events[k])
  }

  ghost predicate TurnsKept<M>(events: seq<Event<M>>) {
    forall k: nat :: k < |events| ==> TurnKeptAt(events, k)
  }

  lemma PublishedGrows<M>(b: Bus<M>, e: Event<M>)
    ensures b.published <= Next(b, e).published
  {
  }

  lemma NextInOrderIff<M>(b: Bus<M>, e: Event<M>)
    requires OneWaiter(b) && InOrder(b) && Distinct(Next(b, e).published)
    ensures InOrder(Next(b, e)) <==> (Enabled(b, e) ==> KeepsTurn(b, e))
  {
    if Enabled(b, e) {
      if KeepsTurn(b, e) {
        TurnKeepsOrder(b, e);
      } else {
        OtherwiseBreaksOrder(b, e);
      }
    }
  }

  lemma AlwaysSnoc<M>(events: seq<Event<M>>, e: Event<M>)
    ensures AlwaysInOrder(events + [e]) <==> AlwaysInOrder(events) && InOrder(Next(Run(Fresh(), events), e))
  {
    var all := events + [e];
    RunSnoc(Fresh(), events, e);
    assert all[..|all|] == all;
    assert forall k :: 0 <= k <= |events| ==> all[..k] == events[..k];
    if AlwaysInOrder(all) {
      forall k | 0 <= k <= |events| ensures InOrder(Run(Fresh(), events[..k])) {
        assert InOrder(Run(Fresh(), all[..k]));
      }
      assert InOrder(Run(Fresh(), all[..|all|]));
    }
  }

  lemma TurnsSnoc<M>(events: seq<Event<M>>, e: Event<M>)
    ensures TurnsKept(events + [e]) <==>
            TurnsKept(events) && (Enabled(Run(Fresh(), events), e) ==> KeepsTurn(Run(Fresh(), events), e))
  {
    var all := events + [e];
    assert all[..|events|] == events;
    forall k: nat | k < |events| ensures TurnKeptAt(all, k) <==> TurnKeptAt(events, k) {
      assert all[..k] == events[..k];
    }
    if TurnsKept(all) {
      assert TurnKeptAt(all, |events|);
    }
  }

  /** Exactly when the bus is first-in first-out: a run over distinct messages has all of them in order and
      none lost at every moment if and only if every step of it keeps the turn. */
  lemma {:induction false} InOrderIff<M>(events: seq<Event<M>>)
    requires Distinct(Run(Fresh(), events).published)
    ensures AlwaysInOrder(events) <==> TurnsKept(events)
  {
    if events == [] {
      assert events[..0] == events;
    } else {
      var n := |events| - 1;
      var front, e := events[..n], events[n];
      var b: Bus<M> := Run(Fresh(), front);
      PublishedGrows(b, e);
      InOrderIff(front);
      assert events == front + [e];
      AlwaysSnoc(front, e);
      TurnsSnoc(front, e);
      if AlwaysInOrder(front) {
        assert front[..n] == front;
        RunConserves(Fresh(), front);
        NextInOrderIff(b, e);
      }
    }
  }

  // ---------- which queued messages are reached ----------

  /** Messages the waiter took from the queue over a run. */
  function Looks<M>(b: Bus<M>, events: seq<Event<M>>): nat {
    if events == [] then 0
    else
      var front, e := events[..|events| - 1], events[|events| - 1];
      var before := Run(b, front);
      Looks(b, front) + (if e.Look? && Enabled(before, e) && |before.pending| > 0 then 1 else 0)
  }

  /** Messages that came through the channel, and those of them that did not match. */
  function Receives<M>(b: Bus<M>, events: seq<Event<M>>): nat {
    if events == [] then 0
    else
      var front, e := events[..|events| - 1], events[|events| - 1];
      Receives(b, front) + (if e.Receive? && Enabled(Run(b, front), e) then 1 else 0)
  }

  function Misses<M>(b: Bus<M>, events: seq<Event<M>>): nat {
    if events == [] then 0
    else
      var front, e := events[..|events| - 1], events[|events| - 1];
      Misses(b, front) + (if e.Receive? && !e.matches && Enabled(Run(b, front), e) then 1 else 0)
  }

  function Turns<M>(b: Bus<M>): nat {
    if b.waiter.Looking? then 1 else 0
  }

  /** `n` messages were taken from the queue on the way from `b` to `after`: the first of it were handled, the
      others moved up. */
  ghost predicate QueueMoved<M>(b: Bus<M>, after: Bus<M>, n: nat) {
    && b.handled <= after.handled
    && (forall i :: 0 <= i < n && i < |b.pending| ==> b.pending[i] in after.handled[|b.handled|..])
    && (n < |b.pending| ==> b.pending[n..] <= after.pending)
  }

  lemma NextMovesQueue<M>(b: Bus<M>, before: Bus<M>, n: nat, e: Event<M>)
    requires QueueMoved(b, before, n)
    ensures QueueMoved(b, Next(before, e), n + (if e.Look? && Enabled(before, e) && |before.pending| > 0 then 1 else 0))
  {
    var after := Next(before, e);
    assert before.handled <= after.handled;
    forall i | 0 <= i < n && i < |b.pending| ensures b.pending[i] in after.handled[|b.handled|..] {
      assert before.handled[|b.handled|..] <= after.handled[|b.handled|..];
    }
    if e.Look? && Enabled(before, e) && |before.pending| > 0 && n < |b.pending| {
      assert before.pending[0] == b.pending[n..][0] == b.pending[n];
      assert after.handled[|b.handled|..] == before.handled[|b.handled|..] + [b.pending[n]];
      assert b.pending[n + 1..] == b.pending[n..][1..];
    }
  }

  lemma {:induction false} RunMovesQueue<M>(b: Bus<M>, events: seq<Event<M>>)
    ensures QueueMoved(b, Run(b, events), Looks(b, events))
  {
    if events != [] {
      var front, e := events[..|events| - 1], events[|events| - 1];
      RunMovesQueue(b, front);
      NextMovesQueue(b, Run(b, front), Looks(b, front), e);
    }
  }

  ghost predicate OneWait<M>(events: seq<Event<M>>) {
    forall i :: 0 <= i < |events| ==> !events[i].Subscribe?
  }

  /** The waiter looks once when it starts and once more after each message through the channel that did not
      match; every look takes a message as long as there is one. */
  lemma {:induction false} LooksFollowTraffic<M>(b: Bus<M>, events: seq<Event<M>>)
    requires b.waiter.Looking? && OneWait(events)
    ensures var after, n := Run(b, events), Looks(b, events);
            var turns := 1 + Misses(b, events) - Turns(after);
            && (n == turns || |b.pending| <= n <= turns)
            && (after.waiter.Looking? || after.waiter.Blocked? ==> Misses(b, events) == Receives(b, events))
  {
    if events != [] {
      var front := events[..|events| - 1];
      LooksFollowTraffic(b, front);
      RunMovesQueue(b, front);
    }
  }

  /** Exactly when a queued message is reached: message i of the queue is handled in the course of a wait if
      and only if at least i messages have come through the channel without matching and the waiter has looked
      since; else it is still queued. For a waiter that has looked and is blocked again, that is if and only if
      at least i messages have come through its channel. */
  lemma QueuedReachedIff<M>(b: Bus<M>, events: seq<Event<M>>, i: nat)
    requires b.waiter.Looking? && OneWait(events) && i < |b.pending|
    ensures var after := Run(b, events);
            var reached := Misses(b, events) >= i + Turns(after);
            && (Looks(b, events) > i <==> reached)
            && b.handled <= after.handled
            && (if reached then b.pending[i] in after.handled[|b.handled|..] else b.pending[i] in after.pending)
            && (after.waiter.Blocked? ==> (reached <==> Receives(b, events) >= i))
  {
    LooksFollowTraffic(b, events);
    RunMovesQueue(b, events);
    var after, n := Run(b, events), Looks(b, events);
    if n <= i {
      assert b.pending[i] == b.pending[n..][i - n] == after.pending[i - n];
    }
  }

  /** So a queued message that would match can be left where it is: the waiter took one and then listens. */
  lemma QueuedMatchIsStranded<M>(first: M, second: M, events: seq<Event<M>>)
    requires OneWait(events)
    ensures var b := Bus([first, second], map[0 := None], Looking(0), [first, second], [], [], 0, []);
            && Step(Step(Step(Fresh(), Publish(first)), Publish(second)), Subscribe(0)) == b
            && (Receives(b, events) == 0 ==> second in Run(b, events).pending)
  {
    var b := Bus([first, second], map[0 := None], Looking(0), [first, second], [], [], 0, []);
    var b1 := Step(Fresh(), Publish(first));
    assert b1.channels == map[] && Step(b1, Publish(second)).channels == map[];
    MissesAreReceives(b, events);
    QueuedReachedIff(b, events, 1);
  }

  lemma {:induction false} MissesAreReceives<M>(b: Bus<M>, events: seq<Event<M>>)
    ensures Misses(b, events) <= Receives(b, events)
  {
    if events != [] {
      MissesAreReceives(b, events[..|events| - 1]);
    }
  }

  /** A case in point: the waiter takes from the queue before its channel, so the later of two messages can
      be handled first, and the earlier one then be lost with the channel. */
  lemma LaterMessageOvertakes<M>(first: M, second: M)
    ensures var b1 := Step(Fresh<M>(), Subscribe(0));
            var b2 := Step(Step(b1, Publish(first)), Publish(second));
            Enabled(b2, Look(true)) && !KeepsTurn(b2, Look(true)) &&
            var b3 := Step(b2, Look(true));
            Enabled(b3, Unsubscribe) &&
            var b := Step(b3, Unsubscribe);
            b.published == [first, second] && b.handled == b.accepted == [second] && b.abandoned == [first]
  {
    assert Step(Fresh<M>(), Subscribe(0)) == Bus([], map[0 := None], Looking(0), [], [], [], 0, []);
    BusyChannel(first, second);
  }

  lemma BusyChannel<M>(first: M, second: M)
    ensures var b: Bus<M> := Bus([], map[0 := None], Looking(0), [], [], [], 0, []);
            Step(Step(b, Publish(first)), Publish(second)) ==
            Bus([second], map[0 := Some(first)], Looking(0), [first, second], [], [], 0, [])
  {
    var b: Bus<M> := Bus([], map[0 := None], Looking(0), [], [], [], 0, []);
    assert b.channels[0].None?;
    var b1 := Step(b, Publish(first));
    assert b1.channels == map[0 := Some(first)];
    assert Notified(b1.channels, second) == b1.channels && !Delivers(b1.channels);
  }

  // ---------- the program's loops ----------

  predicate Waiting<M>(b: Bus<M>) {
    b.waiter.Looking? || b.waiter.Blocked?
  }

  /** What one event means to a wait. */
  function WaitVerdict<M>(b: Bus<M>, e: Event<M>): WaitResult<M> {
    if Matching(e) && Tried(b, e).Some? then Matched(Tried(b, e).value)
    else if e.GiveUp? && b.waiter.Blocked? then Abandoned
    else StillWaiting
  }

  /** The bus after a wait subscribed and the first k events of the schedule. */
  ghost function Waited<M>(b: Bus<M>, ch: nat, schedule: seq<Event<M>>, k: nat): Bus<M>
    requires k <= |schedule|
  {
    Run(b, [Subscribe(ch)] + schedule[..k])
  }

  ghost predicate StillIn<M>(b: Bus<M>, ch: nat, schedule: seq<Event<M>>, k: nat) {
    k <= |schedule| && forall j: nat :: j <= k ==> Waiting(Waited(b, ch, schedule, j))
  }

  /** Event k has the wait try a message that matches. */
  ghost predicate MatchComes<M>(b: Bus<M>, ch: nat, schedule: seq<Event<M>>, k: nat) {
    k < |schedule| && Matching(schedule[k]) && Tried(Waited(b, ch, schedule, k), schedule[k]).Some?
  }

  /** Event k has the select of a blocked wait pick the end of the context or of the bus. */
  ghost predicate GiveUpComes<M>(b: Bus<M>, ch: nat, schedule: seq<Event<M>>, k: nat) {
    k < |schedule| && schedule[k].GiveUp? && Waited(b, ch, schedule, k).waiter.Blocked?
  }

  /** How a wait ends: with a message exactly if, while it waits, it tries that message and it matches; without one
      exactly if, while it waits, it gives up; else it still waits when the schedule is over. */
  ghost predicate WaitEnds<M>(b: Bus<M>, ch: nat, schedule: seq<Event<M>>, r: WaitResult<M>) {
    && (r.Matched? <==> exists k: nat :: StillIn(b, ch, schedule, k) && MatchComes(b, ch, schedule, k))
    && (r.Matched? ==> exists k: nat :: StillIn(b, ch, schedule, k) && MatchComes(b, ch, schedule, k)
                                        && Tried(Waited(b, ch, schedule, k), schedule[k]) == Some(r.msg))
    && (r.Abandoned? <==> exists k: nat :: StillIn(b, ch, schedule, k) && GiveUpComes(b, ch, schedule, k))
    && (r.StillWaiting? <==> StillIn(b, ch, schedule, |schedule|))
  }

  lemma WaitedSnoc<M>(b: Bus<M>, ch: nat, schedule: seq<Event<M>>, k: nat)
    requires k < |schedule|
    ensures Waited(b, ch, schedule, k + 1) == Next(Waited(b, ch, schedule, k), schedule[k])
  {
    assert [Subscribe(ch)] + schedule[..k + 1] == ([Subscribe(ch)] + schedule[..k]) + [schedule[k]];
    RunSnoc(b, [Subscribe(ch)] + schedule[..k], schedule[k]);
  }

  lemma {:induction false} RunKeepsOneWaiter<M>(b: Bus<M>, events: seq<Event<M>>)
    requires OneWaiter(b)
    ensures OneWaiter(Run(b, events))
  {
    if events != [] {
      var front, e := events[..|events| - 1], events[|events| - 1];
      RunKeepsOneWaiter(b, front);
      if Enabled(Run(b, front), e) {
        StepKeepsOneWaiter(Run(b, front), e);
      }
    }
  }

  lemma WaitConserves<M>(b: Bus<M>, ch: nat, schedule: seq<Event<M>>, n: nat)
    requires OneWaiter(b) && Conserved(b) && n <= |schedule|
    ensures var after := Waited(b, ch, schedule, n);
            && OneWaiter(after) && Conserved(after)
            && OneWaiter(Next(after, Unsubscribe)) && Conserved(Next(after, Unsubscribe))
  {
    RunConserves(b, [Subscribe(ch)] + schedule[..n]);
    RunConserves(b, [Subscribe(ch)] + schedule[..n] + [Unsubscribe]);
    RunSnoc(b, [Subscribe(ch)] + schedule[..n], Unsubscribe);
  }

  lemma WaitStops<M>(b: Bus<M>, ch: nat, schedule: seq<Event<M>>, k: nat)
    requires k < |schedule| && StillIn(b, ch, schedule, k)
    requires !WaitVerdict(Waited(b, ch, schedule, k), schedule[k]).StillWaiting?
    ensures forall i: nat :: StillIn(b, ch, schedule, i) ==> i <= k
  {
    WaitedSnoc(b, ch, schedule, k);
    assert Waited(b, ch, schedule, k + 1).waiter.Leaving?;
  }

  lemma WaitEndsAt<M>(b: Bus<M>, ch: nat, schedule: seq<Event<M>>, i: nat)
    requires i < |schedule| && StillIn(b, ch, schedule, i)
    requires !WaitVerdict(Waited(b, ch, schedule, i), schedule[i]).StillWaiting?
    ensures WaitEnds(b, ch, schedule, WaitVerdict(Waited(b, ch, schedule, i), schedule[i]))
  {
    WaitStops(b, ch, schedule, i);
    forall k: nat | k < |schedule| && StillIn(b, ch, schedule, k) && !WaitVerdict(Waited(b, ch, schedule, k), schedule[k]).StillWaiting?
      ensures k == i
    {
      WaitStops(b, ch, schedule, k);
    }
    var r := WaitVerdict(Waited(b, ch, schedule, i), schedule[i]);
    if r.Matched? {
      assert MatchComes(b, ch, schedule, i);
    } else {
      assert GiveUpComes(b, ch, schedule, i);
    }
  }

  lemma NoWaitEnd<M>(b: Bus<M>, ch: nat, schedule: seq<Event<M>>)
    requires StillIn(b, ch, schedule, |schedule|)
    ensures WaitEnds(b, ch, schedule, StillWaiting)
  {
    forall k: nat | k < |schedule| && StillIn(b, ch, schedule, k) ensures WaitVerdict(Waited(b, ch, schedule, k), schedule[k]).StillWaiting? {
      WaitedSnoc(b, ch, schedule, k);
      assert Waiting(Waited(b, ch, schedule, k + 1));
    }
  }

  /** What is published reaches a waiter that listens: whatever the run so far, a message published to a blocked
      waiter with a free channel is the one it takes next, and a queued one is the one a waiter takes that looks. */
  lemma PublishedIsTaken<M>(b: Bus<M>, m: M, matches: bool)
    requires OneWaiter(b) && b.waiter.Blocked? && b.channels[b.waiter.ch].None?
    ensures var after := Next(Next(b, Publish(m)), Receive(matches));
            after.handled == b.handled + [m] && after.accepted == b.accepted + (if matches then [m] else [])
            && after.waiter == (if matches then Leaving(b.waiter.ch) else Looking(b.waiter.ch))
  {
    assert b.waiter.ch in b.channels;
    PublishedIn(b, m);
  }

  lemma QueuedIsTaken<M>(b: Bus<M>, ch: nat, matches: bool)
    requires OneWaiter(b) && b.waiter.Absent? && b.pending != []
    ensures var after := Next(Next(b, Subscribe(ch)), Look(matches));
            after.handled == b.handled + [b.pending[0]] && after.accepted == b.accepted + (if matches then [b.pending[0]] else [])
            && after.waiter == (if matches then Leaving(ch) else Blocked(ch)) && after.pending == b.pending[1..]
  {
  }

  /** How a wait stands: it matched a message, gave up, or the schedule ended before it did. */
  datatype WaitResult<M> = Matched(msg: M) | Abandoned | StillWaiting

  class MessageBus<M(==)> {
    var bus: Bus<M>

    constructor ()
      ensures bus == Fresh()
    {
      bus := Fresh();
    }

    /** Non-blocking sends to every subscriber, in any order. */
    method Notify(msg: M) returns (delivered: bool)
      modifies this
      ensures bus == old(bus).(channels := Notified(old(bus).channels, msg))
      ensures delivered == Delivers(old(bus).channels)
    {
      delivered := false;
      var todo := bus.channels.Keys;
      while todo != {}
        invariant todo <= old(bus).channels.Keys == bus.channels.Keys
        invariant bus == old(bus).(channels := bus.channels)
        invariant forall ch :: ch in todo ==> bus.channels[ch] == old(bus).channels[ch]
        invariant forall ch :: ch in bus.channels.Keys - todo ==> bus.channels[ch] == Notified(old(bus).channels, msg)[ch]
        invariant delivered <==> exists ch :: ch in old(bus).channels && ch !in todo && old(bus).channels[ch].None?
        decreases todo
      {
        var ch :| ch in todo;
        todo := todo - {ch};
        if bus.channels[ch].None? {
          bus := bus.(channels := bus.channels[ch := Some(msg)]);
          delivered := true;
        }
      }
    }

    method PublishMessage(msg: M)
      modifies this
      ensures bus == Step(old(bus), Publish(msg))
    {
      var delivered := Notify(msg);
      bus := bus.(published := bus.published + [msg]);
      if !delivered {
        bus := bus.(pending := bus.pending + [msg]);
      }
    }

    method TakePending() returns (msg: Option<M>)
      modifies this
      ensures msg == (if old(bus).pending == [] then None else Some(old(bus).pending[0]))
      ensures bus == old(bus).(pending := if old(bus).pending == [] then [] else old(bus).pending[1..])
    {
      if |bus.pending| == 0 {
        return None;
      }
      msg := Some(bus.pending[0]);
      bus := bus.(pending := bus.pending[1..]);
    }

    /** One step of a wait, or of the bus goroutine beside it. */
    method WaitOnce(e: Event<M>) returns (r: WaitResult<M>)
      requires OneWaiter(bus) && Waiting(bus)
      modifies this
      ensures bus == Next(old(bus), e)
      ensures r == WaitVerdict(old(bus), e)
      ensures if r.StillWaiting? then Waiting(bus) else bus.waiter.Leaving?
      ensures bus.waits == old(bus).waits
      ensures bus.accepted == old(bus).accepted + (if r.Matched? then [r.msg] else [])
    {
      r := StillWaiting;
      if e.Publish? {
        PublishMessage(e.msg);
      } else if e.Look? && bus.waiter.Looking? {
        r := LookOnce(e.matches);
      } else if e.GiveUp? && bus.waiter.Blocked? {
        bus := bus.(waiter := Leaving(bus.waiter.ch));
        r := Abandoned;
      } else if e.Receive? && bus.waiter.Blocked? && bus.channels[bus.waiter.ch].Some? {
        r := ReceiveOnce(e.matches);
      }
    }

    /** Subscribes, then looks and listens until a message matches or the wait gives up, then unsubscribes. The
        schedule says when the bus goroutine publishes, what the select picks and which messages match; the wait
        follows it, `n` events far. */
    method Wait(ch: nat, schedule: seq<Event<M>>) returns (r: WaitResult<M>, ghost n: nat)
      requires OneWaiter(bus) && Conserved(bus) && bus.waiter.Absent?
      modifies this
      ensures n <= |schedule| && (r.StillWaiting? ==> n == |schedule|)
      ensures bus == if r.StillWaiting? then Waited(old(bus), ch, schedule, n) else Next(Waited(old(bus), ch, schedule, n), Unsubscribe)
      ensures WaitEnds(old(bus), ch, schedule, r)
      ensures OneWaiter(bus) && Conserved(bus)
      ensures bus.waiter.Absent? <==> !r.StillWaiting?
      ensures bus.waits == old(bus).waits + (if r.StillWaiting? then 0 else 1)
      ensures bus.accepted == old(bus).accepted + (if r.Matched? then [r.msg] else [])
    {
      assert [Subscribe(ch)] + schedule[..0] == [] + [Subscribe(ch)];
      RunSnoc(bus, [], Subscribe(ch));
      bus := bus.(channels := bus.channels[ch := None], waiter := Looking(ch));
      r, n := WaitOn(old(bus), ch, schedule);
      WaitConserves(old(bus), ch, schedule, n);
      if !r.StillWaiting? {
        bus := Step(bus, Unsubscribe);
      }
    }

    /** The loop of a wait that subscribed on `before`. */
    method WaitOn(ghost before: Bus<M>, ghost ch: nat, schedule: seq<Event<M>>) returns (r: WaitResult<M>, ghost n: nat)
      requires OneWaiter(before) && bus == Waited(before, ch, schedule, 0) && Waiting(bus)
      modifies this
      ensures n <= |schedule| && (r.StillWaiting? ==> n == |schedule|)
      ensures bus == Waited(before, ch, schedule, n) && WaitEnds(before, ch, schedule, r)
      ensures if r.StillWaiting? then Waiting(bus) else bus.waiter.Leaving?
      ensures bus.waits == old(bus).waits && bus.accepted == old(bus).accepted + (if r.Matched? then [r.msg] else [])
    {
      n := 0;
      for i := 0 to |schedule|
        invariant n == i && bus == Waited(before, ch, schedule, i) && StillIn(before, ch, schedule, i)
        invariant bus.waits == old(bus).waits && bus.accepted == old(bus).accepted
      {
        WaitedSnoc(before, ch, schedule, i);
        RunKeepsOneWaiter(before, [Subscribe(ch)] + schedule[..i]);
        r := WaitOnce(schedule[i]);
        n := i + 1;
        if !r.StillWaiting? {
          WaitEndsAt(before, ch, schedule, i);
          return;
        }
      }
      r := StillWaiting;
      NoWaitEnd(before, ch, schedule);
    }

    /** Takes one queued message, if there is one, and tries it. */
    method LookOnce(matches: bool) returns (r: WaitResult<M>)
      requires bus.waiter.Looking?
      modifies this
      ensures bus == Step(old(bus), Look(matches))
      ensures r == if matches && old(bus).pending != [] then Matched(old(bus).pending[0]) else StillWaiting
    {
      var ch := bus.waiter.ch;
      var msg := TakePending();
      bus := bus.(waiter := Blocked(ch));
      r := StillWaiting;
      if msg.Some? {
        bus := bus.(handled := bus.handled + [msg.value]);
        if matches {
          r := Matched(msg.value);
          bus := bus.(waiter := Leaving(ch), accepted := bus.accepted + [msg.value]);
        }
      }
    }

    /** Takes the message in the channel and tries it. */
    method ReceiveOnce(matches: bool) returns (r: WaitResult<M>)
      requires Enabled(bus, Receive(matches))
      modifies this
      ensures bus == Step(old(bus), Receive(matches))
      ensures r == if matches then Matched(old(bus).channels[old(bus).waiter.ch].value) else StillWaiting
    {
      var ch := bus.waiter.ch;
      var msg := bus.channels[ch].value;
      bus := bus.(channels := bus.channels[ch := None], handled := bus.handled + [msg], waiter := Looking(ch));
      r := StillWaiting;
      if matches {
        r := Matched(msg);
        bus := bus.(waiter := Leaving(ch), accepted := bus.accepted + [msg]);
      }
    }
  }
}

/** The messages on a guest's queue. */
module Communication {
  import opened Wrappers

  datatype Money = Money(amount: int, currency: string)

  datatype PaymentRequest =
    PaymentRequest(invoiceNumber: string, total: Option<Money>, cottageName: Option<string>, payerEmail: Option<string>)

  datatype BookingStatus = Confirmed | OtherStatus

  datatype Confirmation = Confirmation(bookingId: string, status: BookingStatus, guestId: Option<string>)

  datatype CheckinToday = CheckinToday(bookingId: string, guestId: string, cottageName: string, checkIn: Option<int>)
}

/** The whole bus: deliveries dispatched by message type onto the three typed buses. */
module GuestBus {
  import opened Wrappers
  import opened Communication
  import TypedBus

  /** A delivery by its `message_type` header; a body of None does not unmarshal. */
  datatype Delivery =
    | PaymentDelivery(payment: Option<PaymentRequest>)
    | ConfirmationDelivery(confirmation: Option<Confirmation>)
    | CheckinDelivery(checkin: Option<CheckinToday>)
    | Unsupported

  datatype Event =
    | Take(delivery: Delivery)                // the loop's select picks a delivery
    | Handle                                  // dispatch, decode, publish
    | Settle                                  // ack or nack
    | Stop                                    // cancelled, or the delivery channel closed
    | AtPayments(p: TypedBus.Event<PaymentRequest>)
    | AtConfirmations(c: TypedBus.Event<Confirmation>)
    | AtCheckins(k: TypedBus.Event<CheckinToday>)

  /** What the bus goroutine is at. */
  datatype Hand = Free | Received(delivery: Delivery) | Handled(delivery: Delivery)

  datatype Settlement = Settlement(delivery: Delivery, acked: bool)

  /** `taken` and `settled` are traces. */
  datatype GuestBus = GuestBus(
    payments: TypedBus.Bus<PaymentRequest>,
    confirmations: TypedBus.Bus<Confirmation>,
    checkins: TypedBus.Bus<CheckinToday>,
    hand: Hand,
    done: bool,
    taken: seq<Delivery>,
    settled: seq<Settlement>)

  function PaymentIn(d: Delivery): Option<PaymentRequest> {
    if d.PaymentDelivery? then d.payment else None
  }

  function ConfirmationIn(d: Delivery): Option<Confirmation> {
    if d.ConfirmationDelivery? then d.confirmation else None
  }

  function CheckinIn(d: Delivery): Option<CheckinToday> {
    if d.CheckinDelivery? then d.checkin else None
  }

  /** Dispatched by its type and decoded. */
  predicate Supported(d: Delivery) {
    PaymentIn(d).Some? || ConfirmationIn(d).Some? || CheckinIn(d).Some?
  }

  function Offer<M>(b: TypedBus.Bus<M>, m: Option<M>): TypedBus.Bus<M> {
    if m.Some? then TypedBus.Step(b, TypedBus.Publish(m.value)) else b
  }

  /** Publishes a delivery on the bus of its type; one that is not supported changes nothing. */
  function HandleDelivery(b: GuestBus, d: Delivery): GuestBus {
    b.(payments := Offer(b.payments, PaymentIn(d)),
       confirmations := Offer(b.confirmations, ConfirmationIn(d)),
       checkins := Offer(b.checkins, CheckinIn(d)))
  }

  predicate Enabled(b: GuestBus, e: Event) {
    match e
    case Take(_) => b.hand.Free? && !b.done
    case Handle => b.hand.Received?
    case Settle => b.hand.Handled?
    case Stop => b.hand.Free? && !b.done
    case AtPayments(p) => !p.Publish? && TypedBus.Enabled(b.payments, p)
    case AtConfirmations(c) => !c.Publish? && TypedBus.Enabled(b.confirmations, c)
    case AtCheckins(k) => !k.Publish? && TypedBus.Enabled(b.checkins, k)
  }

  function Step(b: GuestBus, e: Event): GuestBus
    requires Enabled(b, e)
  {
    match e
    case Take(d) => b.(hand := Received(d), taken := b.taken + [d])
    case Handle => HandleDelivery(b, b.hand.delivery).(hand := Handled(b.hand.delivery))
    case Settle => b.(hand := Free, settled := b.settled + [Settlement(b.hand.delivery, Supported(b.hand.delivery))])
    case Stop => b.(done := true)
    case AtPayments(p) => b.(payments := TypedBus.Step(b.payments, p))
    case AtConfirmations(c) => b.(confirmations := TypedBus.Step(b.confirmations, c))
    case AtCheckins(k) => b.(checkins := TypedBus.Step(b.checkins, k))
  }

  const NEW_BUS := GuestBus(TypedBus.Fresh(), TypedBus.Fresh(), TypedBus.Fresh(), Free, false, [], [])

  function Next(b: GuestBus, e: Event): GuestBus {
    if Enabled(b, e) then Step(b, e) else b
  }

  function Run(events: seq<Event>): GuestBus {
    if events == [] then NEW_BUS else Next(Run(events[..|events| - 1]), events[|events| - 1])
  }

  lemma RunSnoc(events: seq<Event>, e: Event)
    ensures Run(events + [e]) == Next(Run(events), e)
  {
    assert (events + [e])[..|events|] == events;
  }

  // ---------- conservation ----------

  ghost predicate Sound<M>(b: TypedBus.Bus<M>) {
    TypedBus.OneWaiter(b) && TypedBus.Conserved(b)
  }

  ghost predicate AllSound(b: GuestBus) {
    Sound(b.payments) && Sound(b.confirmations) && Sound(b.checkins)
  }

  lemma TypedStep<M>(b: TypedBus.Bus<M>, e: TypedBus.Event<M>)
    requires TypedBus.Enabled(b, e) && Sound(b)
    ensures Sound(TypedBus.Step(b, e))
  {
    TypedBus.StepKeepsOneWaiter(b, e);
    TypedBus.StepConserves(b, e);
  }

  lemma OfferIsSound<M>(b: TypedBus.Bus<M>, m: Option<M>)
    requires Sound(b)
    ensures Sound(Offer(b, m))
  {
    if m.Some? {
      TypedStep(b, TypedBus.Publish(m.value));
    }
  }

  lemma HandleIsSound(b: GuestBus, d: Delivery)
    requires AllSound(b)
    ensures AllSound(HandleDelivery(b, d))
  {
    OfferIsSound(b.payments, PaymentIn(d));
    OfferIsSound(b.confirmations, ConfirmationIn(d));
    OfferIsSound(b.checkins, CheckinIn(d));
  }

  lemma StepIsSound(b: GuestBus, e: Event)
    requires Enabled(b, e) && AllSound(b)
    ensures AllSound(Step(b, e))
  {
    match e
    case Handle => HandleIsSound(b, b.hand.delivery);
    case AtPayments(p) => TypedStep(b.payments, p);
    case AtConfirmations(c) => TypedStep(b.confirmations, c);
    case AtCheckins(k) => TypedStep(b.checkins, k);
    case _ =>
  }

  // ---------- settlement ----------

  /** Each delivery taken is settled once, in order, by an ack exactly if it could be published; only the one
      in hand is not settled yet. */
  ghost predicate Settled(b: GuestBus) {
    && |b.taken| == |b.settled| + (if b.hand.Free? then 0 else 1)
    && (forall i :: 0 <= i < |b.settled| ==> b.settled[i] == Settlement(b.taken[i], Supported(b.taken[i])))
    && (!b.hand.Free? ==> b.hand.delivery == b.taken[|b.taken| - 1])
  }

  lemma StepSettles(b: GuestBus, e: Event)
    requires Enabled(b, e) && Settled(b)
    ensures Settled(Step(b, e))
  {
  }

  /** The deliveries past handling. */
  function Processed(b: GuestBus): seq<Delivery> {
    if b.hand.Received? && |b.taken| > 0 then b.taken[..|b.taken| - 1] else b.taken
  }

  function PaymentOf(d: Delivery): seq<PaymentRequest> {
    AsSeq(PaymentIn(d))
  }

  function ConfirmationOf(d: Delivery): seq<Confirmation> {
    AsSeq(ConfirmationIn(d))
  }

  function CheckinOf(d: Delivery): seq<CheckinToday> {
    AsSeq(CheckinIn(d))
  }

  /** What each typed bus published is what the processed deliveries of its type held, in order. */
  ghost predicate Published(b: GuestBus) {
    && b.payments.published == FlatMap(Processed(b), PaymentOf)
    && b.confirmations.published == FlatMap(Processed(b), ConfirmationOf)
    && b.checkins.published == FlatMap(Processed(b), CheckinOf)
  }

  lemma OneMore<M>(b: TypedBus.Bus<M>, ds: seq<Delivery>, d: Delivery, m: Option<M>, f: Delivery -> seq<M>)
    requires b.published == FlatMap(ds, f) && f(d) == AsSeq(m)
    ensures Offer(b, m).published == FlatMap(ds + [d], f)
  {
    assert Offer(b, m).published == b.published + AsSeq(m);
    FlatMapConcat(ds, [d], f);
    FlatMapOne(d, f);
  }

  lemma HandlePublishes(b: GuestBus)
    requires Enabled(b, Handle) && Settled(b) && Published(b)
    ensures Published(Step(b, Handle))
  {
    var d, before, after := b.hand.delivery, Processed(b), Step(b, Handle);
    assert b.taken == before + [d] == Processed(after);
    OneMore(b.payments, before, d, PaymentIn(d), PaymentOf);
    OneMore(b.confirmations, before, d, ConfirmationIn(d), ConfirmationOf);
    OneMore(b.checkins, before, d, CheckinIn(d), CheckinOf);
  }

  lemma OthersPublishNothing(b: GuestBus, e: Event)
    requires Enabled(b, e) && !e.Handle?
    ensures Step(b, e).payments.published == b.payments.published
    ensures Step(b, e).confirmations.published == b.confirmations.published
    ensures Step(b, e).checkins.published == b.checkins.published
  {
  }

  lemma StepPublishes(b: GuestBus, e: Event)
    requires Enabled(b, e) && Settled(b) && Published(b)
    ensures Published(Step(b, e))
  {
    if e.Handle? {
      HandlePublishes(b);
    } else {
      OthersPublishNothing(b, e);
      assert Processed(Step(b, e)) == Processed(b);
    }
  }

  ghost predicate Healthy(b: GuestBus) {
    AllSound(b) && Settled(b) && Published(b)
  }

  lemma NextIsHealthy(b: GuestBus, e: Event)
    requires Healthy(b)
    ensures Healthy(Next(b, e))
  {
    if Enabled(b, e) {
      StepIsSound(b, e);
      StepSettles(b, e);
      StepPublishes(b, e);
    }
  }

  /** Over every run of the whole bus: all three message types are conserved with the loss bound, each
      delivery is settled once and as it deserves, and each type published exactly what came for it. */
  lemma {:induction false} RunIsSound(events: seq<Event>)
    ensures Healthy(Run(events))
  {
    if events != [] {
      RunIsSound(events[..|events| - 1]);
      NextIsHealthy(Run(events[..|events| - 1]), events[|events| - 1]);
    }
  }

  // ---------- from an accepted message back to its delivery ----------

  /** The delivery was taken, and is acked once it is settled. */
  ghost predicate Delivered(b: GuestBus, d: Delivery) {
    exists i :: 0 <= i < |b.taken| && b.taken[i] == d && (i < |b.settled| ==> b.settled[i] == Settlement(d, true))
  }

  lemma TakenFor<M>(b: GuestBus, f: Delivery -> seq<M>, m: M) returns (i: nat)
    requires m in FlatMap(Processed(b), f)
    ensures i < |b.taken| && m in f(b.taken[i]) && b.taken[i] in b.taken
  {
    InFlatMap(Processed(b), f, m);
    i :| 0 <= i < |Processed(b)| && m in f(Processed(b)[i]);
    assert Processed(b)[i] == b.taken[i];
  }

  lemma PublishedWasDelivered<M>(b: GuestBus, d: Delivery, f: Delivery -> seq<M>, m: M)
    requires Settled(b) && m in FlatMap(Processed(b), f) && Supported(d)
    requires forall e :: m in f(e) ==> e == d
    ensures Delivered(b, d)
  {
    var i := TakenFor(b, f, m);
  }

  lemma AcceptedWasPublished<M>(b: TypedBus.Bus<M>, m: M)
    requires Sound(b) && m in b.accepted
    ensures m in b.published
  {
    assert m in multiset(b.handled);
    assert m in multiset(b.published);
  }

  lemma PaymentWasDelivered(b: GuestBus, m: PaymentRequest)
    requires Settled(b) && b.payments.published == FlatMap(Processed(b), PaymentOf) && m in b.payments.published
    ensures Delivered(b, PaymentDelivery(Some(m)))
  {
    PublishedWasDelivered(b, PaymentDelivery(Some(m)), PaymentOf, m);
  }

  lemma ConfirmationWasDelivered(b: GuestBus, m: Confirmation)
    requires Settled(b) && b.confirmations.published == FlatMap(Processed(b), ConfirmationOf) && m in b.confirmations.published
    ensures Delivered(b, ConfirmationDelivery(Some(m)))
  {
    PublishedWasDelivered(b, ConfirmationDelivery(Some(m)), ConfirmationOf, m);
  }

  lemma CheckinWasDelivered(b: GuestBus, m: CheckinToday)
    requires Settled(b) && b.checkins.published == FlatMap(Processed(b), CheckinOf) && m in b.checkins.published
    ensures Delivered(b, CheckinDelivery(Some(m)))
  {
    PublishedWasDelivered(b, CheckinDelivery(Some(m)), CheckinOf, m);
  }

  /** Nothing is published but what a delivery of its type held. */
  lemma PublishedByContent(b: GuestBus)
    requires Healthy(b)
    ensures forall m :: m in b.payments.published ==> Delivered(b, PaymentDelivery(Some(m)))
    ensures forall m :: m in b.confirmations.published ==> Delivered(b, ConfirmationDelivery(Some(m)))
    ensures forall m :: m in b.checkins.published ==> Delivered(b, CheckinDelivery(Some(m)))
  {
    forall m | m in b.payments.published ensures Delivered(b, PaymentDelivery(Some(m))) {
      PaymentWasDelivered(b, m);
    }
    forall m | m in b.confirmations.published ensures Delivered(b, ConfirmationDelivery(Some(m))) {
      ConfirmationWasDelivered(b, m);
    }
    forall m | m in b.checkins.published ensures Delivered(b, CheckinDelivery(Some(m))) {
      CheckinWasDelivered(b, m);
    }
  }

  /** Every message a wait accepted came in a delivery of its type. */
  lemma AcceptedWasDelivered(b: GuestBus)
    requires Healthy(b)
    ensures forall m :: m in b.payments.accepted ==> Delivered(b, PaymentDelivery(Some(m)))
    ensures forall m :: m in b.confirmations.accepted ==> Delivered(b, ConfirmationDelivery(Some(m)))
    ensures forall m :: m in b.checkins.accepted ==> Delivered(b, CheckinDelivery(Some(m)))
  {
    forall m | m in b.payments.accepted ensures Delivered(b, PaymentDelivery(Some(m))) {
      AcceptedWasPublished(b.payments, m);
      PaymentWasDelivered(b, m);
    }
    forall m | m in b.confirmations.accepted ensures Delivered(b, ConfirmationDelivery(Some(m))) {
      AcceptedWasPublished(b.confirmations, m);
      ConfirmationWasDelivered(b, m);
    }
    forall m | m in b.checkins.accepted ensures Delivered(b, CheckinDelivery(Some(m))) {
      AcceptedWasPublished(b.checkins, m);
      CheckinWasDelivered(b, m);
    }
  }

  // ---------- one wait on the whole bus ----------

  predicate Goroutine(e: Event) {
    e.Take? || e.Handle? || e.Settle? || e.Stop?
  }

  ghost predicate SameWaits<M>(a: TypedBus.Bus<M>, b: TypedBus.Bus<M>) {
    a.waiter == b.waiter && a.handled == b.handled && a.accepted == b.accepted
  }

  /** The part of a step that concerns one message type. */
  function OnPayments(e: Event): Option<TypedBus.Event<PaymentRequest>> {
    if e.AtPayments? then Some(e.p) else None
  }

  function OnConfirmations(e: Event): Option<TypedBus.Event<Confirmation>> {
    if e.AtConfirmations? then Some(e.c) else None
  }

  function OnCheckins(e: Event): Option<TypedBus.Event<CheckinToday>> {
    if e.AtCheckins? then Some(e.k) else None
  }

  /** What a step does to the waits of one type: nothing unless it is theirs; the message tried is handled, and
      accepted if it matched, which ends the wait. */
  ghost predicate Moved<M>(after: TypedBus.Bus<M>, before: TypedBus.Bus<M>, e: Option<TypedBus.Event<M>>) {
    if e.None? then SameWaits(after, before)
    else
      var tried, matched := TypedBus.Tried(before, e.value), TypedBus.Matching(e.value);
      && after.handled == before.handled + AsSeq(tried)
      && after.accepted == before.accepted + (if matched then AsSeq(tried) else [])
      && (matched && tried.Some? ==> after.waiter.Leaving?)
      && (e.value.Unsubscribe? ==> after.waiter == if before.waiter.Leaving? then TypedBus.Absent else before.waiter)
      && (e.value.Subscribe? && before.waiter.Absent? ==> after.waiter.Looking?)
      && (before.waiter.Looking? || before.waiter.Blocked? ==> !after.waiter.Absent?)
  }

  lemma TypedNextMoves<M>(after: TypedBus.Bus<M>, b: TypedBus.Bus<M>, e: TypedBus.Event<M>)
    requires TypedBus.OneWaiter(b) && after == if e.Publish? then b else TypedBus.Next(b, e)
    ensures Moved(after, b, Some(e))
  {
    TypedBus.NextTries(b, e);
  }

  lemma NextMoves(b: GuestBus, e: Event)
    requires TypedBus.OneWaiter(b.payments) && TypedBus.OneWaiter(b.confirmations) && TypedBus.OneWaiter(b.checkins)
    ensures Moved(Next(b, e).payments, b.payments, OnPayments(e))
    ensures Moved(Next(b, e).confirmations, b.confirmations, OnConfirmations(e))
    ensures Moved(Next(b, e).checkins, b.checkins, OnCheckins(e))
  {
    var after := Next(b, e);
    match e
    case AtPayments(p) => TypedNextMoves(after.payments, b.payments, p);
    case AtConfirmations(c) => TypedNextMoves(after.confirmations, b.confirmations, c);
    case AtCheckins(k) => TypedNextMoves(after.checkins, b.checkins, k);
    case _ =>
  }

  predicate Idle(b: GuestBus) {
    b.payments.waiter.Absent? && b.confirmations.waiter.Absent? && b.checkins.waiter.Absent?
  }

  /** Settlement and publication told on the deliveries themselves, over every run: a delivery is acked exactly if it
      is a decoded payment request, booking confirmation or check-in message, and what it held was published on the
      bus of its type by then. */
  lemma SettledByContent(events: seq<Event>, i: nat)
    requires i < |Run(events).settled|
    ensures var b := Run(events);
            && |b.settled| <= |b.taken| && b.settled[i].delivery == b.taken[i]
            && (b.settled[i].acked <==>
                  || (b.taken[i].PaymentDelivery? && b.taken[i].payment.Some?)
                  || (b.taken[i].ConfirmationDelivery? && b.taken[i].confirmation.Some?)
                  || (b.taken[i].CheckinDelivery? && b.taken[i].checkin.Some?))
            && (b.taken[i].PaymentDelivery? && b.taken[i].payment.Some? ==> b.taken[i].payment.value in b.payments.published)
            && (b.taken[i].ConfirmationDelivery? && b.taken[i].confirmation.Some? ==> b.taken[i].confirmation.value in b.confirmations.published)
            && (b.taken[i].CheckinDelivery? && b.taken[i].checkin.Some? ==> b.taken[i].checkin.value in b.checkins.published)
  {
    RunIsSound(events);
    var b := Run(events);
    assert Processed(b)[i] == b.taken[i];
    FlatMapHas(Processed(b), PaymentOf, i);
    FlatMapHas(Processed(b), ConfirmationOf, i);
    FlatMapHas(Processed(b), CheckinOf, i);
  }

  /** A delivery gets through: from any moment of any run at which the goroutine is free and the bus is not done, it
      is taken, published, acked, and handed to a waiter of its type that listens with a free channel. */
  lemma DeliveryReachesWaiter(b: GuestBus, d: Delivery)
    requires Healthy(b) && b.hand.Free? && !b.done
    ensures var after := Next(Next(Next(b, Take(d)), Handle), Settle);
            && after.hand.Free? && after.taken == b.taken + [d] && |after.settled| == |b.settled| + 1
            && (d.PaymentDelivery? && d.payment.Some? ==>
                  && after.payments == TypedBus.Next(b.payments, TypedBus.Publish(d.payment.value))
                  && after.settled == b.settled + [Settlement(d, true)])
            && (d.ConfirmationDelivery? && d.confirmation.Some? ==>
                  && after.confirmations == TypedBus.Next(b.confirmations, TypedBus.Publish(d.confirmation.value))
                  && after.settled == b.settled + [Settlement(d, true)])
            && (d.CheckinDelivery? && d.checkin.Some? ==>
                  && after.checkins == TypedBus.Next(b.checkins, TypedBus.Publish(d.checkin.value))
                  && after.settled == b.settled + [Settlement(d, true)])
  {
  }

  function Acked(settled: seq<Settlement>): nat {
    if settled == [] then 0 else Acked(settled[1..]) + (if settled[0].acked then 1 else 0)
  }

  /** Deliveries that could be published, counted by type. */
  lemma {:induction false} AckedByType(ds: seq<Delivery>, settled: seq<Settlement>)
    requires |ds| == |settled|
    requires forall i :: 0 <= i < |ds| ==> settled[i] == Settlement(ds[i], Supported(ds[i]))
    ensures Acked(settled) == |FlatMap(ds, PaymentOf)| + |FlatMap(ds, ConfirmationOf)| + |FlatMap(ds, CheckinOf)|
  {
    if ds != [] {
      AckedByType(ds[1..], settled[1..]);
    }
  }

  /** Between two deliveries as many are acked as messages were published over the three types. */
  lemma AckedIsPublished(events: seq<Event>)
    requires Run(events).hand.Free?
    ensures var b := Run(events);
            Acked(b.settled) == |b.payments.published| + |b.confirmations.published| + |b.checkins.published|
  {
    RunIsSound(events);
    AckedByType(Run(events).taken, Run(events).settled);
  }

  // ---------- what a wait on the whole bus makes of a schedule ----------

  /** One of the three typed buses inside the whole: the bus itself, its steps, and the deliveries for it. */
  datatype Lens<!M> = Lens(
    get: GuestBus -> TypedBus.Bus<M>,
    at: TypedBus.Event<M> -> Event,
    of: Event -> Option<TypedBus.Event<M>>,
    deliver: M -> Delivery)

  const PAYMENTS: Lens<PaymentRequest> :=
    Lens((b: GuestBus) => b.payments, (p: TypedBus.Event<PaymentRequest>) => AtPayments(p), OnPayments,
         (m: PaymentRequest) => PaymentDelivery(Some(m)))

  const CONFIRMATIONS: Lens<Confirmation> :=
    Lens((b: GuestBus) => b.confirmations, (c: TypedBus.Event<Confirmation>) => AtConfirmations(c), OnConfirmations,
         (m: Confirmation) => ConfirmationDelivery(Some(m)))

  const CHECKINS: Lens<CheckinToday> :=
    Lens((b: GuestBus) => b.checkins, (k: TypedBus.Event<CheckinToday>) => AtCheckins(k), OnCheckins,
         (m: CheckinToday) => CheckinDelivery(Some(m)))

  /** How a wait stands: the bus, whether the wait is over, and the message it accepted. */
  datatype Hearing<M> = Hearing(bus: GuestBus, done: bool, accepted: Option<M>)

  function Arrived(b: GuestBus, arrivals: seq<Event>): GuestBus
    decreases |arrivals|
  {
    if arrivals == [] then b
    else Arrived(if Goroutine(arrivals[0]) then Next(b, arrivals[0]) else b, arrivals[1..])
  }

  /** The verdict on the message tried, if any, and the end of the wait. */
  function Decision<M>(l: Lens<M>, b: GuestBus, e: TypedBus.Event<M>, ok: bool): GuestBus {
    var moved := Next(b, l.at(TypedBus.Decided(e, ok)));
    if l.get(moved).waiter.Leaving? then Next(moved, l.at(TypedBus.Unsubscribe)) else moved
  }

  /** One event of the schedule: a step of the goroutine, a step of this wait, or none of its business. */
  function HearOne<M>(l: Lens<M>, b: GuestBus, e: Event, test: M -> bool): Hearing<M> {
    if Goroutine(e) then Hearing(Next(b, e), false, None)
    else if l.of(e).None? then Hearing(b, false, None)
    else
      var m := TypedBus.Tried(l.get(b), l.of(e).value);
      var ok := m.Some? && test(m.value);
      var moved := Next(b, l.at(TypedBus.Decided(l.of(e).value, ok)));
      Hearing(Decision(l, b, l.of(e).value, ok), l.get(moved).waiter.Leaving?, if ok then m else None)
  }

  function Hear<M>(l: Lens<M>, b: GuestBus, schedule: seq<Event>, test: M -> bool): Hearing<M>
    decreases |schedule|
  {
    if schedule == [] then Hearing(b, false, None)
    else
      var h := HearOne(l, b, schedule[0], test);
      if h.done then h else Hear(l, h.bus, schedule[1..], test)
  }

  /** A whole wait: what arrived before, the subscription, the schedule. */
  function WaitOutcome<M>(l: Lens<M>, b: GuestBus, ch: nat, arrivals: seq<Event>, schedule: seq<Event>, test: M -> bool): Hearing<M> {
    Hear(l, Next(Arrived(b, arrivals), l.at(TypedBus.Subscribe(ch))), schedule, test)
  }

  // ---------- a wait gets what is delivered to it ----------

  /** The bus after a delivery was taken, handled and settled. */
  function Processing(b: GuestBus, d: Delivery): GuestBus {
    Next(Next(Next(b, Take(d)), Handle), Settle)
  }

  ghost predicate StepsInside<M(!new)>(l: Lens<M>) {
    && (forall e :: l.of(l.at(e)) == Some(e) && !Goroutine(l.at(e)))
    && (forall b: GuestBus, e: TypedBus.Event<M> :: !e.Publish? ==> l.get(Next(b, l.at(e))) == TypedBus.Next(l.get(b), e))
    && (forall b: GuestBus, e: TypedBus.Event<M> :: Next(b, l.at(e)).hand == b.hand && Next(b, l.at(e)).done == b.done && Next(b, l.at(e)).settled == b.settled)
  }

  ghost predicate DeliversInto<M(!new)>(l: Lens<M>) {
    forall b: GuestBus, m: M :: b.hand.Free? && !b.done ==>
                     && l.get(Processing(b, l.deliver(m))) == TypedBus.Next(l.get(b), TypedBus.Publish(m))
                     && Processing(b, l.deliver(m)).settled == b.settled + [Settlement(l.deliver(m), true)]
  }

  lemma PaymentsLawful()
    ensures StepsInside(PAYMENTS) && DeliversInto(PAYMENTS)
  {
  }

  lemma ConfirmationsLawful()
    ensures StepsInside(CONFIRMATIONS) && DeliversInto(CONFIRMATIONS)
  {
  }

  lemma CheckinsLawful()
    ensures StepsInside(CHECKINS) && DeliversInto(CHECKINS)
  {
  }

  lemma HearGoroutine<M>(l: Lens<M>, b: GuestBus, d: Delivery, rest: seq<Event>, test: M -> bool)
    ensures Hear(l, b, [Take(d), Handle, Settle] + rest, test) == Hear(l, Processing(b, d), rest, test)
  {
    var all := [Take(d), Handle, Settle] + rest;
    assert all[1..] == [Handle, Settle] + rest && all[1..][1..] == [Settle] + rest && all[1..][1..][1..] == rest;
    assert Hear(l, b, all, test) == Hear(l, Next(b, Take(d)), [Handle, Settle] + rest, test);
    assert Hear(l, Next(b, Take(d)), [Handle, Settle] + rest, test) == Hear(l, Next(Next(b, Take(d)), Handle), [Settle] + rest, test);
  }

  /** A look at an empty queue. */
  lemma HearLook<M(!new)>(l: Lens<M>, b: GuestBus, rest: seq<Event>, test: M -> bool)
    requires StepsInside(l) && l.get(b).waiter.Looking? && l.get(b).pending == []
    ensures var after := Next(b, l.at(TypedBus.Look(false)));
            && Hear(l, b, [l.at(TypedBus.Look(false))] + rest, test) == Hear(l, after, rest, test)
            && l.get(after) == l.get(b).(waiter := TypedBus.Blocked(l.get(b).waiter.ch))
  {
    var look: TypedBus.Event<M> := TypedBus.Look(false);
    var all := [l.at(look)] + rest;
    assert all[0] == l.at(look) && all[1..] == rest;
    assert TypedBus.Tried(l.get(b), look).None? && TypedBus.Decided(look, false) == look;
    assert l.of(l.at(look)) == Some(look);
    assert HearOne(l, b, l.at(look), test) == Hearing(Next(b, l.at(look)), false, None);
  }

  lemma InsideStep<M(!new)>(l: Lens<M>, b: GuestBus, e: TypedBus.Event<M>)
    requires StepsInside(l) && !e.Publish?
    ensures l.of(l.at(e)) == Some(e) && !Goroutine(l.at(e))
    ensures l.get(Next(b, l.at(e))) == TypedBus.Next(l.get(b), e) && Next(b, l.at(e)).settled == b.settled
  {
  }

  lemma HearEnd<M>(l: Lens<M>, b: GuestBus, m: M, test: M -> bool, receive: TypedBus.Event<M>, moved: GuestBus)
    requires receive == TypedBus.Receive(false) && l.of(l.at(receive)) == Some(receive) && !Goroutine(l.at(receive))
    requires TypedBus.Tried(l.get(b), receive) == Some(m) && test(m)
    requires moved == Next(b, l.at(TypedBus.Receive(true))) && l.get(moved).waiter.Leaving?
    ensures Hear(l, b, [l.at(receive)], test) == Hearing(Next(moved, l.at(TypedBus.Unsubscribe)), true, Some(m))
  {
    assert TypedBus.Decided(receive, true) == TypedBus.Receive(true);
    assert HearOne(l, b, l.at(receive), test) == Hearing(Next(moved, l.at(TypedBus.Unsubscribe)), true, Some(m));
  }

  /** A message in the channel that passes the test. */
  lemma HearReceive<M(!new)>(l: Lens<M>, b: GuestBus, m: M, test: M -> bool)
    requires StepsInside(l) && test(m) && l.get(b).waiter.Blocked?
    requires l.get(b).waiter.ch in l.get(b).channels && l.get(b).channels[l.get(b).waiter.ch] == Some(m)
    ensures var h := Hear(l, b, [l.at(TypedBus.Receive(false))], test);
            h.done && h.accepted == Some(m) && l.get(h.bus).waiter.Absent? && h.bus.settled == b.settled
  {
    var receive: TypedBus.Event<M> := TypedBus.Receive(false);
    var moved := Next(b, l.at(TypedBus.Receive(true)));
    assert Hear(l, b, [l.at(receive)], test) == Hearing(Next(moved, l.at(TypedBus.Unsubscribe)), true, Some(m)) by {
      InsideStep(l, b, receive);
      InsideStep(l, b, TypedBus.Receive(true));
      HearEnd(l, b, m, test, receive, moved);
    }
    InsideStep(l, b, TypedBus.Receive(true));
    InsideStep(l, moved, TypedBus.Unsubscribe);
  }

  lemma SubscribeStarts<M(!new)>(l: Lens<M>, b: GuestBus, ch: nat)
    requires StepsInside(l) && TypedBus.OneWaiter(l.get(b)) && l.get(b).waiter.Absent?
    ensures var after := Next(b, l.at(TypedBus.Subscribe(ch)));
            l.get(after) == l.get(b).(channels := map[ch := None], waiter := TypedBus.Looking(ch))
  {
    assert l.get(b).channels == map[];
    assert l.get(Next(b, l.at(TypedBus.Subscribe(ch)))) == TypedBus.Next(l.get(b), TypedBus.Subscribe(ch));
  }

  lemma PublishFills<M>(b: TypedBus.Bus<M>, ch: nat, m: M)
    requires b.channels == map[ch := None]
    ensures TypedBus.Next(b, TypedBus.Publish(m)).channels == map[ch := Some(m)]
    ensures TypedBus.Next(b, TypedBus.Publish(m)).waiter == b.waiter
  {
  }

  /** A wait gets what is delivered to it: on a bus with a free goroutine and nothing queued for the wait, a message
      that passes the test and is delivered while the wait listens is accepted, and its delivery is acked. */
  lemma WaitHears<M(!new)>(l: Lens<M>, b: GuestBus, ch: nat, m: M, test: M -> bool)
    requires StepsInside(l) && DeliversInto(l) && b.hand.Free? && !b.done && test(m)
    requires TypedBus.OneWaiter(l.get(b)) && l.get(b).waiter.Absent? && l.get(b).pending == []
    ensures var schedule := [l.at(TypedBus.Look(false))] + ([Take(l.deliver(m)), Handle, Settle] + [l.at(TypedBus.Receive(false))]);
            var h := WaitOutcome(l, b, ch, [], schedule, test);
            && h.done && h.accepted == Some(m) && l.get(h.bus).waiter.Absent?
            && h.bus.settled == b.settled + [Settlement(l.deliver(m), true)]
  {
    var look: TypedBus.Event<M>, receive: TypedBus.Event<M> := TypedBus.Look(false), TypedBus.Receive(false);
    var rest := [Take(l.deliver(m)), Handle, Settle] + [l.at(receive)];
    var b0 := Next(b, l.at(TypedBus.Subscribe(ch)));
    SubscribeStarts(l, b, ch);
    HearLook(l, b0, rest, test);
    var b1 := Next(b0, l.at(look));
    HearGoroutine(l, b1, l.deliver(m), [l.at(receive)], test);
    PublishFills(l.get(b1), ch, m);
    HearReceive(l, Processing(b1, l.deliver(m)), m, test);
  }

  /** The same for a message queued before the wait: the oldest one is tried first. */
  lemma WaitHearsQueued<M(!new)>(l: Lens<M>, b: GuestBus, ch: nat, test: M -> bool)
    requires StepsInside(l)
    requires TypedBus.OneWaiter(l.get(b)) && l.get(b).waiter.Absent? && l.get(b).pending != [] && test(l.get(b).pending[0])
    ensures var h := WaitOutcome(l, b, ch, [], [l.at(TypedBus.Look(false))], test);
            h.done && h.accepted == Some(l.get(b).pending[0]) && l.get(h.bus).waiter.Absent?
  {
    var b0 := Next(b, l.at(TypedBus.Subscribe(ch)));
    assert l.get(b0).waiter == TypedBus.Looking(ch) && l.get(b0).pending == l.get(b).pending;
    TypedBus.QueuedIsTaken(l.get(b), ch, true);
  }

  /** What arrives while nobody waits is kept for the next wait, which accepts it as soon as it looks, if it passes
      the test and nothing older is queued. */
  lemma WaitHearsArrival<M(!new)>(l: Lens<M>, b: GuestBus, ch: nat, m: M, test: M -> bool)
    requires StepsInside(l) && DeliversInto(l) && b.hand.Free? && !b.done && test(m)
    requires TypedBus.OneWaiter(l.get(b)) && l.get(b).waiter.Absent? && l.get(b).pending == []
    ensures var h := WaitOutcome(l, b, ch, [Take(l.deliver(m)), Handle, Settle], [l.at(TypedBus.Look(false))], test);
            h.done && h.accepted == Some(m) && l.get(h.bus).waiter.Absent?
  {
    var arrived := Processing(b, l.deliver(m));
    ArrivedIsProcessed(b, l.deliver(m));
    QueuesWithoutWaiter(l.get(b), m);
    assert l.get(arrived) == TypedBus.Next(l.get(b), TypedBus.Publish(m));
    WaitHearsQueued(l, arrived, ch, test);
  }

  lemma ArrivedIsProcessed(b: GuestBus, d: Delivery)
    ensures Arrived(b, [Take(d), Handle, Settle]) == Processing(b, d)
  {
    var arrivals := [Take(d), Handle, Settle];
    var taken, handled := Next(b, Take(d)), Next(Next(b, Take(d)), Handle);
    assert arrivals[1..] == [Handle, Settle] && [Handle, Settle][1..] == [Settle] && [Settle][1..] == [];
    assert Arrived(b, arrivals) == Arrived(taken, [Handle, Settle]);
    assert Arrived(taken, [Handle, Settle]) == Arrived(handled, [Settle]);
    assert Arrived(handled, [Settle]) == Arrived(Next(handled, Settle), []);
  }

  lemma QueuesWithoutWaiter<M>(b: TypedBus.Bus<M>, m: M)
    requires TypedBus.OneWaiter(b) && b.waiter.Absent?
    ensures var after := TypedBus.Next(b, TypedBus.Publish(m));
            TypedBus.OneWaiter(after) && after.waiter.Absent? && after.pending == b.pending + [m]
  {
    assert b.channels == map[];
  }

  /** A bus that stopped takes no more deliveries. */
  lemma StoppedBusTakesNothing(b: GuestBus, d: Delivery)
    requires b.hand.Free?
    ensures Next(b, Stop).done && Next(Next(b, Stop), Take(d)) == Next(b, Stop) && Next(b, Stop).taken == b.taken
  {
  }
}
