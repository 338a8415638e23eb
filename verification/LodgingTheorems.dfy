/** What every lodging run keeps, for every flow and every environment, and the exact
    condition under which a run succeeds. */
module LodgingTheorems {
  import opened Wrappers
  import opened LodgingMessages
  import opened LodgingScript
  import TimeGate

  // ---------- 1. the trace of a run is a prefix of its script ----------

  datatype Mark = MHeld(target: int) | MHeard(want: Want) | MAnswered(response: Response) | MSent(action: GuestAction)

  function InstrMarks(i: Instr): seq<Mark> {
    match i
    case HoldUntil(t) => [MHeld(t)]
    case Send(a) => [MSent(a)]
    case CompleteCheckin(_) => [MHeard(WantNotification(CheckInComplete))]
    case Await(w, None) => [MHeard(w)]
    case Await(w, Some(r)) => [MHeard(w), MAnswered(r)]
  }

  function Marks(script: seq<Instr>): seq<Mark> {
    FlatMap(script, InstrMarks)
  }

  function MarkOf(e: Entry): Mark {
    match e
    case Held(t, _) => MHeld(t)
    case Heard(w, _) => MHeard(w)
    case Answered(r) => MAnswered(r)
    case Sent(a, _) => MSent(a)
  }

  /** `before` grew by entries that spell out the first |after| - |before| of the marks. */
  ghost predicate Follows(before: seq<Entry>, after: seq<Entry>, marks: seq<Mark>) {
    && before <= after
    && |after| <= |before| + |marks|
    && forall i :: |before| <= i < |after| ==> MarkOf(after[i]) == marks[i - |before|]
  }

  lemma {:induction false} DeskFollows(env: Env, s: State, desk: Desk)
    requires s.pos <= |env.inbound|
    ensures var o := AtDesk(env, s, desk);
            && (o.ok ==> 0 < o.state.pos)
            && o.state.log == s.log + (if o.ok then [Heard(WantNotification(CheckInComplete), o.state.pos - 1)] else [])
            && s.accepted <= o.state.accepted
    decreases |env.inbound| - s.pos
  {
    if s.pos < |env.inbound| {
      var m := env.inbound[s.pos];
      var s1 := s.(pos := s.pos + 1);
      if m.GetNotification() != CheckInComplete {
        if DeskAnswer(desk, m).None? {
          DeskFollows(env, s1, desk);
        } else {
          var o := Operate(env, s1, s1.Replied(Reply(DeskAnswer(desk, m).value, s.pos, m.correlationId)));
          if o.ok {
            DeskFollows(env, o.state, desk);
          }
        }
      }
    }
  }

  lemma PerformFollows(env: Env, s: State, i: Instr)
    requires s.pos <= |env.inbound|
    ensures var o := Perform(env, s, i);
            && Follows(s.log, o.state.log, InstrMarks(i))
            && (o.ok <==> |o.state.log| == |s.log| + |InstrMarks(i)|)
  {
    if i.CompleteCheckin? {
      DeskFollows(env, s, i.desk);
    }
  }

  /** In every run, failing or not, the log spells out a prefix of the script's marks,
      and all of them exactly when the run succeeds. */
  lemma {:induction false} RunFollowsScript(env: Env, s: State, script: seq<Instr>)
    requires s.pos <= |env.inbound|
    ensures var o := Run(env, s, script);
            && Follows(s.log, o.state.log, Marks(script))
            && (o.ok <==> |o.state.log| == |s.log| + |Marks(script)|)
    decreases |script|
  {
    if script != [] {
      PerformFollows(env, s, script[0]);
      var o := Perform(env, s, script[0]);
      if o.ok {
        RunFollowsScript(env, o.state, script[1..]);
      }
    }
  }

  // ---------- 2. no gated action before its time ----------

  predicate Timed(e: Entry) {
    e.Held? || e.Sent?
  }

  /** One of the first `seen` events accepted is at or after the target. */
  ghost predicate Reached(accepted: seq<int>, seen: nat, target: int) {
    seen <= |accepted| && exists k :: 0 <= k < seen && accepted[k] >= target
  }

  /** Waits and actions count the accepted events in order, and each wait over has its target reached. */
  ghost predicate Timely(s: State) {
    && (forall i :: 0 <= i < |s.log| && Timed(s.log[i]) ==> s.log[i].seen <= |s.accepted|)
    && (forall i, j :: 0 <= i < j < |s.log| && Timed(s.log[i]) && Timed(s.log[j]) ==> s.log[i].seen <= s.log[j].seen)
    && (forall i :: 0 <= i < |s.log| && s.log[i].Held? ==> Reached(s.accepted, s.log[i].seen, s.log[i].target))
  }

  lemma ReachedLater(accepted: seq<int>, seen: nat, target: int, later: seq<int>, more: nat)
    requires Reached(accepted, seen, target) && accepted <= later && seen <= more <= |later|
    ensures Reached(later, more, target)
  {
    var k :| 0 <= k < seen && accepted[k] >= target;
    assert later[k] >= target;
  }

  /** Time goes on, and at most one entry is added. */
  lemma StaysTimely(s: State, after: State)
    requires Timely(s) && s.accepted <= after.accepted
    requires s.log <= after.log
    requires forall i :: |s.log| <= i < |after.log| && Timed(after.log[i]) ==>
                           |after.log| == |s.log| + 1 && |s.accepted| <= after.log[i].seen <= |after.accepted|
    requires forall i :: |s.log| <= i < |after.log| && after.log[i].Held? ==> Reached(after.accepted, after.log[i].seen, after.log[i].target)
    ensures Timely(after)
  {
    forall i | 0 <= i < |after.log| && after.log[i].Held? ensures Reached(after.accepted, after.log[i].seen, after.log[i].target) {
      if i < |s.log| {
        assert after.log[i] == s.log[i];
        ReachedLater(s.accepted, s.log[i].seen, s.log[i].target, after.accepted, s.log[i].seen);
      }
    }
  }

  lemma HoldIsTimely(env: Env, s: State, target: int)
    requires Timely(s)
    ensures Timely(Hold(env, s, target).state)
  {
    var before, schedule, after := Clock(env, s), env.waits(s.ops, target), Hold(env, s, target).state;
    var start := TimeGate.NewGate(target, before, env.phase(s.ops));
    var gate := TimeGate.Run(start, schedule);
    TimeGate.RunIsSound(start, schedule);
    assert s.accepted <= before <= gate.accepted;
    if gate.waiter.Passed? {
      var t :| t in gate.accepted && t >= target;
      assert Reached(gate.accepted, |gate.accepted|, target);
    }
    StaysTimely(s, after);
  }

  lemma PerformIsTimely(env: Env, s: State, i: Instr)
    requires s.pos <= |env.inbound| && Timely(s)
    ensures Timely(Perform(env, s, i).state)
  {
    if i.HoldUntil? {
      HoldIsTimely(env, s, i.target);
    } else {
      if i.CompleteCheckin? {
        DeskFollows(env, s, i.desk);
      }
      StaysTimely(s, Perform(env, s, i).state);
    }
  }

  lemma {:induction false} RunIsTimely(env: Env, s: State, script: seq<Instr>)
    requires s.pos <= |env.inbound| && Timely(s)
    ensures Timely(Run(env, s, script).state)
    decreases |script|
  {
    if script != [] {
      PerformIsTimely(env, s, script[0]);
      var o := Perform(env, s, script[0]);
      if o.ok {
        RunIsTimely(env, o.state, script[1..]);
      }
    }
  }

  /** However the time service, the forwarders and the waits interleave and whatever events they drop, an
      action behind a hold is sent only when an hour event at or after the hold's target has been accepted;
      if events never go back, the latest one accepted by then is such an event. */
  lemma NoActionBeforeItsTime(env: Env, script: seq<Instr>, i: nat, j: nat)
    requires i < j < |Run(env, START, script).state.log| <= |Marks(script)|
    requires Marks(script)[i].MHeld? && Marks(script)[j].MSent?
    ensures var s := Run(env, START, script).state;
            var e := s.log[j];
            && e.Sent? && e.action == Marks(script)[j].action
            && Reached(s.accepted, e.seen, Marks(script)[i].target)
            && (TimeGate.NonDecreasing(s.accepted) ==> 0 < e.seen && Marks(script)[i].target <= s.accepted[e.seen - 1])
  {
    RunFollowsScript(env, START, script);
    RunIsTimely(env, START, script);
    var s := Run(env, START, script).state;
    var held, sent, target := s.log[i], s.log[j], Marks(script)[i].target;
    assert MarkOf(held) == Marks(script)[i] && MarkOf(sent) == Marks(script)[j];
    ReachedLater(s.accepted, held.seen, target, s.accepted, sent.seen);
    var k :| 0 <= k < sent.seen && s.accepted[k] >= target;
    assert TimeGate.NonDecreasing(s.accepted) && k < sent.seen - 1 ==> s.accepted[k] <= s.accepted[sent.seen - 1];
  }

  /** A wait for a time succeeds exactly when the gate for that very time is opened: its look at the clock sees the
      target reached, or an event of the target hour is offered to it while its channel is free. */
  lemma HoldSucceedsIff(env: Env, s: State, target: int)
    requires s.pos <= |env.inbound|
    requires var schedule := env.waits(s.ops, target);
             && (forall i :: 0 <= i < |schedule| ==> !TimeGate.GivesUp(schedule[i]))
             && TimeGate.Drained(TimeGate.Run(TimeGate.NewGate(target, s.accepted + env.meanwhile(s.ops), env.phase(s.ops)), schedule))
    ensures Perform(env, s, HoldUntil(target)).ok <==>
            TimeGate.Opened(TimeGate.NewGate(target, s.accepted + env.meanwhile(s.ops), env.phase(s.ops)), env.waits(s.ops, target))
  {
    TimeGate.PassesIff(target, s.accepted + env.meanwhile(s.ops), env.phase(s.ops), env.waits(s.ops, target));
  }

  // ---------- 3. no gated action before its message ----------

  /** Every message a wait was satisfied by is one that was consumed and does match, each later than the one before. */
  ghost predicate Truthful(env: Env, s: State) {
    && (forall i :: 0 <= i < |s.log| && s.log[i].Heard? ==>
          s.log[i].at < s.pos <= |env.inbound| && s.log[i].want.Matches(env.inbound[s.log[i].at]))
    && (forall i, j :: 0 <= i < j < |s.log| && s.log[i].Heard? && s.log[j].Heard? ==> s.log[i].at < s.log[j].at)
  }

  lemma {:induction false} DeskIsTruthful(env: Env, s: State, desk: Desk)
    requires s.pos <= |env.inbound| && Truthful(env, s)
    ensures Truthful(env, AtDesk(env, s, desk).state)
    decreases |env.inbound| - s.pos
  {
    if s.pos < |env.inbound| {
      var m := env.inbound[s.pos];
      var s1 := s.(pos := s.pos + 1);
      if m.GetNotification() != CheckInComplete {
        if DeskAnswer(desk, m).None? {
          DeskIsTruthful(env, s1, desk);
        } else {
          var o := Operate(env, s1, s1.Replied(Reply(DeskAnswer(desk, m).value, s.pos, m.correlationId)));
          if o.ok {
            DeskIsTruthful(env, o.state, desk);
          }
        }
      }
    }
  }

  lemma HearIsTruthful(env: Env, s: State, want: Want)
    requires s.pos <= |env.inbound| && Truthful(env, s)
    ensures Truthful(env, Hear(env, s, want).state)
  {
  }

  /** Nothing more was heard. */
  lemma StaysTruthful(env: Env, s: State, after: State)
    requires Truthful(env, s) && after.pos == s.pos
    requires after.log == s.log || exists e: Entry :: !e.Heard? && after.log == s.log + [e]
    ensures Truthful(env, after)
  {
  }

  lemma PerformIsTruthful(env: Env, s: State, i: Instr)
    requires s.pos <= |env.inbound| && Truthful(env, s)
    ensures Truthful(env, Perform(env, s, i).state)
  {
    var after := Perform(env, s, i).state;
    match i
    case CompleteCheckin(desk) => DeskIsTruthful(env, s, desk);
    case Await(want, answer) =>
      HearIsTruthful(env, s, want);
      StaysTruthful(env, Hear(env, s, want).state, after);
    case _ => StaysTruthful(env, s, after);
  }

  lemma {:induction false} RunIsTruthful(env: Env, s: State, script: seq<Instr>)
    requires s.pos <= |env.inbound| && Truthful(env, s)
    ensures Truthful(env, Run(env, s, script).state)
    decreases |script|
  {
    if script != [] {
      PerformIsTruthful(env, s, script[0]);
      var o := Perform(env, s, script[0]);
      if o.ok {
        RunIsTruthful(env, o.state, script[1..]);
      }
    }
  }

  /** An action sent after a gate in the script is sent after a message that opened this very gate was
      consumed, whatever else fails. */
  lemma NoActionBeforeItsMessage(env: Env, script: seq<Instr>, i: nat, j: nat)
    requires i < j < |Run(env, START, script).state.log| <= |Marks(script)|
    requires Marks(script)[i].MHeard? && Marks(script)[j].MSent?
    ensures var log := Run(env, START, script).state.log;
            && log[j].Sent? && log[j].action == Marks(script)[j].action
            && log[i].Heard? && log[i].at < |env.inbound| && Marks(script)[i].want.Matches(env.inbound[log[i].at])
  {
    RunFollowsScript(env, START, script);
    RunIsTruthful(env, START, script);
    var log := Run(env, START, script).state.log;
    assert MarkOf(log[i]) == Marks(script)[i] && MarkOf(log[j]) == Marks(script)[j];
  }

  // ---------- 4. replies ----------

  /** The request a response is meant for. */
  function RequestFor(r: Response): Request {
    match r
    case ShowDocument(_) => RequestDocument
    case ShowBookingNumber(_) => RequestBookingNumber
    case ReceiveKey(_) => GiveCottageKey
    case ReturnKey(_) => RequestCottageKey
  }

  predicate PoliteInstr(i: Instr) {
    match i
    case Await(w, Some(r)) => w == WantRequest(RequestFor(r))
    case CompleteCheckin(d) => d.documentRequest in {NoRequest, RequestDocument} && d.bookingRequest in {NoRequest, RequestBookingNumber}
    case _ => true
  }

  ghost predicate Polite(script: seq<Instr>) {
    forall i :: 0 <= i < |script| ==> PoliteInstr(script[i])
  }

  /** Every reply answers a message consumed before, of the request kind it is meant for, under
      that message's correlation id, and replies name strictly increasing messages: none twice. */
  ghost predicate Disciplined(env: Env, s: State) {
    && (forall i :: 0 <= i < |s.replies| ==>
          var r := s.replies[i];
          && r.at < s.pos <= |env.inbound|
          && env.inbound[r.at].payload == SystemRequests(RequestFor(r.response))
          && r.correlationId == env.inbound[r.at].correlationId)
    && (forall i, j :: 0 <= i < j < |s.replies| ==> s.replies[i].at < s.replies[j].at)
  }

  lemma {:induction false} DeskIsDisciplined(env: Env, s: State, desk: Desk)
    requires s.pos <= |env.inbound| && Disciplined(env, s) && PoliteInstr(CompleteCheckin(desk))
    ensures Disciplined(env, AtDesk(env, s, desk).state)
    decreases |env.inbound| - s.pos
  {
    if s.pos < |env.inbound| {
      var m := env.inbound[s.pos];
      var s1 := s.(pos := s.pos + 1);
      if m.GetNotification() != CheckInComplete {
        if DeskAnswer(desk, m).None? {
          DeskIsDisciplined(env, s1, desk);
        } else {
          var o := Operate(env, s1, s1.Replied(Reply(DeskAnswer(desk, m).value, s.pos, m.correlationId)));
          if o.ok {
            DeskIsDisciplined(env, o.state, desk);
          }
        }
      }
    }
  }

  /** One more reply, to the message consumed last. */
  lemma ReplyIsDisciplined(env: Env, s: State, after: State)
    requires Disciplined(env, s) && s.pos <= after.pos <= |env.inbound|
    requires after.replies != s.replies ==>
               && 0 < after.pos && s.pos < after.pos
               && exists r :: after.replies == s.replies + [r] && r.at == after.pos - 1
                              && env.inbound[r.at].payload == SystemRequests(RequestFor(r.response))
                              && r.correlationId == env.inbound[r.at].correlationId
    ensures Disciplined(env, after)
  {
  }

  lemma PerformIsDisciplined(env: Env, s: State, i: Instr)
    requires s.pos <= |env.inbound| && Disciplined(env, s) && PoliteInstr(i)
    ensures Disciplined(env, Perform(env, s, i).state)
  {
    if i.CompleteCheckin? {
      DeskIsDisciplined(env, s, i.desk);
    } else {
      ReplyIsDisciplined(env, s, Perform(env, s, i).state);
    }
  }

  lemma {:induction false} RunIsDisciplined(env: Env, s: State, script: seq<Instr>)
    requires s.pos <= |env.inbound| && Disciplined(env, s) && Polite(script)
    ensures Disciplined(env, Run(env, s, script).state)
    decreases |script|
  {
    if script != [] {
      PerformIsDisciplined(env, s, script[0]);
      var o := Perform(env, s, script[0]);
      if o.ok {
        RunIsDisciplined(env, o.state, script[1..]);
      }
    }
  }

  // ---------- 5. when a run succeeds ----------

  /** A strictly increasing choice of messages, one per want, from position `from` on. */
  ghost predicate Embeds(at: seq<nat>, wants: seq<Want>, inbound: seq<ChatMessage>, from: nat) {
    && |at| == |wants|
    && (forall k :: 0 <= k < |at| ==> from <= at[k] < |inbound| && wants[k].Matches(inbound[at[k]]))
    && (forall j, k :: 0 <= j < k < |at| ==> at[j] < at[k])
  }

  function WantsOf(i: Instr): seq<Want> {
    match i
    case Await(w, _) => [w]
    case CompleteCheckin(_) => [WantNotification(CheckInComplete)]
    case _ => []
  }

  function Wants(script: seq<Instr>): seq<Want> {
    FlatMap(script, WantsOf)
  }

  /** Open time gates and a fault-free client. */
  ghost predicate Quiet(env: Env) {
    && (forall k: nat :: !env.fails(k))
    && (forall k: nat, target: int, before: seq<int> ::
          TimeGate.Run(TimeGate.NewGate(target, before, env.phase(k)), env.waits(k, target)).waiter.Passed?)
  }

  /** The messages that satisfied the waits so far. */
  function HeardAt(log: seq<Entry>): seq<nat> {
    FlatMap(log, HeardIndex)
  }

  function HeardIndex(e: Entry): seq<nat> {
    if e.Heard? then [e.at] else []
  }

  lemma HeardGrows(log: seq<Entry>, e: Entry)
    ensures HeardAt(log + [e]) == HeardAt(log) + HeardIndex(e)
  {
    FlatMapConcat(log, [e], HeardIndex);
    FlatMapOne(e, HeardIndex);
  }

  /** Without failures the desk loop only skips to the completed check-in. */
  lemma {:induction false} QuietDesk(env: Env, s: State, desk: Desk)
    requires s.pos <= |env.inbound| && Quiet(env)
    ensures var k := FirstMatch(env.inbound, WantNotification(CheckInComplete), s.pos);
            var o := AtDesk(env, s, desk);
            && (o.ok <==> k < |env.inbound|)
            && (o.ok ==> o.state.pos == k + 1 && HeardAt(o.state.log) == HeardAt(s.log) + [k])
    decreases |env.inbound| - s.pos
  {
    if s.pos < |env.inbound| {
      var m := env.inbound[s.pos];
      var s1 := s.(pos := s.pos + 1);
      if m.GetNotification() != CheckInComplete {
        if DeskAnswer(desk, m).None? {
          QuietDesk(env, s1, desk);
        } else {
          QuietDesk(env, Operate(env, s1, s1.Replied(Reply(DeskAnswer(desk, m).value, s.pos, m.correlationId))).state, desk);
        }
      } else {
        HeardGrows(s.log, Heard(WantNotification(CheckInComplete), s.pos));
      }
    }
  }

  /** The first match for each want in turn. */
  function Greedy(inbound: seq<ChatMessage>, wants: seq<Want>, from: nat): Option<seq<nat>>
    requires from <= |inbound|
    decreases |wants|
  {
    if wants == [] then Some([])
    else
      var k := FirstMatch(inbound, wants[0], from);
      if k == |inbound| then None
      else
        var rest := Greedy(inbound, wants[1..], k + 1);
        if rest.None? then None else Some([k] + rest.value)
  }

  lemma EmbedsCons(inbound: seq<ChatMessage>, wants: seq<Want>, from: nat, k: nat, rest: seq<nat>)
    requires wants != [] && from <= k < |inbound| && wants[0].Matches(inbound[k]) && Embeds(rest, wants[1..], inbound, k + 1)
    ensures Embeds([k] + rest, wants, inbound, from)
  {
    var at := [k] + rest;
    forall i | 0 <= i < |at| ensures from <= at[i] < |inbound| && wants[i].Matches(inbound[at[i]]) {
      if i > 0 {
        assert at[i] == rest[i - 1] && wants[i] == wants[1..][i - 1];
      }
    }
  }

  lemma {:induction false} GreedyEmbeds(inbound: seq<ChatMessage>, wants: seq<Want>, from: nat)
    requires from <= |inbound|
    ensures var g := Greedy(inbound, wants, from); g.Some? ==> Embeds(g.value, wants, inbound, from)
    decreases |wants|
  {
    if wants != [] {
      var k := FirstMatch(inbound, wants[0], from);
      if k < |inbound| {
        GreedyEmbeds(inbound, wants[1..], k + 1);
        var rest := Greedy(inbound, wants[1..], k + 1);
        if rest.Some? {
          EmbedsCons(inbound, wants, from, k, rest.value);
        }
      }
    }
  }

  /** Taking the first match loses nothing and is pointwise the earliest choice. */
  lemma {:induction false} GreedyIsEarliest(inbound: seq<ChatMessage>, wants: seq<Want>, from: nat, at: seq<nat>)
    requires from <= |inbound| && Embeds(at, wants, inbound, from)
    ensures var g := Greedy(inbound, wants, from);
            g.Some? && |g.value| == |at| && forall i :: 0 <= i < |at| ==> g.value[i] <= at[i]
    decreases |wants|
  {
    if wants != [] {
      var k := FirstMatch(inbound, wants[0], from);
      assert wants[0].Matches(inbound[at[0]]);
      var rest := at[1..];
      forall i | 0 <= i < |rest| ensures k + 1 <= rest[i] < |inbound| && wants[1..][i].Matches(inbound[rest[i]]) {
        assert rest[i] == at[i + 1] && at[0] < at[i + 1];
      }
      GreedyIsEarliest(inbound, wants[1..], k + 1, rest);
      forall i | 0 < i < |at| ensures Greedy(inbound, wants, from).value[i] <= at[i] {
        assert at[i] == rest[i - 1];
      }
    }
  }

  lemma QuietAwait(env: Env, s: State, want: Want, answer: Option<Response>)
    requires s.pos <= |env.inbound| && Quiet(env)
    ensures var o := Perform(env, s, Await(want, answer));
            var k := FirstMatch(env.inbound, want, s.pos);
            && (o.ok <==> k < |env.inbound|)
            && (o.ok ==> o.state.pos == k + 1 && HeardAt(o.state.log) == HeardAt(s.log) + [k])
  {
    var k := FirstMatch(env.inbound, want, s.pos);
    if k < |env.inbound| {
      HeardGrows(s.log, Heard(want, k));
      if answer.Some? {
        HeardGrows(s.log + [Heard(want, k)], Answered(answer.value));
      }
    }
  }

  /** At most one want, served by its first match. */
  ghost predicate Serves(inbound: seq<ChatMessage>, wants: seq<Want>, s: State, o: Outcome)
    requires s.pos <= |inbound|
  {
    |wants| <= 1 &&
    if wants == [] then o.ok && o.state.pos == s.pos && HeardAt(o.state.log) == HeardAt(s.log)
    else
      var k := FirstMatch(inbound, wants[0], s.pos);
      && (o.ok <==> k < |inbound|)
      && (o.ok ==> o.state.pos == k + 1 && HeardAt(o.state.log) == HeardAt(s.log) + [k])
  }

  lemma QuietPerform(env: Env, s: State, i: Instr)
    requires s.pos <= |env.inbound| && Quiet(env)
    ensures Serves(env.inbound, WantsOf(i), s, Perform(env, s, i))
  {
    match i
    case CompleteCheckin(desk) => QuietDesk(env, s, desk);
    case Await(want, answer) => QuietAwait(env, s, want, answer);
    case HoldUntil(target) =>
      var before := Clock(env, s);
      var g := TimeGate.Run(TimeGate.NewGate(target, before, env.phase(s.ops)), env.waits(s.ops, target));
      assert g.waiter.Passed?;
      HeardGrows(s.log, Held(target, |g.accepted|));
    case Send(action) => HeardGrows(s.log, Sent(action, |Clock(env, s)|));
  }

  lemma GreedyCons(inbound: seq<ChatMessage>, want: Want, wants: seq<Want>, from: nat)
    requires from <= |inbound|
    ensures var k := FirstMatch(inbound, want, from);
            var g := Greedy(inbound, [want] + wants, from);
            if k == |inbound| then g.None?
            else
              var rest := Greedy(inbound, wants, k + 1);
              (g.Some? <==> rest.Some?) && (g.Some? ==> g.value == [k] + rest.value)
  {
    assert ([want] + wants)[0] == want && ([want] + wants)[1..] == wants;
  }

  /** Where a choice of messages ends. */
  function End(at: seq<nat>, from: nat): nat {
    if at == [] then from else at[|at| - 1] + 1
  }

  /** A run from `s` heard exactly the messages of the greedy choice for its wants, and stopped behind them. */
  ghost predicate Agree(s: State, o: Outcome, g: Option<seq<nat>>) {
    && (o.ok <==> g.Some?)
    && (o.ok ==> HeardAt(o.state.log) == HeardAt(s.log) + g.value && o.state.pos == End(g.value, s.pos))
  }

  lemma AgreeCons(s: State, k: nat, middle: State, o: Outcome, rest: Option<seq<nat>>, g: Option<seq<nat>>)
    requires middle.pos == k + 1 && HeardAt(middle.log) == HeardAt(s.log) + [k]
    requires Agree(middle, o, rest)
    requires (g.Some? <==> rest.Some?) && (g.Some? ==> g.value == [k] + rest.value)
    ensures Agree(s, o, g)
  {
    if o.ok {
      assert (HeardAt(s.log) + [k]) + rest.value == HeardAt(s.log) + ([k] + rest.value);
    }
  }

  /** One instruction in front of a run that agrees. */
  lemma GreedyFirst(inbound: seq<ChatMessage>, s: State, wants: seq<Want>, p: Outcome, rest: seq<Want>, o: Outcome)
    requires s.pos <= |inbound| && p.state.pos <= |inbound| && Serves(inbound, wants, s, p)
    requires if p.ok then Agree(p.state, o, Greedy(inbound, rest, p.state.pos)) else !o.ok
    ensures Agree(s, o, Greedy(inbound, wants + rest, s.pos))
  {
    if wants == [] {
      assert wants + rest == rest;
    } else {
      assert wants == [wants[0]];
      GreedyOne(inbound, s, wants[0], p, rest, o);
    }
  }

  lemma GreedyOne(inbound: seq<ChatMessage>, s: State, want: Want, p: Outcome, rest: seq<Want>, o: Outcome)
    requires s.pos <= |inbound| && p.state.pos <= |inbound| && Serves(inbound, [want], s, p)
    requires if p.ok then Agree(p.state, o, Greedy(inbound, rest, p.state.pos)) else !o.ok
    ensures Agree(s, o, Greedy(inbound, [want] + rest, s.pos))
  {
    GreedyCons(inbound, want, rest, s.pos);
    if p.ok {
      AgreeCons(s, p.state.pos - 1, p.state, o, Greedy(inbound, rest, p.state.pos), Greedy(inbound, [want] + rest, s.pos));
    }
  }

  lemma {:induction false} RunIsGreedy(env: Env, s: State, script: seq<Instr>)
    requires s.pos <= |env.inbound| && Quiet(env)
    ensures Agree(s, Run(env, s, script), Greedy(env.inbound, Wants(script), s.pos))
    decreases |script|
  {
    if script != [] {
      var o := Perform(env, s, script[0]);
      if o.ok {
        RunIsGreedy(env, o.state, script[1..]);
      }
      QuietPerform(env, s, script[0]);
      GreedyFirst(env.inbound, s, WantsOf(script[0]), o, Wants(script[1..]), Run(env, s, script));
    }
  }

  /** `at` is a choice of messages for the wants, and pointwise no later than any other. */
  ghost predicate Earliest(at: seq<nat>, wants: seq<Want>, inbound: seq<ChatMessage>) {
    && Embeds(at, wants, inbound, 0)
    && forall other :: Embeds(other, wants, inbound, 0) ==> forall i :: 0 <= i < |at| ==> at[i] <= other[i]
  }

  /** Greedy skipping is complete: with open gates and a fault-free client a script runs to its end
      exactly when its wants can be embedded, in order, into the inbound messages; the messages it then
      heard are the earliest embedding, and it stopped right behind the last of them. */
  lemma RunSucceedsIff(env: Env, script: seq<Instr>)
    requires Quiet(env)
    ensures var o := Run(env, START, script);
            && (o.ok <==> exists at :: Embeds(at, Wants(script), env.inbound, 0))
            && (o.ok ==> Earliest(HeardAt(o.state.log), Wants(script), env.inbound)
                         && o.state.pos == End(HeardAt(o.state.log), 0))
  {
    var o, g := Run(env, START, script), Greedy(env.inbound, Wants(script), 0);
    RunIsGreedy(env, START, script);
    GreedyEmbeds(env.inbound, Wants(script), 0);
    if o.ok {
      assert HeardAt(o.state.log) == g.value;
    }
    forall at | Embeds(at, Wants(script), env.inbound, 0)
      ensures o.ok && forall i :: 0 <= i < |at| ==> g.value[i] <= at[i]
    {
      GreedyIsEarliest(env.inbound, Wants(script), 0, at);
    }
  }
}
