/** The lodging step as the program runs it: loops over plans and over inbound messages.
    Each method is proved to do exactly what its piece of script means. */
module LodgingStep {
  import opened Calendar
  import opened Wrappers
  import opened LodgingMessages
  import opened LodgingPlan
  import opened LodgingScript
  import TimeGate

  class RunLodging {
    const env: Env
    const flow: LodgingFlow
    var state: State

    ghost predicate Valid()
      reads this
    {
      state.pos <= |env.inbound|
    }

    constructor (env: Env, flow: LodgingFlow)
      ensures Valid() && state == START && this.env == env && this.flow == flow
    {
      this.env, this.flow, this.state := env, flow, START;
    }

    /** A write: fails when the environment says so, else takes effect. */
    method Try(done: State) returns (ok: bool)
      modifies this`state
      ensures Outcome(ok, state) == Operate(env, old(state), done)
    {
      ok := !env.fails(state.ops);
      state := (if ok then done else state).(ops := state.ops + 1, accepted := Clock(env, state));
    }

    method SendAction(action: GuestAction) returns (ok: bool)
      requires Valid()
      modifies this`state
      ensures Valid() && Outcome(ok, state) == Run(env, old(state), [Send(action)])
    {
      ok := Try(state.Log(Sent(action, |Clock(env, state)|)));
    }

    /** Looks at the clock once, then selects. The service and the forwarder move in between, as scheduled. */
    method WaitUntil(target: int) returns (ok: bool)
      requires Valid()
      modifies this`state
      ensures Valid() && Outcome(ok, state) == Run(env, old(state), [HoldUntil(target)])
    {
      var before, schedule := Clock(env, state), env.waits(state.ops, target);
      var start := TimeGate.NewGate(target, before, env.phase(state.ops));
      var gate := start;
      for i := 0 to |schedule|
        invariant gate == TimeGate.Run(start, schedule[..i]) && gate.target == target
        invariant state == old(state)
      {
        TimeGate.RunSnoc(start, schedule[..i], schedule[i]);
        assert schedule[..i + 1] == schedule[..i] + [schedule[i]];
        if TimeGate.Enabled(gate, schedule[i]) {
          gate := MoveGate(gate, schedule[i]);
        }
      }
      assert schedule[..|schedule|] == schedule;
      ok := gate.waiter.Passed?;
      state := state.(ops := state.ops + 1, accepted := gate.accepted);
      if ok {
        state := state.Log(Held(target, |gate.accepted|));
      }
    }

    /** One step of a wait: the waiter's own steps spelt out. */
    method MoveGate(gate: TimeGate.Gate, e: TimeGate.Event) returns (moved: TimeGate.Gate)
      requires TimeGate.Enabled(gate, e)
      ensures moved == TimeGate.Step(gate, e) && moved.target == gate.target
    {
      match e
      case CheckCurrent =>
        var reached := gate.current.Some? && gate.current.value >= gate.target;
        moved := gate.(waiter := if reached then TimeGate.Passed else TimeGate.Selecting);
      case Receive =>
        var t := gate.notifications.value;
        moved := gate.(notifications := None);
        if SameDay(t, gate.target) && t >= gate.target {
          moved := moved.(waiter := TimeGate.Passed);
        }
      case Cancel =>
        moved := gate.(waiter := TimeGate.Failed);
      case _ =>
        moved := TimeGate.Step(gate, e);
    }

    method ReplyTo(request: ChatMessage, response: Response) returns (ok: bool)
      requires Valid() && 0 < state.pos && request == env.inbound[state.pos - 1]
      modifies this`state
      ensures Valid() && Outcome(ok, state) == AnswerLast(env, old(state), response)
    {
      ok := Try(state.Replied(Reply(response, state.pos - 1, request.correlationId)).Log(Answered(response)));
    }

    /** Hands out the next notification or request and drops everything else on the way. */
    method WaitForNextSystemMessage() returns (msg: Option<ChatMessage>)
      requires Valid()
      modifies this`state
      ensures Valid() && state == old(state).(pos := state.pos) && old(state).pos <= state.pos
      ensures msg.Some? ==> old(state).pos < state.pos && msg.value == env.inbound[state.pos - 1] && msg.value.IsSystem()
      ensures msg.None? ==> state.pos == |env.inbound|
      ensures forall i :: old(state).pos <= i < (if msg.Some? then state.pos - 1 else state.pos) ==> !env.inbound[i].IsSystem()
    {
      while state.pos < |env.inbound|
        invariant Valid() && state == old(state).(pos := state.pos) && old(state).pos <= state.pos
        invariant forall i :: old(state).pos <= i < state.pos ==> !env.inbound[i].IsSystem()
        decreases |env.inbound| - state.pos
      {
        var m := env.inbound[state.pos];
        state := state.(pos := state.pos + 1);
        if m.IsSystem() {
          return Some(m);
        }
      }
      msg := None;
    }

    /** Skips messages until one matches. */
    method Expect(want: Want) returns (msg: Option<ChatMessage>)
      requires Valid() && want.Specified()
      modifies this`state
      ensures Valid() && Outcome(msg.Some?, state) == Run(env, old(state), [Await(want, None)])
      ensures Outcome(msg.Some?, state) == Hear(env, old(state), want)
      ensures msg.Some? ==> 0 < state.pos && msg.value == env.inbound[state.pos - 1]
    {
      while true
        invariant Valid() && state == old(state).(pos := state.pos) && old(state).pos <= state.pos
        invariant forall i :: old(state).pos <= i < state.pos ==> !want.Matches(env.inbound[i])
        decreases |env.inbound| - state.pos
      {
        msg := WaitForNextSystemMessage();
        if msg.None? {
          return;
        }
        if want.Matches(msg.value) {
          state := state.Log(Heard(want, state.pos - 1));
          return;
        }
      }
    }

    method FinishCheckin(v: Visit) returns (ok: bool)
      requires Valid()
      modifies this`state
      ensures Valid() && Outcome(ok, state) == Run(env, old(state), [CompleteCheckin(DeskOf(flow, v))])
    {
      var desk := DeskOf(flow, v);
      while true
        invariant Valid()
        invariant AtDesk(env, state, desk) == AtDesk(env, old(state), desk)
        decreases |env.inbound| - state.pos
      {
        label before:
        var msg := WaitForNextSystemMessage();
        SkipAtDesk(env, old@before(state), desk, if msg.Some? then state.pos - 1 else state.pos);
        if msg.None? {
          return false;
        }
        var m := msg.value;
        if m.GetNotification() == BookingChecking {
          continue;
        } else if m.GetNotification() == CheckInComplete {
          state := state.Log(Heard(WantNotification(CheckInComplete), state.pos - 1));
          return true;
        } else if flow.documentRequest != NoRequest && m.GetRequest() == flow.documentRequest {
          var sent := Try(state.Replied(Reply(ShowDocument(v.documentId), state.pos - 1, m.correlationId)));
          if !sent {
            return false;
          }
        } else if flow.bookingRequest != NoRequest && m.GetRequest() == flow.bookingRequest {
          var sent := Try(state.Replied(Reply(ShowBookingNumber(v.bookingId), state.pos - 1, m.correlationId)));
          if !sent {
            return false;
          }
        }
      }
    }

    /** Time, notification and request gates of a planned step, in that order. */
    method WaitForActionGate(v: Visit, step: PlanStep) returns (ok: bool, msg: Option<ChatMessage>)
      requires Valid()
      modifies this`state
      ensures Valid() && Outcome(ok, state) == Run(env, old(state), GateScript(v.period, step, None))
      ensures ok && step.gate.request != NoRequest ==>
                msg.Some? && 0 < state.pos && msg.value == env.inbound[state.pos - 1]
    {
      ghost var hold := if step.gate.notBefore.Some? then [HoldUntil(Target(v.period, step))] else [];
      ghost var note := AwaitNotification(step.gate.notification);
      ghost var ask := AwaitRequest(step.gate.request, None);
      assert GateScript(v.period, step, None) == hold + note + ask == hold + (note + ask);
      RunConcat(env, state, hold, note + ask);
      msg := None;
      if step.gate.notBefore.Some? {
        var day := AddDays(StartOfDay(v.period.start), step.dayOffset);
        ok := WaitUntil(day + step.gate.notBefore.value * HOUR);
        if !ok {
          return;
        }
      }
      RunConcat(env, state, note, ask);
      if step.gate.notification != NoNotification {
        var heard := Expect(WantNotification(step.gate.notification));
        if heard.None? {
          return false, None;
        }
      }
      if step.gate.request != NoRequest {
        msg := Expect(WantRequest(step.gate.request));
        return msg.Some?, msg;
      }
      ok := true;
    }

    method SendAndConfirm(step: PlanStep) returns (ok: bool)
      requires Valid()
      modifies this`state
      ensures Valid() && Outcome(ok, state) == Run(env, old(state), [Send(step.action)] + AwaitNotification(step.gate.waitFor))
    {
      RunConcat(env, state, [Send(step.action)], AwaitNotification(step.gate.waitFor));
      ok := SendAction(step.action);
      if ok && step.gate.waitFor != NoNotification {
        var heard := Expect(WantNotification(step.gate.waitFor));
        ok := heard.Some?;
      }
    }

    method ExecuteActionPlan(v: Visit, plan: seq<PlanStep>) returns (ok: bool)
      requires Valid()
      modifies this`state
      ensures Valid() && Outcome(ok, state) == Run(env, old(state), PlanScript(v.period, plan))
    {
      for i := 0 to |plan|
        invariant Valid()
        invariant Run(env, state, PlanScript(v.period, plan[i..])) == Run(env, old(state), PlanScript(v.period, plan))
      {
        FlatMapTail(plan, PlannedStep(v.period), i);
        SplitStep(env, state, v.period, plan[i], None, PlanScript(v.period, plan[i + 1..]));
        var gated, _ := WaitForActionGate(v, plan[i]);
        if !gated {
          return false;
        }
        var sent := SendAndConfirm(plan[i]);
        if !sent {
          return false;
        }
      }
      ok := true;
    }

    method ExecuteCheckoutPlan(v: Visit) returns (ok: bool)
      requires Valid()
      modifies this`state
      ensures Valid()
      ensures Outcome(ok, state) == Run(env, old(state), CheckoutScript(v, Expand(CheckoutDayOffset(v.period), flow.checkout)))
    {
      var plan := ExpandPlan(CheckoutDayOffset(v.period), flow.checkout);
      for i := 0 to |plan|
        invariant Valid()
        invariant Run(env, state, CheckoutScript(v, plan[i..])) == Run(env, old(state), CheckoutScript(v, plan))
      {
        FlatMapTail(plan, CheckoutStep(v), i);
        SplitStep(env, state, v.period, plan[i], CheckoutAnswer(v, plan[i]), CheckoutScript(v, plan[i + 1..]));
        AnswerAfterGate(env, state, v.period, plan[i], CheckoutAnswer(v, plan[i]));
        var gated, msg := WaitForActionGate(v, plan[i]);
        if !gated {
          return false;
        }
        if plan[i].gate.request == RequestCottageKey {
          var replied := ReplyTo(msg.value, ReturnKey(v.keyId));
          if !replied {
            return false;
          }
        }
        var sent := SendAndConfirm(plan[i]);
        if !sent {
          return false;
        }
      }
      ok := true;
    }

    /** From showing up to the key in hand. */
    method CheckIn(v: Visit) returns (ok: bool)
      requires Valid()
      modifies this`state
      ensures Valid() && Outcome(ok, state) == Run(env, old(state), CheckInScript(flow, v))
    {
      ghost var showUp := PlanScript(v.period, Expand(0, flow.showUp));
      ghost var desk := [CompleteCheckin(DeskOf(flow, v))];
      assert CheckInScript(flow, v) == showUp + (desk + KeyScript(v));
      RunConcat(env, state, showUp, desk + KeyScript(v));
      var plan := ExpandPlan(0, flow.showUp);
      ok := ExecuteActionPlan(v, plan);
      if !ok {
        return;
      }
      RunConcat(env, state, desk, KeyScript(v));
      ok := FinishCheckin(v);
      if ok {
        ok := ReceiveCottageKey(v);
      }
    }

    /** The whole stay, from showing up to the returned key. */
    method Execute(v: Visit) returns (ok: bool)
      requires Valid()
      modifies this`state
      ensures Valid() && Outcome(ok, state) == Run(env, old(state), StayScript(flow, v))
    {
      ghost var stay := PlanScript(v.period, StayPlan(flow, v.period));
      ghost var leave := CheckoutScript(v, Expand(CheckoutDayOffset(v.period), flow.checkout));
      assert StayScript(flow, v) == CheckInScript(flow, v) + (stay + leave);
      RunConcat(env, state, CheckInScript(flow, v), stay + leave);
      ok := CheckIn(v);
      if !ok {
        return;
      }
      RunConcat(env, state, stay, leave);
      var plan := BuildStayActionPlan(flow, v.period);
      ok := ExecuteActionPlan(v, plan);
      if ok {
        ok := ExecuteCheckoutPlan(v);
      }
    }

    method ReceiveCottageKey(v: Visit) returns (ok: bool)
      requires Valid()
      modifies this`state
      ensures Valid() && Outcome(ok, state) == Run(env, old(state), KeyScript(v))
    {
      RunConcat(env, state, [KeyScript(v)[0]], [Send(TakeCottageKey)]);
      assert KeyScript(v) == [KeyScript(v)[0]] + [Send(TakeCottageKey)];
      var msg := Expect(WantRequest(GiveCottageKey));
      if msg.None? {
        return false;
      }
      ok := ReplyTo(msg.value, ReceiveKey(v.keyId));
      if ok {
        ok := SendAction(TakeCottageKey);
      }
    }
  }

  // ---------- helper lemmas ----------

  /** The desk loop passes over messages that are not system messages. */
  lemma {:induction false} SkipAtDesk(env: Env, s: State, desk: Desk, upTo: nat)
    requires s.pos <= upTo <= |env.inbound|
    requires forall i :: s.pos <= i < upTo ==> !env.inbound[i].IsSystem()
    ensures AtDesk(env, s, desk) == AtDesk(env, s.(pos := upTo), desk)
    decreases upTo - s.pos
  {
    if s.pos < upTo {
      assert !env.inbound[s.pos].IsSystem();
      SkipAtDesk(env, s.(pos := s.pos + 1), desk, upTo);
    }
  }

  lemma SplitStep(env: Env, s: State, p: Period, step: PlanStep, answer: Option<Response>, rest: seq<Instr>)
    requires s.pos <= |env.inbound|
    ensures var send := [Send(step.action)] + AwaitNotification(step.gate.waitFor);
            Run(env, s, StepScript(p, step, answer) + rest) ==
            var gate := Run(env, s, GateScript(p, step, answer));
            if !gate.ok then gate else
              var sent := Run(env, gate.state, send);
              if !sent.ok then sent else Run(env, sent.state, rest)
  {
    var gate, send := GateScript(p, step, answer), [Send(step.action)] + AwaitNotification(step.gate.waitFor);
    assert StepScript(p, step, answer) + rest == gate + (send + rest);
    RunConcat(env, s, gate, send + rest);
    var o := Run(env, s, gate);
    if o.ok {
      RunConcat(env, o.state, send, rest);
    }
  }

  /** Answering inside the gate is the same as passing the gate and then replying. */
  lemma AnswerAfterGate(env: Env, s: State, p: Period, step: PlanStep, answer: Option<Response>)
    requires s.pos <= |env.inbound|
    requires answer.Some? ==> step.gate.request != NoRequest
    ensures var gate := Run(env, s, GateScript(p, step, None));
            && (gate.ok && answer.Some? ==> 0 < gate.state.pos)
            && Run(env, s, GateScript(p, step, answer)) ==
               if gate.ok && answer.Some? then AnswerLast(env, gate.state, answer.value) else gate
  {
    if answer.Some? {
      var before := (if step.gate.notBefore.Some? then [HoldUntil(Target(p, step))] else [])
      + AwaitNotification(step.gate.notification);
      RunConcat(env, s, before, AwaitRequest(step.gate.request, None));
      RunConcat(env, s, before, AwaitRequest(step.gate.request, answer));
    }
  }
}
