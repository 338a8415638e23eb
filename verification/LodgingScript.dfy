/** A lodging run as a flat script of small instructions and the interpreter that
    gives the script its meaning against an arbitrary environment: any inbound
    messages, any interleaving of the time gates, and any write failing at any point. */
module LodgingScript {
  import opened Calendar
  import opened Wrappers
  import opened LodgingMessages
  import opened LodgingPlan
  import TimeGate

  /** The check-in desk: which request gets which of the guest's papers. */
  datatype Desk = Desk(documentRequest: Request, bookingRequest: Request, documentId: string, bookingId: string)

  datatype Instr =
    | HoldUntil(target: int)
    | Await(want: Want, answer: Option<Response>)
    | CompleteCheckin(desk: Desk)
    | Send(action: GuestAction)

  /** `inbound`: the non-ack messages the client hands out before it fails for good.
      `fails(k)`: whether operation k fails, if it is a write.
      `waits(k, target)`: how time service, forwarder and waiter interleave, if it is a wait for `target`.
      `phase(k)`: where the time service stands when that wait starts.
      `meanwhile(k)`: the hour events the service accepts between operation k and the one before it. */
  datatype Env = Env(
    inbound: seq<ChatMessage>,
    fails: nat -> bool,
    waits: (nat, int) -> seq<TimeGate.Event>,
    phase: nat -> TimeGate.Phase,
    meanwhile: nat -> seq<int>)

  /** What a run did, in order. `at` is the index of the inbound message concerned,
      `seen` how many hour events were accepted when the wait ended or the write began. */
  datatype Entry =
    | Held(target: int, seen: nat)
    | Heard(want: Want, at: nat)
    | Answered(response: Response)
    | Sent(action: GuestAction, seen: nat)

  /** A reply to the inbound message `at`. */
  datatype Reply = Reply(response: Response, at: nat, correlationId: string)

  /** `pos` inbound messages consumed, `ops` time waits and writes made, `accepted` all hour events so far.
      The log leaves out the replies given in passing at the check-in desk; `replies` holds all of them. */
  datatype State = State(pos: nat, ops: nat, accepted: seq<int>, log: seq<Entry>, replies: seq<Reply>) {
    function Log(e: Entry): State {
      this.(log := log + [e])
    }

    function Replied(r: Reply): State {
      this.(replies := replies + [r])
    }
  }

  datatype Outcome = Outcome(ok: bool, state: State)

  const START := State(0, 0, [], [], [])

  // ---------- meaning of a script ----------

  /** Index of the first match at or after `from`, or the end. */
  function FirstMatch(inbound: seq<ChatMessage>, want: Want, from: nat): (k: nat)
    requires from <= |inbound|
    ensures from <= k <= |inbound|
    ensures forall i :: from <= i < k ==> !want.Matches(inbound[i])
    ensures k < |inbound| ==> want.Matches(inbound[k])
    decreases |inbound| - from
  {
    if from == |inbound| || want.Matches(inbound[from]) then from else FirstMatch(inbound, want, from + 1)
  }

  /** The hour events accepted when the next operation begins. */
  function Clock(env: Env, s: State): seq<int> {
    s.accepted + env.meanwhile(s.ops)
  }

  /** A write whose success takes the run to `done`. */
  function Operate(env: Env, s: State, done: State): Outcome {
    var ok := !env.fails(s.ops);
    Outcome(ok, (if ok then done else s).(ops := s.ops + 1, accepted := Clock(env, s)))
  }

  /** A wait for a time: it succeeds if its gate passes. */
  function Hold(env: Env, s: State, target: int): Outcome {
    var g := TimeGate.Run(TimeGate.NewGate(target, Clock(env, s), env.phase(s.ops)), env.waits(s.ops, target));
    var after := s.(ops := s.ops + 1, accepted := g.accepted);
    if g.waiter.Passed? then Outcome(true, after.Log(Held(target, |g.accepted|))) else Outcome(false, after)
  }

  function Hear(env: Env, s: State, want: Want): Outcome
    requires s.pos <= |env.inbound|
  {
    var k := FirstMatch(env.inbound, want, s.pos);
    if k == |env.inbound| then Outcome(false, s.(pos := k))
    else Outcome(true, s.(pos := k + 1).Log(Heard(want, k)))
  }

  /** The answer the desk loop gives to a message, if any. */
  function DeskAnswer(desk: Desk, m: ChatMessage): Option<Response> {
    if desk.documentRequest != NoRequest && m.GetRequest() == desk.documentRequest then
      Some(ShowDocument(desk.documentId))
    else if desk.bookingRequest != NoRequest && m.GetRequest() == desk.bookingRequest then
      Some(ShowBookingNumber(desk.bookingId))
    else
      None
  }

  function AtDesk(env: Env, s: State, desk: Desk): (o: Outcome)
    requires s.pos <= |env.inbound|
    ensures o.state.pos <= |env.inbound|
    decreases |env.inbound| - s.pos
  {
    if s.pos == |env.inbound| then Outcome(false, s)
    else
      var m := env.inbound[s.pos];
      var s1 := s.(pos := s.pos + 1);
      if m.GetNotification() == CheckInComplete then
        Outcome(true, s1.Log(Heard(WantNotification(CheckInComplete), s.pos)))
      else
        match DeskAnswer(desk, m)
        case None => AtDesk(env, s1, desk)
        case Some(response) =>
          var o := Operate(env, s1, s1.Replied(Reply(response, s.pos, m.correlationId)));
          if o.ok then AtDesk(env, o.state, desk) else o
  }

  /** Replies always answer the message consumed last. */
  function AnswerLast(env: Env, s: State, response: Response): Outcome
    requires 0 < s.pos <= |env.inbound|
  {
    var reply := Reply(response, s.pos - 1, env.inbound[s.pos - 1].correlationId);
    Operate(env, s, s.Replied(reply).Log(Answered(response)))
  }

  function Perform(env: Env, s: State, i: Instr): (o: Outcome)
    requires s.pos <= |env.inbound|
    ensures o.state.pos <= |env.inbound|
  {
    match i
    case HoldUntil(target) => Hold(env, s, target)
    case Send(action) => Operate(env, s, s.Log(Sent(action, |Clock(env, s)|)))
    case CompleteCheckin(desk) => AtDesk(env, s, desk)
    case Await(want, answer) =>
      var o := Hear(env, s, want);
      if o.ok && answer.Some? then AnswerLast(env, o.state, answer.value) else o
  }

  function Run(env: Env, s: State, script: seq<Instr>): (o: Outcome)
    requires s.pos <= |env.inbound|
    ensures o.state.pos <= |env.inbound|
    decreases |script|
  {
    if script == [] then Outcome(true, s)
    else
      var o := Perform(env, s, script[0]);
      if o.ok then Run(env, o.state, script[1..]) else o
  }

  lemma {:induction false} RunConcat(env: Env, s: State, a: seq<Instr>, b: seq<Instr>)
    requires s.pos <= |env.inbound|
    ensures Run(env, s, a + b) ==
            var o := Run(env, s, a); if o.ok then Run(env, o.state, b) else o
    decreases |a|
  {
    if a == [] {
      assert a + b == b;
    } else {
      assert (a + b)[0] == a[0] && (a + b)[1..] == a[1..] + b;
      var o := Perform(env, s, a[0]);
      if o.ok {
        RunConcat(env, o.state, a[1..], b);
      }
    }
  }

  // ---------- the script of a stay ----------

  datatype Visit = Visit(period: Period, documentId: string, bookingId: string, keyId: string)

  function Target(p: Period, step: PlanStep): int {
    AddDays(StartOfDay(p.start), step.dayOffset) + (if step.gate.notBefore.Some? then step.gate.notBefore.value else 0) * HOUR
  }

  function AwaitNotification(n: Notification): seq<Instr> {
    if n == NoNotification then [] else [Await(WantNotification(n), None)]
  }

  function AwaitRequest(r: Request, answer: Option<Response>): seq<Instr> {
    if r == NoRequest then [] else [Await(WantRequest(r), answer)]
  }

  /** Time gate, then notification gate, then request gate. */
  function GateScript(p: Period, step: PlanStep, answer: Option<Response>): seq<Instr> {
    (if step.gate.notBefore.Some? then [HoldUntil(Target(p, step))] else [])
    + AwaitNotification(step.gate.notification)
    + AwaitRequest(step.gate.request, answer)
  }

  function StepScript(p: Period, step: PlanStep, answer: Option<Response>): seq<Instr> {
    GateScript(p, step, answer) + [Send(step.action)] + AwaitNotification(step.gate.waitFor)
  }

  function PlannedStep(p: Period): PlanStep -> seq<Instr> {
    step => StepScript(p, step, None)
  }

  function PlanScript(p: Period, plan: seq<PlanStep>): seq<Instr> {
    FlatMap(plan, PlannedStep(p))
  }

  /** At checkout a request for the cottage key is answered with the key. */
  function CheckoutAnswer(v: Visit, step: PlanStep): Option<Response> {
    if step.gate.request == RequestCottageKey then Some(ReturnKey(v.keyId)) else None
  }

  function CheckoutStep(v: Visit): PlanStep -> seq<Instr> {
    step => StepScript(v.period, step, CheckoutAnswer(v, step))
  }

  function CheckoutScript(v: Visit, plan: seq<PlanStep>): seq<Instr> {
    FlatMap(plan, CheckoutStep(v))
  }

  function DeskOf(flow: LodgingFlow, v: Visit): Desk {
    Desk(flow.documentRequest, flow.bookingRequest, v.documentId, v.bookingId)
  }

  function KeyScript(v: Visit): seq<Instr> {
    [Await(WantRequest(GiveCottageKey), Some(ReceiveKey(v.keyId))), Send(TakeCottageKey)]
  }

  function CheckInScript(flow: LodgingFlow, v: Visit): seq<Instr> {
    PlanScript(v.period, Expand(0, flow.showUp)) + [CompleteCheckin(DeskOf(flow, v))] + KeyScript(v)
  }

  function StayScript(flow: LodgingFlow, v: Visit): seq<Instr> {
    CheckInScript(flow, v)
    + PlanScript(v.period, StayPlan(flow, v.period))
    + CheckoutScript(v, Expand(CheckoutDayOffset(v.period), flow.checkout))
  }
}
