/** The default flow: its dialogue, its schedule, its actions and its replies, for a stay of any length. */
module LodgingDefault {
  import opened Calendar
  import opened Wrappers
  import opened LodgingMessages
  import opened LodgingPlan
  import opened LodgingScript
  import opened LodgingTheorems

  function HoldsOf(i: Instr): seq<int> {
    if i.HoldUntil? then [i.target] else []
  }

  function ActionsOf(i: Instr): seq<GuestAction> {
    if i.Send? then [i.action] else []
  }

  function AnswersOf(i: Instr): seq<Response> {
    if i.Await? && i.answer.Some? && AboutKey(i.answer.value) then [i.answer.value] else []
  }

  // ---------- projecting a script onto its plan ----------

  function HoldPart<B>(p: Period, step: PlanStep, f: Instr -> seq<B>): seq<B> {
    if step.gate.notBefore.Some? then f(HoldUntil(Target(p, step))) else []
  }

  function NotePart<B>(n: Notification, f: Instr -> seq<B>): seq<B> {
    if n == NoNotification then [] else f(Await(WantNotification(n), None))
  }

  function AskPart<B>(r: Request, answer: Option<Response>, f: Instr -> seq<B>): seq<B> {
    if r == NoRequest then [] else f(Await(WantRequest(r), answer))
  }

  function StepPart<B>(p: Period, step: PlanStep, answer: Option<Response>, f: Instr -> seq<B>): seq<B> {
    HoldPart(p, step, f) + NotePart(step.gate.notification, f) + AskPart(step.gate.request, answer, f)
    + f(Send(step.action)) + NotePart(step.gate.waitFor, f)
  }

  lemma StepProjects<B>(p: Period, step: PlanStep, answer: Option<Response>, f: Instr -> seq<B>)
    ensures FlatMap(StepScript(p, step, answer), f) == StepPart(p, step, answer, f)
  {
    var hold := if step.gate.notBefore.Some? then [HoldUntil(Target(p, step))] else [];
    var note, ask := AwaitNotification(step.gate.notification), AwaitRequest(step.gate.request, answer);
    var send, wait := [Send(step.action)], AwaitNotification(step.gate.waitFor);
    FlatMapConcat(hold, note, f);
    FlatMapConcat(hold + note, ask, f);
    FlatMapConcat(hold + note + ask, send, f);
    FlatMapConcat(hold + note + ask + send, wait, f);
    FlatMapOne(HoldUntil(Target(p, step)), f);
    FlatMapOne(Await(WantNotification(step.gate.notification), None), f);
    FlatMapOne(Await(WantRequest(step.gate.request), answer), f);
    FlatMapOne(Send(step.action), f);
    FlatMapOne(Await(WantNotification(step.gate.waitFor), None), f);
  }

  lemma PlanProjects<B>(p: Period, plan: seq<PlanStep>, f: Instr -> seq<B>, g: PlanStep -> seq<B>)
    requires forall step :: StepPart(p, step, None, f) == g(step)
    ensures FlatMap(PlanScript(p, plan), f) == FlatMap(plan, g)
  {
    forall i | 0 <= i < |plan| ensures FlatMap(PlannedStep(p)(plan[i]), f) == g(plan[i]) {
      StepProjects(p, plan[i], None, f);
    }
    FlatMapCompose(plan, PlannedStep(p), f, g);
  }

  lemma CheckoutProjects<B>(v: Visit, plan: seq<PlanStep>, f: Instr -> seq<B>, g: PlanStep -> seq<B>)
    requires forall step :: StepPart(v.period, step, CheckoutAnswer(v, step), f) == g(step)
    ensures FlatMap(CheckoutScript(v, plan), f) == FlatMap(plan, g)
  {
    forall i | 0 <= i < |plan| ensures FlatMap(CheckoutStep(v)(plan[i]), f) == g(plan[i]) {
      StepProjects(v.period, plan[i], CheckoutAnswer(v, plan[i]), f);
    }
    FlatMapCompose(plan, CheckoutStep(v), f, g);
  }

  /** `g` and `last` say what `f` sees of a planned step and of a checkout step. */
  ghost predicate Sees<B>(v: Visit, f: Instr -> seq<B>, g: PlanStep -> seq<B>, last: PlanStep -> seq<B>) {
    && (forall step :: StepPart(v.period, step, None, f) == g(step))
    && (forall step :: StepPart(v.period, step, CheckoutAnswer(v, step), f) == last(step))
  }

  /** A whole stay seen through `f`. */
  lemma StayProjects<B>(flow: LodgingFlow, v: Visit, f: Instr -> seq<B>, g: PlanStep -> seq<B>, last: PlanStep -> seq<B>)
    requires Sees(v, f, g, last)
    ensures FlatMap(StayScript(flow, v), f) == Pieces(flow, v, f, g, last)
  {
    var showUp, desk, key := PlanScript(v.period, Expand(0, flow.showUp)), [CompleteCheckin(DeskOf(flow, v))], KeyScript(v);
    var stay := PlanScript(v.period, StayPlan(flow, v.period));
    var leave := CheckoutScript(v, Expand(CheckoutDayOffset(v.period), flow.checkout));
    PlanProjects(v.period, Expand(0, flow.showUp), f, g);
    PlanProjects(v.period, StayPlan(flow, v.period), f, g);
    CheckoutProjects(v, Expand(CheckoutDayOffset(v.period), flow.checkout), f, last);
    FlatMapConcat(showUp, desk, f);
    FlatMapConcat(showUp + desk, key, f);
    FlatMapConcat(showUp + desk + key, stay, f);
    FlatMapConcat(showUp + desk + key + stay, leave, f);
    FlatMapOne(desk[0], f);
    KeyProjects(v, f);
  }

  /** The five pieces of a stay, each seen through `f`. */
  function Pieces<B>(flow: LodgingFlow, v: Visit, f: Instr -> seq<B>, g: PlanStep -> seq<B>, last: PlanStep -> seq<B>): seq<B> {
    FlatMap(Expand(0, flow.showUp), g)
    + f(CompleteCheckin(DeskOf(flow, v)))
    + (f(KeyScript(v)[0]) + f(Send(TakeCottageKey)))
    + FlatMap(StayPlan(flow, v.period), g)
    + FlatMap(Expand(CheckoutDayOffset(v.period), flow.checkout), last)
  }

  lemma KeyProjects<B>(v: Visit, f: Instr -> seq<B>)
    ensures FlatMap(KeyScript(v), f) == f(KeyScript(v)[0]) + f(Send(TakeCottageKey))
  {
    var key := KeyScript(v);
    FlatMapConcat([key[0]], [key[1]], f);
    assert key == [key[0]] + [key[1]];
    FlatMapOne(key[0], f);
    FlatMapOne(key[1], f);
  }

  // ---------- actions, for every flow ----------

  function PlanActions(plan: seq<PlanStep>): seq<GuestAction> {
    seq(|plan|, i requires 0 <= i < |plan| => plan[i].action)
  }

  function StepAction(s: PlanStep): seq<GuestAction> {
    [s.action]
  }

  lemma {:induction false} FlatMapActions(plan: seq<PlanStep>)
    ensures FlatMap(plan, StepAction) == PlanActions(plan)
  {
    if plan != [] {
      FlatMapActions(plan[1..]);
    }
  }

  function AllActions(flow: LodgingFlow, v: Visit): seq<GuestAction> {
    PlanActions(Expand(0, flow.showUp)) + [TakeCottageKey] + PlanActions(StayPlan(flow, v.period))
    + PlanActions(Expand(CheckoutDayOffset(v.period), flow.checkout))
  }

  lemma SeesActions(v: Visit)
    ensures Sees(v, ActionsOf, StepAction, StepAction)
  {
  }

  lemma StayActions(flow: LodgingFlow, v: Visit)
    ensures FlatMap(StayScript(flow, v), ActionsOf) == AllActions(flow, v)
  {
    assert FlatMap(StayScript(flow, v), ActionsOf) == Pieces(flow, v, ActionsOf, StepAction, StepAction) by {
      SeesActions(v);
      StayProjects(flow, v, ActionsOf, StepAction, StepAction);
    }
    assert ActionsOf(KeyScript(v)[0]) + ActionsOf(Send(TakeCottageKey)) == [TakeCottageKey];
    var showUp := FlatMap(Expand(0, flow.showUp), StepAction);
    assert showUp + ActionsOf(CompleteCheckin(DeskOf(flow, v))) == showUp;
    FlatMapActions(Expand(0, flow.showUp));
    FlatMapActions(StayPlan(flow, v.period));
    FlatMapActions(Expand(CheckoutDayOffset(v.period), flow.checkout));
  }

  function SentAction(e: Entry): seq<GuestAction> {
    if e.Sent? then [e.action] else []
  }

  function MarkAction(m: Mark): seq<GuestAction> {
    if m.MSent? then [m.action] else []
  }

  lemma FlatMapPair<A, B>(s: seq<A>, f: A -> seq<B>)
    requires 1 <= |s| <= 2
    ensures FlatMap(s, f) == f(s[0]) + (if |s| == 2 then f(s[1]) else [])
  {
    FlatMapOne(s[0], f);
    if |s| == 2 {
      FlatMapOne(s[1], f);
      FlatMapConcat([s[0]], [s[1]], f);
      assert s == [s[0]] + [s[1]];
    } else {
      assert s == [s[0]];
    }
  }

  lemma MarkedActions(script: seq<Instr>)
    ensures FlatMap(Marks(script), MarkAction) == FlatMap(script, ActionsOf)
  {
    forall k | 0 <= k < |script| ensures FlatMap(InstrMarks(script[k]), MarkAction) == ActionsOf(script[k]) {
      FlatMapPair(InstrMarks(script[k]), MarkAction);
    }
    FlatMapCompose(script, InstrMarks, MarkAction, ActionsOf);
  }

  lemma ActionsAgree(log: seq<Entry>, marks: seq<Mark>)
    requires Follows([], log, marks)
    ensures FlatMap(log, SentAction) <= FlatMap(marks, MarkAction)
    ensures |log| == |marks| ==> FlatMap(log, SentAction) == FlatMap(marks, MarkAction)
  {
    forall i | 0 <= i < |log| ensures SentAction(log[i]) == MarkAction(marks[i]) {
      assert MarkOf(log[i]) == marks[i];
    }
    FlatMapAgree(log, marks, SentAction, MarkAction);
  }

  /** In every run of every flow, failing or not, the actions sent are a prefix of show-up, key,
      stay plan and checkout plan; a run that succeeds sent all of them. */
  lemma ActionTraceRefinesPlan(env: Env, flow: LodgingFlow, v: Visit)
    ensures var o := Run(env, START, StayScript(flow, v));
            var sent := FlatMap(o.state.log, SentAction);
            sent <= AllActions(flow, v) && (o.ok ==> sent == AllActions(flow, v))
  {
    var script := StayScript(flow, v);
    RunFollowsScript(env, START, script);
    ActionsAgree(Run(env, START, script).state.log, Marks(script));
    MarkedActions(script);
    StayActions(flow, v);
  }

  // ---------- the dialogue of the default flow ----------

  function StepWants(s: PlanStep): seq<Want> {
    (if s.gate.notification == NoNotification then [] else [WantNotification(s.gate.notification)])
    + (if s.gate.request == NoRequest then [] else [WantRequest(s.gate.request)])
    + (if s.gate.waitFor == NoNotification then [] else [WantNotification(s.gate.waitFor)])
  }

  function Meals(days: nat): seq<Want> {
    if days == 0 then [] else [WantNotification(BreakfastReady), WantNotification(DinnerReady)] + Meals(days - 1)
  }

  function MiddleDays(p: Period): nat {
    if Nights(p) <= 2 then 0 else Nights(p) - 2
  }

  /** What the system must say, in this order, for the stay to complete. */
  function Dialogue(p: Period): seq<Want> {
    [WantNotification(CheckInComplete), WantRequest(GiveCottageKey), WantNotification(DinnerReady)]
    + Meals(MiddleDays(p))
    + [WantRequest(RequestCottageKey), WantNotification(CheckOutComplete)]
  }

  lemma {:induction false} RecurWants(first: int, last: int)
    ensures FlatMap(Recur(DEFAULT_FLOW, first, last), StepWants) == Meals(if last < first then 0 else last - first + 1)
    decreases last - first
  {
    if first <= last {
      var day := Expand(first, DEFAULT_FLOW.recurring);
      FlatMapConcat(day, Recur(DEFAULT_FLOW, first + 1, last), StepWants);
      FlatMap7(day, StepWants);
      RecurWants(first + 1, last);
    }
  }

  lemma StepSaysWants(p: Period, step: PlanStep, answer: Option<Response>)
    ensures StepPart(p, step, answer, WantsOf) == StepWants(step)
  {
  }

  lemma SeesWants(v: Visit)
    ensures Sees(v, WantsOf, StepWants, StepWants)
  {
    forall step ensures StepPart(v.period, step, None, WantsOf) == StepWants(step) {
      StepSaysWants(v.period, step, None);
    }
    forall step ensures StepPart(v.period, step, CheckoutAnswer(v, step), WantsOf) == StepWants(step) {
      StepSaysWants(v.period, step, CheckoutAnswer(v, step));
    }
  }

  lemma StayWants(flow: LodgingFlow, v: Visit)
    ensures FlatMap(StayScript(flow, v), WantsOf) ==
            FlatMap(Expand(0, flow.showUp), StepWants) + [WantNotification(CheckInComplete)] + [WantRequest(GiveCottageKey)]
            + FlatMap(StayPlan(flow, v.period), StepWants)
            + FlatMap(Expand(CheckoutDayOffset(v.period), flow.checkout), StepWants)
  {
    assert FlatMap(StayScript(flow, v), WantsOf) == Pieces(flow, v, WantsOf, StepWants, StepWants) by {
      SeesWants(v);
      StayProjects(flow, v, WantsOf, StepWants, StepWants);
    }
    assert WantsOf(KeyScript(v)[0]) + WantsOf(Send(TakeCottageKey)) == [WantRequest(GiveCottageKey)];
  }

  lemma TableWants(offset: int)
    ensures FlatMap(Expand(offset, DEFAULT_FLOW.showUp), StepWants) == []
    ensures FlatMap(Expand(offset, DEFAULT_FLOW.firstDay), StepWants) == [WantNotification(DinnerReady)]
    ensures FlatMap(Expand(offset, DEFAULT_FLOW.checkout), StepWants) ==
            [WantRequest(RequestCottageKey), WantNotification(CheckOutComplete)]
  {
    FlatMapPair(Expand(offset, DEFAULT_FLOW.showUp), StepWants);
    FlatMap4(Expand(offset, DEFAULT_FLOW.firstDay), StepWants);
    FlatMap4(Expand(offset, DEFAULT_FLOW.checkout), StepWants);
  }

  lemma DefaultWants(v: Visit)
    ensures Wants(StayScript(DEFAULT_FLOW, v)) == Dialogue(v.period)
  {
    StayWants(DEFAULT_FLOW, v);
    TableWants(0);
    TableWants(CheckoutDayOffset(v.period));
    FlatMapConcat(Expand(0, DEFAULT_FLOW.firstDay), Recur(DEFAULT_FLOW, 2, FullStayDays(v.period)), StepWants);
    RecurWants(2, FullStayDays(v.period));
  }

  /** With open time gates and a fault-free client, the default stay of any length succeeds exactly when
      its dialogue is a subsequence of the inbound messages, and the messages it heard are the earliest one. */
  lemma LodgingSucceedsIff(env: Env, v: Visit)
    requires Quiet(env)
    ensures var o := Run(env, START, StayScript(DEFAULT_FLOW, v));
            && (o.ok <==> exists at :: Embeds(at, Dialogue(v.period), env.inbound, 0))
            && (o.ok ==> Earliest(HeardAt(o.state.log), Dialogue(v.period), env.inbound)
                         && o.state.pos == End(HeardAt(o.state.log), 0))
  {
    DefaultWants(v);
    RunSucceedsIff(env, StayScript(DEFAULT_FLOW, v));
  }

  // ---------- the schedule of the default flow ----------

  ghost predicate Increasing(s: seq<int>) {
    forall i, j :: 0 <= i < j < |s| ==> s[i] < s[j]
  }

  function StepHolds(p: Period): PlanStep -> seq<int> {
    (s: PlanStep) => if s.gate.notBefore.Some? then [Target(p, s)] else []
  }

  function Hours(day: int, hours: seq<int>): seq<int> {
    seq(|hours|, i requires 0 <= i < |hours| => day + hours[i] * HOUR)
  }

  function Midnight(p: Period, offset: int): int {
    AddDays(StartOfDay(p.start), offset)
  }

  /** Gate times of the days first, ..., last. */
  function RecurHolds(p: Period, first: int, last: int): seq<int>
    decreases last - first
  {
    if last < first then [] else Hours(Midnight(p, first), [7, 8, 10, 11, 16, 18, 22]) + RecurHolds(p, first + 1, last)
  }

  lemma DayHolds(p: Period, offset: int)
    ensures FlatMap(Expand(offset, DEFAULT_FLOW.recurring), StepHolds(p)) == Hours(Midnight(p, offset), [7, 8, 10, 11, 16, 18, 22])
  {
    FlatMap7(Expand(offset, DEFAULT_FLOW.recurring), StepHolds(p));
  }

  lemma {:induction false} RecurSchedule(p: Period, first: int, last: int)
    ensures FlatMap(Recur(DEFAULT_FLOW, first, last), StepHolds(p)) == RecurHolds(p, first, last)
    decreases last - first
  {
    if first <= last {
      var day := Expand(first, DEFAULT_FLOW.recurring);
      FlatMapConcat(day, Recur(DEFAULT_FLOW, first + 1, last), StepHolds(p));
      DayHolds(p, first);
      RecurSchedule(p, first + 1, last);
    }
  }

  lemma SeesHolds(v: Visit)
    ensures Sees(v, HoldsOf, StepHolds(v.period), StepHolds(v.period))
  {
  }

  lemma StayHolds(flow: LodgingFlow, v: Visit)
    ensures FlatMap(StayScript(flow, v), HoldsOf) ==
            FlatMap(Expand(0, flow.showUp), StepHolds(v.period))
            + FlatMap(StayPlan(flow, v.period), StepHolds(v.period))
            + FlatMap(Expand(CheckoutDayOffset(v.period), flow.checkout), StepHolds(v.period))
  {
    assert FlatMap(StayScript(flow, v), HoldsOf) == Pieces(flow, v, HoldsOf, StepHolds(v.period), StepHolds(v.period)) by {
      SeesHolds(v);
      StayProjects(flow, v, HoldsOf, StepHolds(v.period), StepHolds(v.period));
    }
    KeyHolds(flow, v);
    var before := FlatMap(Expand(0, flow.showUp), StepHolds(v.period));
    assert before + [] + [] == before;
  }

  lemma KeyHolds(flow: LodgingFlow, v: Visit)
    ensures HoldsOf(CompleteCheckin(DeskOf(flow, v))) == []
    ensures HoldsOf(KeyScript(v)[0]) + HoldsOf(Send(TakeCottageKey)) == []
  {
  }

  lemma TableHolds(p: Period, offset: int)
    ensures FlatMap(Expand(offset, DEFAULT_FLOW.showUp), StepHolds(p)) == Hours(Midnight(p, offset), [15])
    ensures FlatMap(Expand(offset, DEFAULT_FLOW.firstDay), StepHolds(p)) == Hours(Midnight(p, offset), [16, 18, 22])
    ensures FlatMap(Expand(offset, DEFAULT_FLOW.checkout), StepHolds(p)) == Hours(Midnight(p, offset), [7, 9])
  {
    FlatMapPair(Expand(offset, DEFAULT_FLOW.showUp), StepHolds(p));
    FlatMap4(Expand(offset, DEFAULT_FLOW.firstDay), StepHolds(p));
    FlatMap4(Expand(offset, DEFAULT_FLOW.checkout), StepHolds(p));
  }

  lemma DefaultHolds(v: Visit)
    ensures FlatMap(StayScript(DEFAULT_FLOW, v), HoldsOf) ==
            Hours(Midnight(v.period, 0), [15, 16, 18, 22]) + RecurHolds(v.period, 2, FullStayDays(v.period))
            + Hours(Midnight(v.period, CheckoutDayOffset(v.period)), [7, 9])
  {
    var p := v.period;
    StayHolds(DEFAULT_FLOW, v);
    TableHolds(p, 0);
    TableHolds(p, CheckoutDayOffset(p));
    FlatMapConcat(Expand(0, DEFAULT_FLOW.firstDay), Recur(DEFAULT_FLOW, 2, FullStayDays(p)), StepHolds(p));
    RecurSchedule(p, 2, FullStayDays(p));
    FirstDayHours(Midnight(p, 0), RecurHolds(p, 2, FullStayDays(p)));
  }

  lemma FirstDayHours(day: int, rest: seq<int>)
    ensures Hours(day, [15]) + (Hours(day, [16, 18, 22]) + rest) == Hours(day, [15, 16, 18, 22]) + rest
  {
    assert Hours(day, [15]) + Hours(day, [16, 18, 22]) == Hours(day, [15, 16, 18, 22]);
  }

  ghost predicate Within(s: seq<int>, low: int, high: int) {
    forall i :: 0 <= i < |s| ==> low < s[i] < high
  }

  lemma JoinIncreasing(a: seq<int>, b: seq<int>, low: int, middle: int, high: int)
    requires Increasing(a) && Within(a, low, middle) && Increasing(b) && Within(b, middle, high) && low <= middle <= high
    ensures Increasing(a + b) && Within(a + b, low, high)
  {
  }

  lemma HoursIncrease(day: int, hours: seq<int>)
    requires Increasing(hours) && Within(hours, 0, 24)
    ensures Increasing(Hours(day, hours)) && Within(Hours(day, hours), day, day + DAY)
  {
  }

  lemma {:induction false} RecurIncreases(p: Period, first: int, last: int)
    requires first <= last + 1
    ensures Increasing(RecurHolds(p, first, last)) && Within(RecurHolds(p, first, last), Midnight(p, first), Midnight(p, last + 1))
    decreases last - first
  {
    if first <= last {
      var hours := [7, 8, 10, 11, 16, 18, 22];
      HoursIncrease(Midnight(p, first), hours);
      RecurIncreases(p, first + 1, last);
      JoinIncreasing(Hours(Midnight(p, first), hours), RecurHolds(p, first + 1, last),
                     Midnight(p, first), Midnight(p, first + 1), Midnight(p, last + 1));
    }
  }

  /** Gate times over check-in, stay and checkout strictly increase exactly when the stay has a night. */
  lemma ScheduleOrder(v: Visit)
    ensures Increasing(FlatMap(StayScript(DEFAULT_FLOW, v), HoldsOf)) <==> Nights(v.period) >= 1
  {
    var p := v.period;
    var out := CheckoutDayOffset(p);
    var first, middle, last := Hours(Midnight(p, 0), [15, 16, 18, 22]), RecurHolds(p, 2, FullStayDays(p)), Hours(Midnight(p, out), [7, 9]);
    DefaultHolds(v);
    if Nights(p) < 1 {
      assert (first + middle + last)[3] == first[3] > last[0] == (first + middle + last)[4];
    } else {
      HoursIncrease(Midnight(p, 0), [15, 16, 18, 22]);
      HoursIncrease(Midnight(p, out), [7, 9]);
      if middle != [] {
        RecurIncreases(p, 2, FullStayDays(p));
      }
      assert Within(middle, Midnight(p, 1), Midnight(p, out));
      JoinIncreasing(first, middle, Midnight(p, 0), Midnight(p, 1), Midnight(p, out));
      JoinIncreasing(first + middle, last, Midnight(p, 0), Midnight(p, out), Midnight(p, out + 1));
    }
  }

  // ---------- sleeping and waking ----------

  function Rest(s: PlanStep): seq<GuestAction> {
    if s.action in {GoToSleep, Wakeup} then [s.action] else []
  }

  function NightsAwake(n: nat): seq<GuestAction> {
    if n == 0 then [] else [Wakeup, GoToSleep] + NightsAwake(n - 1)
  }

  lemma {:induction false} RecurRest(first: int, last: int)
    ensures FlatMap(Recur(DEFAULT_FLOW, first, last), Rest) == NightsAwake(if last < first then 0 else last - first + 1)
    decreases last - first
  {
    if first <= last {
      var day := Expand(first, DEFAULT_FLOW.recurring);
      FlatMapConcat(day, Recur(DEFAULT_FLOW, first + 1, last), Rest);
      FlatMap7(day, Rest);
      RecurRest(first + 1, last);
    }
  }

  /** Sleep and wake-up alternate over stay and checkout: asleep first, awake at the end. */
  lemma SleepAlternates(p: Period)
    ensures FlatMap(StayPlan(DEFAULT_FLOW, p) + Expand(CheckoutDayOffset(p), DEFAULT_FLOW.checkout), Rest) ==
            [GoToSleep] + NightsAwake(MiddleDays(p)) + [Wakeup]
  {
    var first, leave := Expand(0, DEFAULT_FLOW.firstDay), Expand(CheckoutDayOffset(p), DEFAULT_FLOW.checkout);
    FlatMapConcat(StayPlan(DEFAULT_FLOW, p), leave, Rest);
    FlatMapConcat(first, Recur(DEFAULT_FLOW, 2, FullStayDays(p)), Rest);
    FlatMap4(first, Rest);
    FlatMap4(leave, Rest);
    RecurRest(2, FullStayDays(p));
  }

  // ---------- replies of the default flow ----------

  predicate AboutKey(r: Response) {
    r.ReceiveKey? || r.ReturnKey?
  }

  function LogAnswer(e: Entry): seq<Response> {
    if e.Answered? && AboutKey(e.response) then [e.response] else []
  }

  function KeyReply(r: Reply): seq<Response> {
    if AboutKey(r.response) then [r.response] else []
  }

  function MarkAnswer(m: Mark): seq<Response> {
    if m.MAnswered? && AboutKey(m.response) then [m.response] else []
  }

  function NoAnswer(s: PlanStep): seq<Response> {
    []
  }

  lemma {:induction false} NoAnswers(plan: seq<PlanStep>)
    ensures FlatMap(plan, NoAnswer) == []
  {
    if plan != [] {
      NoAnswers(plan[1..]);
    }
  }

  function KeyBack(v: Visit): PlanStep -> seq<Response> {
    (s: PlanStep) => if s.gate.request == RequestCottageKey then [ReturnKey(v.keyId)] else []
  }

  lemma MarkedAnswers(script: seq<Instr>)
    ensures FlatMap(Marks(script), MarkAnswer) == FlatMap(script, AnswersOf)
  {
    forall k | 0 <= k < |script| ensures FlatMap(InstrMarks(script[k]), MarkAnswer) == AnswersOf(script[k]) {
      FlatMapPair(InstrMarks(script[k]), MarkAnswer);
    }
    FlatMapCompose(script, InstrMarks, MarkAnswer, AnswersOf);
  }

  lemma AnswersAgree(log: seq<Entry>, marks: seq<Mark>)
    requires Follows([], log, marks)
    ensures FlatMap(log, LogAnswer) <= FlatMap(marks, MarkAnswer)
    ensures |log| == |marks| ==> FlatMap(log, LogAnswer) == FlatMap(marks, MarkAnswer)
  {
    forall i | 0 <= i < |log| ensures LogAnswer(log[i]) == MarkAnswer(marks[i]) {
      assert MarkOf(log[i]) == marks[i];
    }
    FlatMapAgree(log, marks, LogAnswer, MarkAnswer);
  }

  /** The key replies among all replies sent are the ones the log knows of. */
  ghost predicate KeysLogged(s: State) {
    FlatMap(s.replies, KeyReply) == FlatMap(s.log, LogAnswer)
  }

  lemma KeyReplied(s: State, r: Reply)
    ensures FlatMap(s.replies + [r], KeyReply) == FlatMap(s.replies, KeyReply) + KeyReply(r)
  {
    FlatMapConcat(s.replies, [r], KeyReply);
    FlatMapOne(r, KeyReply);
  }

  lemma KeyLogged(s: State, e: Entry)
    ensures FlatMap(s.log + [e], LogAnswer) == FlatMap(s.log, LogAnswer) + LogAnswer(e)
  {
    FlatMapConcat(s.log, [e], LogAnswer);
    FlatMapOne(e, LogAnswer);
  }

  /** At the desk no reply is about the key. */
  lemma {:induction false} DeskKeepsKeys(env: Env, s: State, desk: Desk)
    requires s.pos <= |env.inbound| && KeysLogged(s)
    ensures KeysLogged(AtDesk(env, s, desk).state)
    decreases |env.inbound| - s.pos
  {
    if s.pos < |env.inbound| {
      var m := env.inbound[s.pos];
      var s1 := s.(pos := s.pos + 1);
      if m.GetNotification() == CheckInComplete {
        KeyLogged(s, Heard(WantNotification(CheckInComplete), s.pos));
      } else if DeskAnswer(desk, m).None? {
        DeskKeepsKeys(env, s1, desk);
      } else {
        var reply := Reply(DeskAnswer(desk, m).value, s.pos, m.correlationId);
        KeyReplied(s, reply);
        var o := Operate(env, s1, s1.Replied(reply));
        if o.ok {
          DeskKeepsKeys(env, o.state, desk);
        }
      }
    }
  }

  lemma AnswerKeepsKeys(env: Env, s: State, response: Response)
    requires 0 < s.pos <= |env.inbound| && KeysLogged(s)
    ensures KeysLogged(AnswerLast(env, s, response).state)
  {
    KeyReplied(s, Reply(response, s.pos - 1, env.inbound[s.pos - 1].correlationId));
    KeyLogged(s, Answered(response));
  }

  lemma PerformKeepsKeys(env: Env, s: State, i: Instr)
    requires s.pos <= |env.inbound| && KeysLogged(s)
    ensures KeysLogged(Perform(env, s, i).state)
  {
    match i
    case HoldUntil(target) =>
      KeyLogged(s, Held(target, |Hold(env, s, target).state.accepted|));
    case Send(action) => KeyLogged(s, Sent(action, |Clock(env, s)|));
    case CompleteCheckin(desk) => DeskKeepsKeys(env, s, desk);
    case Await(want, answer) =>
      KeyLogged(s, Heard(want, FirstMatch(env.inbound, want, s.pos)));
      var o := Hear(env, s, want);
      if o.ok && answer.Some? {
        AnswerKeepsKeys(env, o.state, answer.value);
      }
  }

  lemma {:induction false} RunKeepsKeys(env: Env, s: State, script: seq<Instr>)
    requires s.pos <= |env.inbound| && KeysLogged(s)
    ensures KeysLogged(Run(env, s, script).state)
    decreases |script|
  {
    if script != [] {
      PerformKeepsKeys(env, s, script[0]);
      var o := Perform(env, s, script[0]);
      if o.ok {
        RunKeepsKeys(env, o.state, script[1..]);
      }
    }
  }

  lemma KeyRepliesFollow(env: Env, script: seq<Instr>)
    ensures var o := Run(env, START, script);
            && FlatMap(o.state.replies, KeyReply) <= FlatMap(script, AnswersOf)
            && (o.ok ==> FlatMap(o.state.replies, KeyReply) == FlatMap(script, AnswersOf))
  {
    RunKeepsKeys(env, START, script);
    RunFollowsScript(env, START, script);
    AnswersAgree(Run(env, START, script).state.log, Marks(script));
    MarkedAnswers(script);
  }

  lemma SeesAnswers(v: Visit)
    ensures Sees(v, AnswersOf, NoAnswer, KeyBack(v))
  {
  }

  lemma StayAnswers(flow: LodgingFlow, v: Visit)
    ensures FlatMap(StayScript(flow, v), AnswersOf) ==
            FlatMap(Expand(0, flow.showUp), NoAnswer) + [ReceiveKey(v.keyId)]
            + FlatMap(StayPlan(flow, v.period), NoAnswer)
            + FlatMap(Expand(CheckoutDayOffset(v.period), flow.checkout), KeyBack(v))
  {
    assert FlatMap(StayScript(flow, v), AnswersOf) == Pieces(flow, v, AnswersOf, NoAnswer, KeyBack(v)) by {
      SeesAnswers(v);
      StayProjects(flow, v, AnswersOf, NoAnswer, KeyBack(v));
    }
    KeyAnswers(flow, v);
    var before := FlatMap(Expand(0, flow.showUp), NoAnswer);
    assert before + [] == before;
  }

  lemma KeyAnswers(flow: LodgingFlow, v: Visit)
    ensures AnswersOf(CompleteCheckin(DeskOf(flow, v))) == []
    ensures AnswersOf(KeyScript(v)[0]) + AnswersOf(Send(TakeCottageKey)) == [ReceiveKey(v.keyId)]
  {
  }

  lemma DefaultAnswers(v: Visit)
    ensures FlatMap(StayScript(DEFAULT_FLOW, v), AnswersOf) == [ReceiveKey(v.keyId), ReturnKey(v.keyId)]
  {
    StayAnswers(DEFAULT_FLOW, v);
    NoAnswers(Expand(0, DEFAULT_FLOW.showUp));
    NoAnswers(StayPlan(DEFAULT_FLOW, v.period));
    FlatMap4(Expand(CheckoutDayOffset(v.period), DEFAULT_FLOW.checkout), KeyBack(v));
  }

  /** Of all replies a default run sends, failing or not, those about the key are at most one receipt and
      after it one return, naming the same key; a successful run sends both. */
  lemma OneKeyTakenAndReturned(env: Env, v: Visit)
    ensures var o := Run(env, START, StayScript(DEFAULT_FLOW, v));
            && FlatMap(o.state.replies, KeyReply) <= [ReceiveKey(v.keyId), ReturnKey(v.keyId)]
            && (o.ok ==> FlatMap(o.state.replies, KeyReply) == [ReceiveKey(v.keyId), ReturnKey(v.keyId)])
  {
    KeyRepliesFollow(env, StayScript(DEFAULT_FLOW, v));
    DefaultAnswers(v);
  }

  // ---------- replies, over the whole run ----------

  lemma StepIsPolite(p: Period, step: PlanStep, answer: Option<Response>)
    requires answer.Some? ==> step.gate.request == RequestFor(answer.value)
    ensures Polite(StepScript(p, step, answer))
  {
  }

  ghost predicate Every(script: seq<Instr>, p: Instr -> bool) {
    forall i :: 0 <= i < |script| ==> p(script[i])
  }

  lemma {:induction false} FlatMapEvery(plan: seq<PlanStep>, f: PlanStep -> seq<Instr>, p: Instr -> bool)
    requires forall i :: 0 <= i < |plan| ==> Every(f(plan[i]), p)
    ensures Every(FlatMap(plan, f), p)
  {
    if plan != [] {
      assert Every(f(plan[0]), p);
      FlatMapEvery(plan[1..], f, p);
    }
  }

  /** In every default run, failing or not, each reply answers an earlier request of its own kind under
      that request's correlation id, and no request is answered twice. */
  lemma ReplyDiscipline(env: Env, v: Visit)
    ensures Disciplined(env, Run(env, START, StayScript(DEFAULT_FLOW, v)).state)
  {
    forall step ensures Every(PlannedStep(v.period)(step), PoliteInstr) && Every(CheckoutStep(v)(step), PoliteInstr) {
      StepIsPolite(v.period, step, None);
      StepIsPolite(v.period, step, CheckoutAnswer(v, step));
    }
    FlatMapEvery(Expand(0, DEFAULT_FLOW.showUp), PlannedStep(v.period), PoliteInstr);
    FlatMapEvery(StayPlan(DEFAULT_FLOW, v.period), PlannedStep(v.period), PoliteInstr);
    FlatMapEvery(Expand(CheckoutDayOffset(v.period), DEFAULT_FLOW.checkout), CheckoutStep(v), PoliteInstr);
    assert Polite(StayScript(DEFAULT_FLOW, v));
    RunIsDisciplined(env, START, StayScript(DEFAULT_FLOW, v));
  }

  // ---------- what the guest shows ----------

  /** A reply gives what its request asks for: the document at the document request, the booking number at the
      booking request, the key as it is given and asked back. */
  ghost predicate RightReply(env: Env, v: Visit, r: Reply) {
    r.at < |env.inbound| &&
    match env.inbound[r.at].payload
    case SystemRequests(RequestDocument) => r.response == ShowDocument(v.documentId)
    case SystemRequests(RequestBookingNumber) => r.response == ShowBookingNumber(v.bookingId)
    case SystemRequests(GiveCottageKey) => r.response == ReceiveKey(v.keyId)
    case SystemRequests(RequestCottageKey) => r.response == ReturnKey(v.keyId)
    case _ => false
  }

  ghost predicate AllRight(env: Env, v: Visit, s: State) {
    forall i :: 0 <= i < |s.replies| ==> RightReply(env, v, s.replies[i])
  }

  /** An instruction that knows what to show. */
  function RightInstr(v: Visit): Instr -> bool {
    (i: Instr) =>
      match i
      case Await(w, Some(r)) =>
        (w == WantRequest(GiveCottageKey) && r == ReceiveKey(v.keyId)) || (w == WantRequest(RequestCottageKey) && r == ReturnKey(v.keyId))
      case CompleteCheckin(d) => d == Desk(RequestDocument, RequestBookingNumber, v.documentId, v.bookingId)
      case _ => true
  }

  lemma {:induction false} DeskIsRight(env: Env, v: Visit, s: State, desk: Desk)
    requires s.pos <= |env.inbound| && AllRight(env, v, s) && RightInstr(v)(CompleteCheckin(desk))
    ensures AllRight(env, v, AtDesk(env, s, desk).state)
    decreases |env.inbound| - s.pos
  {
    if s.pos < |env.inbound| {
      var m := env.inbound[s.pos];
      var s1 := s.(pos := s.pos + 1);
      if m.GetNotification() != CheckInComplete {
        if DeskAnswer(desk, m).None? {
          DeskIsRight(env, v, s1, desk);
        } else {
          var reply := Reply(DeskAnswer(desk, m).value, s.pos, m.correlationId);
          assert RightReply(env, v, reply);
          var o := Operate(env, s1, s1.Replied(reply));
          if o.ok {
            DeskIsRight(env, v, o.state, desk);
          }
        }
      }
    }
  }

  lemma AwaitIsRight(env: Env, v: Visit, s: State, want: Want, answer: Option<Response>)
    requires s.pos <= |env.inbound| && AllRight(env, v, s) && RightInstr(v)(Await(want, answer))
    ensures AllRight(env, v, Perform(env, s, Await(want, answer)).state)
  {
    var o := Hear(env, s, want);
    if o.ok && answer.Some? {
      MatchesIff(want, env.inbound[o.state.pos - 1]);
      assert RightReply(env, v, Reply(answer.value, o.state.pos - 1, env.inbound[o.state.pos - 1].correlationId));
    }
  }

  lemma {:induction false} RunIsRight(env: Env, v: Visit, s: State, script: seq<Instr>)
    requires s.pos <= |env.inbound| && AllRight(env, v, s) && Every(script, RightInstr(v))
    ensures AllRight(env, v, Run(env, s, script).state)
    decreases |script|
  {
    if script != [] {
      match script[0] {
        case CompleteCheckin(desk) => DeskIsRight(env, v, s, desk);
        case Await(want, answer) => AwaitIsRight(env, v, s, want, answer);
        case _ =>
      }
      var o := Perform(env, s, script[0]);
      if o.ok {
        RunIsRight(env, v, o.state, script[1..]);
      }
    }
  }

  lemma PlannedStepIsRight(v: Visit, step: PlanStep)
    ensures Every(PlannedStep(v.period)(step), RightInstr(v)) && Every(CheckoutStep(v)(step), RightInstr(v))
  {
  }

  lemma StayIsRight(v: Visit)
    ensures Every(StayScript(DEFAULT_FLOW, v), RightInstr(v))
  {
    forall step ensures Every(PlannedStep(v.period)(step), RightInstr(v)) && Every(CheckoutStep(v)(step), RightInstr(v)) {
      PlannedStepIsRight(v, step);
    }
    FlatMapEvery(Expand(0, DEFAULT_FLOW.showUp), PlannedStep(v.period), RightInstr(v));
    FlatMapEvery(StayPlan(DEFAULT_FLOW, v.period), PlannedStep(v.period), RightInstr(v));
    FlatMapEvery(Expand(CheckoutDayOffset(v.period), DEFAULT_FLOW.checkout), CheckoutStep(v), RightInstr(v));
  }

  /** In every default run, failing or not, every reply gives what its request asks for. */
  lemma RepliesAreRight(env: Env, v: Visit, r: Reply)
    requires r in Run(env, START, StayScript(DEFAULT_FLOW, v)).state.replies
    ensures RightReply(env, v, r)
  {
    StayIsRight(v);
    RunIsRight(env, v, START, StayScript(DEFAULT_FLOW, v));
  }

  // ---------- every request at the desk is answered ----------

  predicate AsksForPapers(m: ChatMessage) {
    m.payload == SystemRequests(RequestDocument) || m.payload == SystemRequests(RequestBookingNumber)
  }

  /** Check-in is complete by message j. */
  ghost predicate CompleteBy(inbound: seq<ChatMessage>, j: int) {
    exists i :: 0 <= i <= j && i < |inbound| && inbound[i].payload == SystemNotifies(CheckInComplete)
  }

  ghost predicate AnsweredAt(s: State, j: int) {
    exists i :: 0 <= i < |s.replies| && s.replies[i].at == j
  }

  /** Requests for papers consumed before check-in was complete have been answered. */
  ghost predicate Served(env: Env, s: State) {
    && s.pos <= |env.inbound|
    && forall j :: 0 <= j < s.pos && AsksForPapers(env.inbound[j]) && !CompleteBy(env.inbound, j) ==> AnsweredAt(s, j)
  }

  lemma StaysServed(env: Env, s: State, after: State)
    requires Served(env, s) && s.replies <= after.replies && s.pos <= after.pos <= |env.inbound|
    requires forall j :: s.pos <= j < after.pos && AsksForPapers(env.inbound[j]) ==> CompleteBy(env.inbound, j) || AnsweredAt(after, j)
    ensures Served(env, after)
  {
    forall j | 0 <= j < after.pos && AsksForPapers(env.inbound[j]) && !CompleteBy(env.inbound, j) ensures AnsweredAt(after, j) {
      if j < s.pos {
        var i :| 0 <= i < |s.replies| && s.replies[i].at == j;
        assert after.replies[i].at == j;
      }
    }
  }

  lemma {:induction false} DeskServes(env: Env, s: State, desk: Desk)
    requires Served(env, s) && (forall k: nat :: !env.fails(k))
    requires desk.documentRequest == RequestDocument && desk.bookingRequest == RequestBookingNumber
    ensures var o := AtDesk(env, s, desk);
            Served(env, o.state) && (o.ok ==> CompleteBy(env.inbound, o.state.pos - 1))
    decreases |env.inbound| - s.pos
  {
    if s.pos < |env.inbound| {
      var m := env.inbound[s.pos];
      var s1 := s.(pos := s.pos + 1);
      if m.GetNotification() == CheckInComplete {
        assert m.payload == SystemNotifies(CheckInComplete);
        StaysServed(env, s, AtDesk(env, s, desk).state);
      } else if DeskAnswer(desk, m).None? {
        StaysServed(env, s, s1);
        DeskServes(env, s1, desk);
      } else {
        var reply := Reply(DeskAnswer(desk, m).value, s.pos, m.correlationId);
        var next := Operate(env, s1, s1.Replied(reply)).state;
        assert next.replies[|s.replies|].at == s.pos;
        StaysServed(env, s, next);
        DeskServes(env, next, desk);
      }
    }
  }

  lemma {:induction false} RepliesGrow(env: Env, s: State, script: seq<Instr>)
    requires s.pos <= |env.inbound|
    ensures var after := Run(env, s, script).state; s.replies <= after.replies && s.pos <= after.pos
    decreases |script|
  {
    if script != [] {
      if script[0].CompleteCheckin? {
        DeskRepliesGrow(env, s, script[0].desk);
      }
      var o := Perform(env, s, script[0]);
      if o.ok {
        RepliesGrow(env, o.state, script[1..]);
      }
    }
  }

  lemma {:induction false} DeskRepliesGrow(env: Env, s: State, desk: Desk)
    requires s.pos <= |env.inbound|
    ensures var after := AtDesk(env, s, desk).state; s.replies <= after.replies && s.pos <= after.pos
    decreases |env.inbound| - s.pos
  {
    if s.pos < |env.inbound| {
      var m := env.inbound[s.pos];
      var s1 := s.(pos := s.pos + 1);
      if m.GetNotification() != CheckInComplete {
        if DeskAnswer(desk, m).None? {
          DeskRepliesGrow(env, s1, desk);
        } else {
          var o := Operate(env, s1, s1.Replied(Reply(DeskAnswer(desk, m).value, s.pos, m.correlationId)));
          if o.ok {
            DeskRepliesGrow(env, o.state, desk);
          }
        }
      }
    }
  }

  /** Show-up consumes nothing. */
  lemma ShowUpConsumesNothing(env: Env, v: Visit)
    ensures var script := PlanScript(v.period, Expand(0, DEFAULT_FLOW.showUp));
            Run(env, START, script).state.pos == 0
  {
    var plan := Expand(0, DEFAULT_FLOW.showUp);
    var f := PlannedStep(v.period);
    FlatMapPair(plan, f);
    var script := PlanScript(v.period, plan);
    assert script == f(plan[0]);
    assert script == [HoldUntil(Target(v.period, plan[0]))] + [Send(ShowForCheckin)];
    RunConcat(env, START, [HoldUntil(Target(v.period, plan[0]))], [Send(ShowForCheckin)]);
  }

  /** After check-in is complete nothing is left to serve. */
  lemma RestServes(env: Env, s: State, script: seq<Instr>)
    requires Served(env, s) && CompleteBy(env.inbound, s.pos - 1)
    ensures Served(env, Run(env, s, script).state)
  {
    RepliesGrow(env, s, script);
    var i :| 0 <= i <= s.pos - 1 && i < |env.inbound| && env.inbound[i].payload == SystemNotifies(CheckInComplete);
    assert forall j :: s.pos <= j ==> CompleteBy(env.inbound, j);
    StaysServed(env, s, Run(env, s, script).state);
  }

  lemma DeskAndRestServe(env: Env, s: State, desk: Desk, rest: seq<Instr>)
    requires Served(env, s) && (forall k: nat :: !env.fails(k))
    requires desk.documentRequest == RequestDocument && desk.bookingRequest == RequestBookingNumber
    ensures Served(env, Run(env, s, [CompleteCheckin(desk)] + rest).state)
  {
    RunConcat(env, s, [CompleteCheckin(desk)], rest);
    DeskServes(env, s, desk);
    var served := AtDesk(env, s, desk);
    if served.ok {
      RestServes(env, served.state, rest);
    }
  }

  /** Whatever else happens in a default stay, if no write fails each request for papers consumed before check-in
      is complete is answered. */
  lemma PapersAreShown(env: Env, v: Visit, j: nat)
    requires forall k: nat :: !env.fails(k)
    requires j < Run(env, START, StayScript(DEFAULT_FLOW, v)).state.pos && AsksForPapers(env.inbound[j])
    requires !CompleteBy(env.inbound, j)
    ensures AnsweredAt(Run(env, START, StayScript(DEFAULT_FLOW, v)).state, j)
  {
    var showUp := PlanScript(v.period, Expand(0, DEFAULT_FLOW.showUp));
    var desk := DeskOf(DEFAULT_FLOW, v);
    var rest := KeyScript(v) + (PlanScript(v.period, StayPlan(DEFAULT_FLOW, v.period))
                                + CheckoutScript(v, Expand(CheckoutDayOffset(v.period), DEFAULT_FLOW.checkout)));
    assert StayScript(DEFAULT_FLOW, v) == showUp + ([CompleteCheckin(desk)] + rest);
    RunConcat(env, START, showUp, [CompleteCheckin(desk)] + rest);
    ShowUpConsumesNothing(env, v);
    var shown := Run(env, START, showUp);
    if shown.ok {
      DeskAndRestServe(env, shown.state, desk, rest);
    }
  }

  // ---------- the whole default stay, told ----------

  /** Hours of the day `offset` days after arrival. */
  function On(p: Period, offset: int, hour: int): int {
    p.start - p.start % 86400 + offset * 86400 + hour * 3600
  }

  /** Something done at its hour, and something done at its hour once the system has announced it. */
  function Doing(p: Period, day: int, hour: int, action: GuestAction): seq<Mark> {
    [MHeld(On(p, day, hour)), MSent(action)]
  }

  function DoingWhen(p: Period, day: int, hour: int, n: Notification, action: GuestAction): seq<Mark> {
    [MHeld(On(p, day, hour)), MHeard(WantNotification(n)), MSent(action)]
  }

  function Arrival(v: Visit): seq<Mark> {
    Doing(v.period, 0, 15, ShowForCheckin)
    + [MHeard(WantNotification(CheckInComplete))]
    + [MHeard(WantRequest(GiveCottageKey)), MAnswered(ReceiveKey(v.keyId)), MSent(TakeCottageKey)]
  }

  function FirstEvening(p: Period): seq<Mark> {
    [MSent(EnterCottage)]
    + Doing(p, 0, 16, GoForABath)
    + DoingWhen(p, 0, 18, DinnerReady, GoForDinner)
    + Doing(p, 0, 22, GoToSleep)
  }

  function FullDay(p: Period, day: int): seq<Mark> {
    Doing(p, day, 7, Wakeup)
    + DoingWhen(p, day, 8, BreakfastReady, GoForBreakfast)
    + Doing(p, day, 10, LeaveCleanupNotification)
    + Doing(p, day, 11, EnjoyResort)
    + Doing(p, day, 16, GoForABath)
    + DoingWhen(p, day, 18, DinnerReady, GoForDinner)
    + Doing(p, day, 22, GoToSleep)
  }

  function FullDays(p: Period, first: int, last: int): seq<Mark>
    decreases last - first
  {
    if last < first then [] else FullDay(p, first) + FullDays(p, first + 1, last)
  }

  function Departure(v: Visit, day: int): seq<Mark> {
    Doing(v.period, day, 7, Wakeup)
    + Doing(v.period, day, 9, LeaveCottage)
    + [MSent(ProceedToCheckout)]
    + [MHeard(WantRequest(RequestCottageKey)), MAnswered(ReturnKey(v.keyId)), MSent(ReturnCottageKey),
       MHeard(WantNotification(CheckOutComplete))]
  }

  function StepMarks(p: Period): PlanStep -> seq<Mark> {
    (s: PlanStep) => StepPart(p, s, None, InstrMarks)
  }

  function LastMarks(v: Visit): PlanStep -> seq<Mark> {
    (s: PlanStep) => StepPart(v.period, s, CheckoutAnswer(v, s), InstrMarks)
  }

  /** A step of a table, by its hour and by its notification. */
  lemma StepTold(p: Period, day: int, hour: int, n: Notification, action: GuestAction)
    ensures StepMarks(p)(PlanStep(day, action, At(hour, action).gate)) == Doing(p, day, hour, action)
    ensures n != NoNotification ==> StepMarks(p)(PlanStep(day, action, AtWhen(hour, n, action).gate)) == DoingWhen(p, day, hour, n, action)
    ensures StepMarks(p)(PlanStep(day, action, OPEN)) == [MSent(action)]
  {
  }

  lemma DayMarks(v: Visit, offset: int)
    ensures FlatMap(Expand(offset, DEFAULT_FLOW.recurring), StepMarks(v.period)) == FullDay(v.period, offset)
  {
    var p, day := v.period, Expand(offset, DEFAULT_FLOW.recurring);
    FlatMap7(day, StepMarks(p));
    StepTold(p, offset, 7, NoNotification, Wakeup);
    StepTold(p, offset, 8, BreakfastReady, GoForBreakfast);
    StepTold(p, offset, 10, NoNotification, LeaveCleanupNotification);
    StepTold(p, offset, 11, NoNotification, EnjoyResort);
    StepTold(p, offset, 16, NoNotification, GoForABath);
    StepTold(p, offset, 18, DinnerReady, GoForDinner);
    StepTold(p, offset, 22, NoNotification, GoToSleep);
  }

  lemma {:induction false} RecurMarks(v: Visit, first: int, last: int)
    ensures FlatMap(Recur(DEFAULT_FLOW, first, last), StepMarks(v.period)) == FullDays(v.period, first, last)
    decreases last - first
  {
    if first <= last {
      FlatMapConcat(Expand(first, DEFAULT_FLOW.recurring), Recur(DEFAULT_FLOW, first + 1, last), StepMarks(v.period));
      DayMarks(v, first);
      RecurMarks(v, first + 1, last);
    }
  }

  lemma EveningMarks(v: Visit)
    ensures FlatMap(Expand(0, DEFAULT_FLOW.showUp), StepMarks(v.period)) == Doing(v.period, 0, 15, ShowForCheckin)
    ensures FlatMap(Expand(0, DEFAULT_FLOW.firstDay), StepMarks(v.period)) == FirstEvening(v.period)
  {
    var p := v.period;
    FlatMapPair(Expand(0, DEFAULT_FLOW.showUp), StepMarks(p));
    FlatMap4(Expand(0, DEFAULT_FLOW.firstDay), StepMarks(p));
    StepTold(p, 0, 15, NoNotification, ShowForCheckin);
    StepTold(p, 0, 0, NoNotification, EnterCottage);
    StepTold(p, 0, 16, NoNotification, GoForABath);
    StepTold(p, 0, 18, DinnerReady, GoForDinner);
    StepTold(p, 0, 22, NoNotification, GoToSleep);
  }

  lemma LastStepTold(v: Visit, day: int, hour: int, action: GuestAction)
    ensures LastMarks(v)(PlanStep(day, action, At(hour, action).gate)) == Doing(v.period, day, hour, action)
    ensures LastMarks(v)(PlanStep(day, action, OPEN)) == [MSent(action)]
    ensures LastMarks(v)(PlanStep(day, action, Gate(None, NoNotification, RequestCottageKey, CheckOutComplete))) ==
            [MHeard(WantRequest(RequestCottageKey)), MAnswered(ReturnKey(v.keyId)), MSent(action), MHeard(WantNotification(CheckOutComplete))]
  {
  }

  lemma DepartureMarks(v: Visit, day: int)
    ensures FlatMap(Expand(day, DEFAULT_FLOW.checkout), LastMarks(v)) == Departure(v, day)
  {
    FlatMap4(Expand(day, DEFAULT_FLOW.checkout), LastMarks(v));
    LastStepTold(v, day, 7, Wakeup);
    LastStepTold(v, day, 9, LeaveCottage);
    LastStepTold(v, day, 0, ProceedToCheckout);
    LastStepTold(v, day, 0, ReturnCottageKey);
  }

  lemma SeesMarks(v: Visit)
    ensures Sees(v, InstrMarks, StepMarks(v.period), LastMarks(v))
  {
  }

  lemma StayMarks(flow: LodgingFlow, v: Visit)
    ensures Marks(StayScript(flow, v)) ==
            FlatMap(Expand(0, flow.showUp), StepMarks(v.period)) + [MHeard(WantNotification(CheckInComplete))]
            + [MHeard(WantRequest(GiveCottageKey)), MAnswered(ReceiveKey(v.keyId)), MSent(TakeCottageKey)]
            + FlatMap(StayPlan(flow, v.period), StepMarks(v.period))
            + FlatMap(Expand(CheckoutDayOffset(v.period), flow.checkout), LastMarks(v))
  {
    assert Marks(StayScript(flow, v)) == Pieces(flow, v, InstrMarks, StepMarks(v.period), LastMarks(v)) by {
      SeesMarks(v);
      StayProjects(flow, v, InstrMarks, StepMarks(v.period), LastMarks(v));
    }
    KeyMarks(v);
  }

  lemma KeyMarks(v: Visit)
    ensures InstrMarks(KeyScript(v)[0]) + InstrMarks(Send(TakeCottageKey)) ==
            [MHeard(WantRequest(GiveCottageKey)), MAnswered(ReceiveKey(v.keyId)), MSent(TakeCottageKey)]
  {
  }

  lemma Regroup(a: seq<Mark>, b: seq<Mark>, c: seq<Mark>, d: seq<Mark>)
    ensures a + (b + c) + d == a + b + c + d
  {
  }

  /** The full days stop with the last one before departure. */
  lemma DaysAgree(v: Visit)
    ensures FullDays(v.period, 2, FullStayDays(v.period)) == FullDays(v.period, 2, Nights(v.period) - 1)
  {
  }

  lemma StayPlanMarks(v: Visit)
    ensures FlatMap(StayPlan(DEFAULT_FLOW, v.period), StepMarks(v.period)) ==
            FirstEvening(v.period) + FullDays(v.period, 2, Nights(v.period) - 1)
  {
    var p := v.period;
    FlatMapConcat(Expand(0, DEFAULT_FLOW.firstDay), Recur(DEFAULT_FLOW, 2, FullStayDays(p)), StepMarks(p));
    EveningMarks(v);
    RecurMarks(v, 2, FullStayDays(p));
    DaysAgree(v);
  }

  lemma DefaultStayTold(v: Visit)
    ensures Marks(StayScript(DEFAULT_FLOW, v)) ==
            Arrival(v) + FirstEvening(v.period) + FullDays(v.period, 2, Nights(v.period) - 1) + Departure(v, CheckoutDayOffset(v.period))
  {
    var p := v.period;
    StayMarks(DEFAULT_FLOW, v);
    EveningMarks(v);
    StayPlanMarks(v);
    DepartureMarks(v, CheckoutDayOffset(p));
    Regroup(Arrival(v), FirstEvening(p), FullDays(p, 2, Nights(p) - 1), Departure(v, CheckoutDayOffset(p)));
  }

  /** Everything a default stay of n nights waits for, hears, answers and does, in order and with its times: arrival,
      the first evening, the full days 2 to n - 1, departure on day n. With the lemma that a run follows its script,
      this is what every default run does, as far as it gets. */
  lemma DefaultStay(v: Visit)
    ensures var n := (v.period.end - v.period.end % 86400 - (v.period.start - v.period.start % 86400)) / 86400;
            Marks(StayScript(DEFAULT_FLOW, v)) ==
            Arrival(v) + FirstEvening(v.period) + FullDays(v.period, 2, n - 1) + Departure(v, if n < 0 then 0 else n)
  {
    DefaultStayTold(v);
  }
}
