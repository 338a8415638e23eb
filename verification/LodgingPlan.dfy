/** The vocabulary of the lodging dialogue. Enumerations that travel as open protobuf
    enums keep an `Other` case for numbers this program does not know. */
module LodgingMessages {
  datatype GuestAction =
    | ShowForCheckin | TakeCottageKey | EnterCottage | GoForABath | GoForDinner | GoToSleep | Wakeup
    | GoForBreakfast | LeaveCleanupNotification | EnjoyResort | LeaveCottage | ProceedToCheckout
    | ReturnCottageKey | OtherAction(code: int)

  datatype Notification =
    | NoNotification | BookingChecking | CheckInComplete | DinnerReady | BreakfastReady | CheckOutComplete
    | OtherNotification(code: int)

  datatype Request =
    | NoRequest | RequestDocument | RequestBookingNumber | GiveCottageKey | RequestCottageKey
    | OtherRequest(code: int)

  datatype Response =
    | ShowDocument(documentId: string) | ShowBookingNumber(bookingId: string)
    | ReceiveKey(keyId: string) | ReturnKey(keyId: string)

  datatype AckStatus = NoAckStatus | Accepted | Rejected | OtherAckStatus(code: int)

  datatype Payload =
    | NoPayload | GuestDoes(action: GuestAction) | GuestReplies(response: Response)
    | SystemNotifies(notification: Notification) | SystemRequests(request: Request)
    | Ack(acknowledges: string, status: AckStatus)

  datatype ChatMessage = ChatMessage(messageId: string, correlationId: string, payload: Payload) {
    /** Getters answer the unspecified value for every other payload. */
    function GetNotification(): Notification {
      if payload.SystemNotifies? then payload.notification else NoNotification
    }

    function GetRequest(): Request {
      if payload.SystemRequests? then payload.request else NoRequest
    }

    predicate IsSystem() {
      GetNotification() != NoNotification || GetRequest() != NoRequest
    }
  }

  /** What a wait is for. */
  datatype Want = WantNotification(notification: Notification) | WantRequest(request: Request) {
    predicate Specified() {
      match this
      case WantNotification(n) => n != NoNotification
      case WantRequest(r) => r != NoRequest
    }

    predicate Matches(m: ChatMessage) {
      match this
      case WantNotification(n) => m.GetNotification() == n
      case WantRequest(r) => m.GetRequest() == r
    }
  }

  /** A wait for something is satisfied exactly by a message that says it, and the messages handed to a wait are
      exactly the specified notifications and requests. */
  lemma MatchesIff(want: Want, m: ChatMessage)
    requires want.Specified()
    ensures want.Matches(m) <==> m.payload == match want
                                              case WantNotification(n) => SystemNotifies(n)
                                              case WantRequest(r) => SystemRequests(r)
    ensures m.IsSystem() <==> (m.payload.SystemNotifies? && m.payload != SystemNotifies(NoNotification))
                              || (m.payload.SystemRequests? && m.payload != SystemRequests(NoRequest))
  {
  }
}

/** The configured action tables and the dated plans made from them. */
module LodgingPlan {
  import opened Calendar
  import opened Wrappers
  import opened LodgingMessages

  datatype Gate = Gate(notBefore: Option<int>, notification: Notification, request: Request, waitFor: Notification)

  datatype PlannedAction = PlannedAction(action: GuestAction, gate: Gate)

  datatype LodgingFlow = LodgingFlow(
    showUp: seq<PlannedAction>, documentRequest: Request, bookingRequest: Request,
    firstDay: seq<PlannedAction>, recurring: seq<PlannedAction>, checkout: seq<PlannedAction>)

  datatype PlanStep = PlanStep(dayOffset: int, action: GuestAction, gate: Gate)

  const OPEN := Gate(None, NoNotification, NoRequest, NoNotification)

  function At(hour: int, action: GuestAction): PlannedAction {
    PlannedAction(action, OPEN.(notBefore := Some(hour)))
  }

  function AtWhen(hour: int, n: Notification, action: GuestAction): PlannedAction {
    PlannedAction(action, OPEN.(notBefore := Some(hour), notification := n))
  }

  const DEFAULT_FLOW := LodgingFlow(
    [At(15, ShowForCheckin)],
    RequestDocument,
    RequestBookingNumber,
    [PlannedAction(EnterCottage, OPEN), At(16, GoForABath), AtWhen(18, DinnerReady, GoForDinner), At(22, GoToSleep)],
    [At(7, Wakeup), AtWhen(8, BreakfastReady, GoForBreakfast), At(10, LeaveCleanupNotification), At(11, EnjoyResort),
     At(16, GoForABath), AtWhen(18, DinnerReady, GoForDinner), At(22, GoToSleep)],
    [At(7, Wakeup), At(9, LeaveCottage), PlannedAction(ProceedToCheckout, OPEN),
     PlannedAction(ReturnCottageKey, Gate(None, NoNotification, RequestCottageKey, CheckOutComplete))])

  function FullStayDays(p: Period): int {
    if Nights(p) <= 1 then 0 else Nights(p) - 1
  }

  function CheckoutDayOffset(p: Period): int {
    if Nights(p) < 0 then 0 else Nights(p)
  }

  // ---------- plans as values ----------

  function Expand(dayOffset: int, actions: seq<PlannedAction>): (plan: seq<PlanStep>)
    ensures |plan| == |actions|
    ensures forall i :: 0 <= i < |plan| ==> plan[i] == PlanStep(dayOffset, actions[i].action, actions[i].gate)
  {
    seq(|actions|, i requires 0 <= i < |actions| => PlanStep(dayOffset, actions[i].action, actions[i].gate))
  }

  /** The recurring day repeated on the offsets first, ..., last. */
  function Recur(flow: LodgingFlow, first: int, last: int): seq<PlanStep>
    decreases last - first
  {
    if last < first then [] else Expand(first, flow.recurring) + Recur(flow, first + 1, last)
  }

  function StayPlan(flow: LodgingFlow, p: Period): seq<PlanStep> {
    Expand(0, flow.firstDay) + Recur(flow, 2, FullStayDays(p))
  }

  // ---------- plans as the program builds them ----------

  method ExpandPlan(dayOffset: int, actions: seq<PlannedAction>) returns (plan: seq<PlanStep>)
    ensures plan == Expand(dayOffset, actions)
  {
    plan := [];
    for i := 0 to |actions|
      invariant plan == Expand(dayOffset, actions)[..i]
    {
      plan := plan + [PlanStep(dayOffset, actions[i].action, actions[i].gate)];
    }
  }

  lemma {:induction false} RecurSnoc(flow: LodgingFlow, first: int, last: int)
    requires first <= last + 1
    ensures Recur(flow, first, last + 1) == Recur(flow, first, last) + Expand(last + 1, flow.recurring)
    decreases last - first
  {
    if first <= last {
      RecurSnoc(flow, first + 1, last);
    } else {
      assert Recur(flow, first + 1, last + 1) == [];
    }
  }

  method BuildStayActionPlan(flow: LodgingFlow, p: Period) returns (plan: seq<PlanStep>)
    ensures plan == StayPlan(flow, p)
  {
    plan := ExpandPlan(0, flow.firstDay);
    var offset := 2;
    while offset <= FullStayDays(p)
      invariant 2 <= offset && (2 < offset ==> offset <= FullStayDays(p) + 1)
      invariant plan == Expand(0, flow.firstDay) + Recur(flow, 2, offset - 1)
    {
      var day := ExpandPlan(offset, flow.recurring);
      RecurSnoc(flow, 2, offset - 1);
      plan := plan + day;
      offset := offset + 1;
    }
    if offset == 2 {
      assert Recur(flow, 2, FullStayDays(p)) == Recur(flow, 2, 1) == [];
    }
  }

  // ---------- the shape of a stay ----------

  predicate HasOffset(plan: seq<PlanStep>, d: int) {
    exists i :: 0 <= i < |plan| && plan[i].dayOffset == d
  }

  lemma {:induction false} RecurShape(flow: LodgingFlow, first: int, last: int, d: int)
    requires flow.recurring != []
    ensures |Recur(flow, first, last)| == |flow.recurring| * (if last < first then 0 else last - first + 1)
    ensures HasOffset(Recur(flow, first, last), d) <==> first <= d <= last
    decreases last - first
  {
    if first <= last {
      RecurShape(flow, first + 1, last, d);
      var head, tail := Expand(first, flow.recurring), Recur(flow, first + 1, last);
      var all := Recur(flow, first, last);
      assert all == head + tail;
      assert head[0].dayOffset == first && all[0] == head[0];
      if HasOffset(tail, d) {
        var i :| 0 <= i < |tail| && tail[i].dayOffset == d;
        assert all[|head| + i] == tail[i];
      }
      if HasOffset(all, d) {
        var i :| 0 <= i < |all| && all[i].dayOffset == d;
        assert if i < |head| then all[i] == head[i] else all[i] == tail[i - |head|];
      }
    }
  }

  /** Day 1 of a stay is never planned: the recurring loop starts at offset 2. The stay uses
      exactly day 0 and days 2 up to the last full day, all before the checkout day. */
  lemma StayShape(p: Period, d: int)
    ensures |StayPlan(DEFAULT_FLOW, p)| == 4 + 7 * (if Nights(p) <= 2 then 0 else Nights(p) - 2)
    ensures HasOffset(StayPlan(DEFAULT_FLOW, p), d) <==> d == 0 || 2 <= d < Nights(p)
    ensures Nights(p) >= 1 && HasOffset(StayPlan(DEFAULT_FLOW, p), d) ==> 0 <= d < CheckoutDayOffset(p)
  {
    var head, tail := Expand(0, DEFAULT_FLOW.firstDay), Recur(DEFAULT_FLOW, 2, FullStayDays(p));
    var all := StayPlan(DEFAULT_FLOW, p);
    RecurShape(DEFAULT_FLOW, 2, FullStayDays(p), d);
    assert head[0].dayOffset == 0 && all[0] == head[0];
    if HasOffset(tail, d) {
      var i :| 0 <= i < |tail| && tail[i].dayOffset == d;
      assert all[|head| + i] == tail[i];
    }
    if HasOffset(all, d) {
      var i :| 0 <= i < |all| && all[i].dayOffset == d;
      assert if i < |head| then all[i] == head[i] else all[i] == tail[i - |head|];
    }
  }
}
