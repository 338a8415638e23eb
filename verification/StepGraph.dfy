/** Random choice by weight, over the reals. */
module WeightedChoice {
  datatype Weighted<T> = Weighted(value: T, weight: real)

  function Positive(w: real): real {
    if w > 0.0 then w else 0.0
  }

  /** Sum of the positive weights of the first `i` items. */
  function Upto<T>(list: seq<Weighted<T>>, i: nat): (sum: real)
    requires i <= |list|
    ensures sum >= 0.0
  {
    if i == 0 then 0.0 else Upto(list, i - 1) + Positive(list[i - 1].weight)
  }

  /** Item `i` owns the target: its weight is positive and the target lies in its cumulative interval, open
      below and closed above, the first positive item also taking 0. With no positive weight the last item
      is the fallback. */
  ghost predicate Chosen<T>(list: seq<Weighted<T>>, target: real, i: nat) {
    i < |list| &&
    if Upto(list, |list|) == 0.0 then i == |list| - 1
    else
      && list[i].weight > 0.0
      && target <= Upto(list, i + 1)
      && (Upto(list, i) < target || (Upto(list, i) == 0.0 && target == 0.0))
  }

  lemma {:induction false} UptoGrows<T>(list: seq<Weighted<T>>, i: nat, j: nat)
    requires i <= j <= |list|
    ensures Upto(list, i) <= Upto(list, j)
    decreases j - i
  {
    if i < j {
      UptoGrows(list, i, j - 1);
    }
  }

  /** The intervals do not overlap: at most one item owns a target. */
  lemma ChosenIsUnique<T>(list: seq<Weighted<T>>, target: real, i: nat, j: nat)
    requires Chosen(list, target, i) && Chosen(list, target, j)
    ensures i == j
  {
    if Upto(list, |list|) != 0.0 && i != j {
      var low, high := if i < j then i else j, if i < j then j else i;
      UptoGrows(list, low + 1, high);
    }
  }

  lemma Scaled(r: real, total: real, spin: real)
    requires 0.0 <= r < 1.0 && total >= 0.0 && spin == r * total
    ensures 0.0 <= spin && (total > 0.0 ==> spin < total)
  {
    if total > 0.0 {
      assert (1.0 - r) * total > 0.0;
    }
  }

  /** Second loop: subtracts positive weights until the target is used up. */
  method TakeTarget<T>(list: seq<Weighted<T>>, spin: real) returns (value: T, ghost i: nat)
    requires list != [] && 0.0 <= spin
    requires Upto(list, |list|) > 0.0 ==> spin < Upto(list, |list|)
    ensures Chosen(list, spin, i) && value == list[i].value
  {
    var target := spin;
    for k := 0 to |list|
      invariant target == spin - Upto(list, k)
      invariant Upto(list, k) == 0.0 || target > 0.0
    {
      if list[k].weight <= 0.0 {
        continue;
      }
      target := target - list[k].weight;
      if target <= 0.0 {
        UptoGrows(list, k + 1, |list|);
        return list[k].value, k;
      }
    }
    value, i := list[|list| - 1].value, |list| - 1;
  }

  /** First loop. */
  method TotalWeight<T>(list: seq<Weighted<T>>) returns (total: real)
    ensures total == Upto(list, |list|)
  {
    total := 0.0;
    for k := 0 to |list|
      invariant total == Upto(list, k)
    {
      if list[k].weight > 0.0 {
        total := total + list[k].weight;
      }
    }
  }

  /** `r` is the random number in [0, 1); the result is the value of the one item that owns r * total. */
  method PickRandomWeighted<T>(list: seq<Weighted<T>>, r: real) returns (value: T, ghost i: nat)
    requires list != [] && 0.0 <= r < 1.0
    ensures Chosen(list, r * Upto(list, |list|), i) && value == list[i].value
  {
    var total := TotalWeight(list);
    var spin := r * total;
    Scaled(r, total, spin);
    value, i := TakeTarget(list, spin);
  }
}

/** The booking graph and the walks on it. */
module BookingGraph {
  import opened WeightedChoice

  datatype Step = ListCottages | SelectCottage | SelectPeriod | BookCottage | End

  /** Outgoing edges; a step without any ends the flow. */
  function Transitions(s: Step): seq<Weighted<Step>> {
    match s
    case ListCottages => [Weighted(SelectCottage, 0.80), Weighted(End, 0.20)]
    case SelectCottage => [Weighted(SelectPeriod, 0.60), Weighted(ListCottages, 0.30), Weighted(End, 0.10)]
    case SelectPeriod =>
      [Weighted(SelectPeriod, 0.30), Weighted(SelectCottage, 0.20), Weighted(ListCottages, 0.05),
       Weighted(BookCottage, 0.40), Weighted(End, 0.05)]
    case BookCottage => [Weighted(End, 1.0)]
    case End => []
  }

  predicate Edge(a: Step, b: Step) {
    exists i :: 0 <= i < |Transitions(a)| && Transitions(a)[i].value == b && Transitions(a)[i].weight > 0.0
  }

  /** The graph told edge by edge. */
  lemma EdgeIff(a: Step, b: Step)
    ensures Edge(a, b) <==>
            (a, b) in {(ListCottages, SelectCottage), (ListCottages, End),
                       (SelectCottage, SelectPeriod), (SelectCottage, ListCottages), (SelectCottage, End),
                       (SelectPeriod, SelectPeriod), (SelectPeriod, SelectCottage), (SelectPeriod, ListCottages),
                       (SelectPeriod, BookCottage), (SelectPeriod, End),
                       (BookCottage, End)}
  {
    var t := Transitions(a);
    assert forall i :: 0 <= i < |t| ==> t[i].weight > 0.0;
    if i :| 0 <= i < |t| && t[i].value == b {
      assert Edge(a, b);
    }
    match a
    case ListCottages => assert t[0].value == SelectCottage && t[1].value == End;
    case SelectCottage => assert t[0].value == SelectPeriod && t[1].value == ListCottages && t[2].value == End;
    case SelectPeriod =>
      assert t[0].value == SelectPeriod && t[1].value == SelectCottage && t[2].value == ListCottages;
      assert t[3].value == BookCottage && t[4].value == End;
    case BookCottage => assert t[0].value == End;
    case End =>
  }

  /** The step that follows when the random number is `r`, told by intervals. */
  function NextStep(s: Step, r: real): Step {
    match s
    case ListCottages => if r <= 0.80 then SelectCottage else End
    case SelectCottage => if r <= 0.60 then SelectPeriod else if r <= 0.90 then ListCottages else End
    case SelectPeriod =>
      if r <= 0.30 then SelectPeriod else if r <= 0.50 then SelectCottage else if r <= 0.55 then ListCottages
      else if r <= 0.95 then BookCottage else End
    case BookCottage => End
    case End => End
  }

  lemma Totals(s: Step)
    ensures s != End ==> Transitions(s) != [] && Upto(Transitions(s), |Transitions(s)|) == 1.0
    ensures Upto(Transitions(ListCottages), 1) == 0.80
    ensures Upto(Transitions(SelectCottage), 1) == 0.60 && Upto(Transitions(SelectCottage), 2) == 0.90
    ensures Upto(Transitions(SelectPeriod), 1) == 0.30 && Upto(Transitions(SelectPeriod), 2) == 0.50
    ensures Upto(Transitions(SelectPeriod), 3) == 0.55 && Upto(Transitions(SelectPeriod), 4) == 0.95
  {
    var t := Transitions(SelectPeriod);
    assert Upto(t, 3) == Upto(t, 2) + 0.05 && Upto(t, 4) == Upto(t, 3) + 0.40 && Upto(t, 5) == Upto(t, 4) + 0.05;
    assert Upto(Transitions(SelectCottage), 3) == Upto(Transitions(SelectCottage), 2) + 0.10;
    match s
    case ListCottages => assert |Transitions(s)| == 2 && Upto(Transitions(s), 2) == Upto(Transitions(s), 1) + 0.20;
    case SelectCottage => assert |Transitions(s)| == 3;
    case SelectPeriod => assert |Transitions(s)| == 5;
    case BookCottage => assert |Transitions(s)| == 1 && Upto(Transitions(s), 1) == 1.0;
    case End =>
  }

  /** A weighted choice among the edges of a step is the step of its interval. */
  lemma ChoiceIsNextStep(s: Step, r: real, i: nat)
    requires s != End && 0.0 <= r < 1.0 && Chosen(Transitions(s), r, i)
    ensures Transitions(s)[i].value == NextStep(s, r)
  {
    Totals(s);
  }

  predicate Walk(path: seq<Step>) {
    && (path != [] ==> path[0] == ListCottages)
    && forall i :: 0 < i < |path| ==> Edge(path[i - 1], path[i])
  }

  lemma WalkOn(path: seq<Step>, next: Step)
    requires Walk(path) && (if path == [] then next == ListCottages else Edge(path[|path| - 1], next))
    ensures Walk(path + [next])
  {
  }

  lemma EdgesIntoBooking(a: Step, b: Step)
    requires Edge(a, b)
    ensures b == BookCottage ==> a == SelectPeriod
    ensures b == SelectPeriod ==> a in {SelectCottage, SelectPeriod}
    ensures b == SelectCottage ==> a in {ListCottages, SelectPeriod}
    ensures a == BookCottage ==> b == End
    ensures a != End
  {
  }

  lemma EdgesFrom(a: Step)
    ensures forall b :: Edge(a, b) ==>
              && (b == BookCottage ==> a == SelectPeriod)
              && (b == SelectPeriod ==> a in {SelectCottage, SelectPeriod})
              && (b == SelectCottage ==> a in {ListCottages, SelectPeriod})
              && (a == BookCottage ==> b == End)
              && a != End
  {
    forall b | Edge(a, b)
      ensures b == BookCottage ==> a == SelectPeriod
      ensures b == SelectPeriod ==> a in {SelectCottage, SelectPeriod}
      ensures b == SelectCottage ==> a in {ListCottages, SelectPeriod}
      ensures (a == BookCottage ==> b == End) && a != End
    {
      EdgesIntoBooking(a, b);
    }
  }

  /** On every walk the booking step comes at most once, directly after a period selection, and nothing
      but the end follows it. */
  lemma BooksAtMostOnce(path: seq<Step>, i: nat, j: nat)
    requires Walk(path) && i < |path| && j < |path| && path[i] == path[j] == BookCottage
    ensures i == j && 0 < i && path[i - 1] == SelectPeriod
    ensures i + 2 >= |path| && (i + 1 < |path| ==> path[i + 1] == End)
  {
    EdgesIntoBooking(path[i - 1], path[i]);
    if i + 1 < |path| {
      EdgesIntoBooking(path[i], path[i + 1]);
      if i + 2 < |path| {
        EdgesIntoBooking(path[i + 1], path[i + 2]);
      }
    }
    if j + 1 < |path| {
      EdgesIntoBooking(path[j], path[j + 1]);
      if j + 2 < |path| {
        EdgesIntoBooking(path[j + 1], path[j + 2]);
      }
    }
  }

  /** A weighted pick follows an edge: every weight of the graph is positive. */
  lemma PickFollowsEdge(s: Step, target: real, i: nat)
    requires Transitions(s) != [] && Chosen(Transitions(s), target, i)
    ensures Edge(s, Transitions(s)[i].value)
  {
    assert Upto(Transitions(s), 1) > 0.0;
    UptoGrows(Transitions(s), 1, |Transitions(s)|);
  }
}
