/** Order of cottage names: the byte order of UTF-8 text, which is the order of code points. */
module NameOrder {
  predicate Before(a: string, b: string) {
    b != [] && (a == [] || a[0] < b[0] || (a[0] == b[0] && Before(a[1..], b[1..])))
  }

  lemma {:induction false} Trichotomy(a: string, b: string)
    ensures a == b || Before(a, b) || Before(b, a)
    ensures !(Before(a, b) && Before(b, a)) && !Before(a, a)
  {
    if a != [] {
      Trichotomy(a[1..], a[1..]);
      if b != [] {
        Trichotomy(a[1..], b[1..]);
        assert a == [a[0]] + a[1..] && b == [b[0]] + b[1..];
      }
    }
  }

  /** The order told without recursion: a proper beginning, or the smaller character where the names first
      differ. */
  ghost predicate Differ(a: string, b: string, i: nat) {
    i < |a| && i < |b| && a[..i] == b[..i] && a[i] < b[i]
  }

  lemma {:induction false} BeforeIff(a: string, b: string)
    ensures Before(a, b) <==> (a < b || exists i: nat :: Differ(a, b, i))
  {
    if a != [] && b != [] {
      BeforeIff(a[1..], b[1..]);
      if a[0] == b[0] {
        if exists i: nat :: Differ(a[1..], b[1..], i) {
          var i: nat :| Differ(a[1..], b[1..], i);
          assert a[..i + 1] == [a[0]] + a[1..][..i] && b[..i + 1] == [b[0]] + b[1..][..i];
          assert Differ(a, b, i + 1);
        }
        if exists i: nat :: Differ(a, b, i) {
          var i: nat :| Differ(a, b, i);
          assert i > 0;
          assert a[..i][1..] == a[1..][..i - 1] && b[..i][1..] == b[1..][..i - 1];
          assert Differ(a[1..], b[1..], i - 1);
        }
      } else {
        if a[0] < b[0] {
          assert Differ(a, b, 0);
        }
        forall i: nat | Differ(a, b, i) ensures a[0] < b[0] {
          assert i > 0 ==> a[..i][0] == b[..i][0];
        }
      }
    }
  }

  lemma {:induction false} Transitive(a: string, b: string, c: string)
    requires Before(a, b) && Before(b, c)
    ensures Before(a, c)
  {
    if a != [] && a[0] == b[0] == c[0] {
      Transitive(a[1..], b[1..], c[1..]);
    }
  }
}

/** The search for a stay: nearest start, then fewest nights, then cottage name. */
module StaySelection {
  import opened Calendar
  import opened Wrappers
  import NameOrder

  const NUMBER_OF_NIGHTS := [3, 5, 7, 10, 14]
  const SEARCH_WINDOWS := [3, 5, 7, 10, 14, 21, 30]
  const MAX_PERIOD_ATTEMPTS := 5
  const MIN_SEARCH_LEAD_DAYS := 5

  datatype Candidate = Candidate(cottage: string, period: Period, distance: int, nights: int)

  /** The answers of the availability service, per position in the list of cottages and window; None is a
      failed request. A cottage listed twice is asked for twice and may get two different answers. */
  type Service = (nat, int) -> Option<seq<Period>>

  function SearchStart(now: int): int {
    AddDays(StartOfDay(now), MIN_SEARCH_LEAD_DAYS)
  }

  // ---------- what a stay is ----------

  /** A stay of `nights` from day `d` on lies inside the period, measured in UTC days. */
  predicate Fits(p: Period, nights: int, d: int) {
    StartOfDay(p.start) <= d && AddDays(d, nights) <= StartOfDay(p.end)
  }

  /** Any day, not only the ones the scan looks at. */
  ghost predicate Feasible(now: int, periods: seq<Period>, nights: int, d: int) {
    SearchStart(now) <= d && d % DAY == 0 && exists i :: 0 <= i < |periods| && Fits(periods[i], nights, d)
  }

  // ---------- the clamped scan ----------

  method PickNearestSuitablePeriod(now: int, periods: seq<Period>, nights: int) returns (picked: Option<Period>)
    ensures picked.Some? ==>
              && Feasible(now, periods, nights, picked.value.start)
              && picked.value.end == AddDays(picked.value.start, nights)
              && (forall d :: Feasible(now, periods, nights, d) ==> picked.value.start <= d)
    ensures picked.None? ==> forall d :: !Feasible(now, periods, nights, d)
  {
    picked := None;
    var distance := 0;
    var searchStart := SearchStart(now);
    for i := 0 to |periods|
      invariant picked.None? ==> forall d :: !Feasible(now, periods[..i], nights, d)
      invariant picked.Some? ==>
                  && Feasible(now, periods[..i], nights, picked.value.start)
                  && picked.value.end == AddDays(picked.value.start, nights)
                  && distance == picked.value.start - searchStart
                  && (forall d :: Feasible(now, periods[..i], nights, d) ==> picked.value.start <= d)
    {
      var start := StartOfDay(periods[i].start);
      if start < searchStart {
        start := searchStart;
      }
      var end := AddDays(start, nights);
      GrowFeasible(now, periods, nights, i, start);
      if end <= StartOfDay(periods[i].end) && (picked.None? || start - searchStart < distance) {
        picked, distance := Some(Period(start, end)), start - searchStart;
      } else if picked.Some? {
        GrowFeasible(now, periods, nights, i, picked.value.start);
      }
      ghost var scanned := periods[..i + 1];
      forall d | Feasible(now, scanned, nights, d) ensures picked.Some? && picked.value.start <= d {
        GrowFeasible(now, periods, nights, i, d);
      }
    }
    assert periods[..|periods|] == periods;
  }

  lemma GrowFeasible(now: int, periods: seq<Period>, nights: int, i: nat, d: int)
    requires i < |periods|
    ensures Feasible(now, periods[..i + 1], nights, d) <==>
            Feasible(now, periods[..i], nights, d) || (SearchStart(now) <= d && d % DAY == 0 && Fits(periods[i], nights, d))
  {
    var more := periods[..i + 1];
    if Feasible(now, periods[..i], nights, d) {
      var k :| 0 <= k < i && Fits(periods[..i][k], nights, d);
      assert more[k] == periods[..i][k];
    }
    assert more[i] == periods[i];
    if Feasible(now, more, nights, d) {
      var k :| 0 <= k <= i && Fits(more[k], nights, d);
      if k < i {
        assert periods[..i][k] == more[k];
      }
    }
  }

  // ---------- the whole search space and its order ----------

  /** A stay at this cottage among the periods answered: any night option, any day. */
  ghost predicate StayAt(now: int, options: seq<int>, periods: Option<seq<Period>>, cottage: string, c: Candidate) {
    && c.cottage == cottage && c.nights in options
    && c.period.end == AddDays(c.period.start, c.nights)
    && c.distance == c.period.start - now
    && periods.Some? && Feasible(now, periods.value, c.nights, c.period.start)
  }

  /** A stay anywhere in the search space. */
  ghost predicate Stay(now: int, cottages: seq<string>, windows: seq<int>, options: seq<int>, service: Service, c: Candidate) {
    exists k: nat, w :: k < |cottages| && w in windows && StayAt(now, options, service(k, w), cottages[k], c)
  }

  /** The sort order of the program; the start comparison can never decide, distances being equal. */
  predicate Less(a: Candidate, b: Candidate) {
    if a.distance != b.distance then a.distance < b.distance
    else if a.nights != b.nights then a.nights < b.nights
    else if a.period.start != b.period.start then a.period.start < b.period.start
    else NameOrder.Before(a.cottage, b.cottage)
  }

  ghost predicate Sorted(s: seq<Candidate>) {
    forall i, j :: 0 <= i < j < |s| ==> !Less(s[j], s[i])
  }

  lemma LessTransitive(a: Candidate, b: Candidate, c: Candidate)
    requires !Less(b, a) && !Less(c, b)
    ensures !Less(c, a)
  {
    NameOrder.Trichotomy(a.cottage, b.cottage);
    NameOrder.Trichotomy(b.cottage, c.cottage);
    NameOrder.Trichotomy(a.cottage, c.cottage);
    if NameOrder.Before(a.cottage, b.cottage) && NameOrder.Before(b.cottage, c.cottage) {
      NameOrder.Transitive(a.cottage, b.cottage, c.cottage);
    }
  }

  // ---------- sorting and deduplication ----------

  lemma InsertedIsSorted(s: seq<Candidate>, c: Candidate, i: nat)
    requires Sorted(s) && i <= |s|
    requires 0 < i ==> !Less(c, s[i - 1])
    requires forall k :: i <= k < |s| ==> Less(c, s[k])
    ensures Sorted(s[..i] + [c] + s[i..])
  {
    var r := s[..i] + [c] + s[i..];
    forall j, k | 0 <= j < k < |r| ensures !Less(r[k], r[j]) {
      if k == i {
        if j < i - 1 {
          LessTransitive(s[j], s[i - 1], c);
        }
      } else if j == i {
        assert Less(c, s[k - 1]);
        NameOrder.Trichotomy(c.cottage, s[k - 1].cottage);
      } else {
        assert r[j] == s[if j < i then j else j - 1] && r[k] == s[if k < i then k else k - 1];
      }
    }
  }

  /** Neither comes before the other. */
  predicate Tied(a: Candidate, b: Candidate) {
    !Less(a, b) && !Less(b, a)
  }

  function TieOf(x: Candidate): Candidate -> seq<Candidate> {
    (c: Candidate) => if Tied(c, x) then [c] else []
  }

  /** The candidates tied with `x`, in their order. */
  function Ties(s: seq<Candidate>, x: Candidate): seq<Candidate> {
    FlatMap(s, TieOf(x))
  }

  lemma NoTiesBehind(s: seq<Candidate>, c: Candidate, x: Candidate)
    requires Tied(c, x) && forall y :: y in s ==> Less(c, y)
    ensures Ties(s, x) == []
  {
    forall y | y in s ensures TieOf(x)(y) == [] {
      if Tied(y, x) {
        LessTransitive(y, x, c);
      }
    }
    FlatMapNone(s, TieOf(x));
  }

  lemma TiesJoin(a: seq<Candidate>, b: seq<Candidate>, x: Candidate)
    ensures Ties(a + b, x) == Ties(a, x) + Ties(b, x)
  {
    FlatMapConcat(a, b, TieOf(x));
  }

  lemma InsertedIsStable(a: seq<Candidate>, c: Candidate, b: seq<Candidate>, x: Candidate)
    requires forall y :: y in b ==> Less(c, y)
    ensures Ties(a + [c] + b, x) == Ties(a + b, x) + TieOf(x)(c)
  {
    TiesJoin(a + [c], b, x);
    TiesJoin(a, [c], x);
    TiesJoin(a, b, x);
    FlatMapOne(c, TieOf(x));
    if Tied(c, x) {
      NoTiesBehind(b, c, x);
    }
  }

  /** Insertion keeps tied elements in their order, so the sort is stable. */
  method Insert(s: seq<Candidate>, c: Candidate) returns (r: seq<Candidate>)
    requires Sorted(s)
    ensures Sorted(r) && multiset(r) == multiset(s) + multiset{c}
    ensures forall x :: Ties(r, x) == Ties(s, x) + TieOf(x)(c)
  {
    var i := |s|;
    while i > 0 && Less(c, s[i - 1])
      invariant 0 <= i <= |s|
      invariant forall k :: i <= k < |s| ==> Less(c, s[k])
    {
      i := i - 1;
    }
    r := s[..i] + [c] + s[i..];
    assert s == s[..i] + s[i..];
    InsertedIsSorted(s, c, i);
    forall x ensures Ties(r, x) == Ties(s, x) + TieOf(x)(c) {
      InsertedIsStable(s[..i], c, s[i..], x);
    }
  }

  method SortStable(s: seq<Candidate>) returns (r: seq<Candidate>)
    ensures Sorted(r) && multiset(r) == multiset(s)
    ensures forall x :: Ties(r, x) == Ties(s, x)
  {
    r := [];
    for i := 0 to |s|
      invariant Sorted(r) && multiset(r) == multiset(s[..i])
      invariant forall x :: Ties(r, x) == Ties(s[..i], x)
    {
      assert s[..i + 1] == s[..i] + [s[i]];
      ghost var done := s[..i];
      forall x ensures Ties(s[..i + 1], x) == Ties(done, x) + TieOf(x)(s[i]) {
        FlatMapConcat(done, [s[i]], TieOf(x));
        FlatMapOne(s[i], TieOf(x));
      }
      r := Insert(r, s[i]);
    }
    assert s[..|s|] == s;
  }

  function Key(c: Candidate): (string, int, int) {
    (c.cottage, c.period.start, c.period.end)
  }

  function Keys(s: seq<Candidate>): set<(string, int, int)> {
    set c | c in s :: Key(c)
  }

  /** The candidates whose key did not occur before them. */
  function FirstOnly(s: seq<Candidate>): seq<Candidate> {
    if s == [] then []
    else
      var front, last := s[..|s| - 1], s[|s| - 1];
      FirstOnly(front) + (if Key(last) in Keys(front) then [] else [last])
  }

  method UniqueStayCandidates(s: seq<Candidate>) returns (unique: seq<Candidate>)
    ensures unique == FirstOnly(s)
  {
    unique := [];
    var seen := {};
    for k := 0 to |s|
      invariant unique == FirstOnly(s[..k])
      invariant seen == Keys(s[..k])
    {
      assert s[..k + 1][..k] == s[..k] && s[..k + 1] == s[..k] + [s[k]];
      var key := Key(s[k]);
      KeysSnoc(s[..k], s[k]);
      if key !in seen {
        seen := seen + {key};
        unique := unique + [s[k]];
      }
    }
    assert s[..|s|] == s;
  }

  lemma KeysSnoc(s: seq<Candidate>, c: Candidate)
    ensures Keys(s + [c]) == Keys(s) + {Key(c)}
  {
    assert forall d :: d in s + [c] <==> d in s || d == c;
  }

  /** Deduplication keeps every key exactly once and never changes the head. */
  lemma {:induction false} FirstOnlyIsExact(s: seq<Candidate>)
    ensures Keys(FirstOnly(s)) == Keys(s)
    ensures forall i, j :: 0 <= i < j < |FirstOnly(s)| ==> Key(FirstOnly(s)[i]) != Key(FirstOnly(s)[j])
    ensures s != [] ==> FirstOnly(s) != [] && FirstOnly(s)[0] == s[0]
  {
    if s != [] {
      var front, last := s[..|s| - 1], s[|s| - 1];
      FirstOnlyIsExact(front);
      assert s == front + [last];
      var r := FirstOnly(front);
      KeysSnoc(front, last);
      KeysSnoc(r, last);
      assert forall i :: 0 <= i < |r| ==> Key(r[i]) in Keys(r);
    }
  }

  // ---------- the pruned search ----------

  ghost predicate Ascending(options: seq<int>) {
    forall i, j :: 0 <= i < j < |options| ==> options[i] <= options[j]
  }

  /** `c` is a stay of this cottage and window that none of the others beats. */
  ghost predicate BestAt(now: int, options: seq<int>, periods: Option<seq<Period>>, cottage: string, c: Candidate) {
    && StayAt(now, options, periods, cottage, c)
    && forall other :: StayAt(now, options, periods, cottage, other) ==> !Less(other, c)
  }

  ghost predicate NoneAt(now: int, options: seq<int>, periods: Option<seq<Period>>, cottage: string) {
    forall other :: !StayAt(now, options, periods, cottage, other)
  }

  /** A longer stay fits only where a shorter one does. */
  lemma ShorterFits(now: int, periods: seq<Period>, nights: int, more: int, d: int)
    requires nights <= more && Feasible(now, periods, more, d)
    ensures Feasible(now, periods, nights, d)
  {
    var i :| 0 <= i < |periods| && Fits(periods[i], more, d);
    assert Fits(periods[i], nights, d);
  }

  /** The night options of one cottage and window: stopping at the first that fits loses nothing. */
  method FirstFittingOption(now: int, cottage: string, options: seq<int>, periods: seq<Period>) returns (found: Option<Candidate>)
    requires Ascending(options)
    ensures found.Some? ==> BestAt(now, options, Some(periods), cottage, found.value)
    ensures found.None? ==> NoneAt(now, options, Some(periods), cottage)
  {
    for i := 0 to |options|
      invariant forall k, d :: 0 <= k < i ==> !Feasible(now, periods, options[k], d)
    {
      var picked := PickNearestSuitablePeriod(now, periods, options[i]);
      if picked.Some? {
        var c := Candidate(cottage, picked.value, picked.value.start - now, options[i]);
        forall other | StayAt(now, options, Some(periods), cottage, other)
          ensures !Less(other, c)
        {
          var k :| 0 <= k < |options| && options[k] == other.nights;
          assert i <= k;
          ShorterFits(now, periods, options[i], other.nights, other.period.start);
          NameOrder.Trichotomy(cottage, cottage);
        }
        return Some(c);
      }
    }
    found := None;
  }

  datatype Collected = ServiceFailed | Candidates(list: seq<Candidate>)

  ghost predicate Covered(now: int, options: seq<int>, periods: Option<seq<Period>>, cottage: string, cs: seq<Candidate>) {
    && periods.Some?
    && (NoneAt(now, options, periods, cottage) || exists c :: c in cs && BestAt(now, options, periods, cottage, c))
  }

  /** No stay of the space beats `best`. */
  ghost predicate Optimal(now: int, cottages: seq<string>, windows: seq<int>, options: seq<int>, service: Service, best: Candidate) {
    && Stay(now, cottages, windows, options, service, best)
    && forall other :: Stay(now, cottages, windows, options, service, other) ==> !Less(other, best)
  }

  lemma HeadBeats(now: int, options: seq<int>, periods: Option<seq<Period>>, cottage: string, cs: seq<Candidate>,
                  sorted: seq<Candidate>, other: Candidate)
    requires Covered(now, options, periods, cottage, cs) && StayAt(now, options, periods, cottage, other)
    requires Sorted(sorted) && multiset(sorted) == multiset(cs)
    ensures sorted != [] && !Less(other, sorted[0])
  {
    var c :| c in cs && BestAt(now, options, periods, cottage, c);
    assert c in multiset(sorted);
    var n :| 0 <= n < |sorted| && sorted[n] == c;
    NameOrder.Trichotomy(c.cottage, c.cottage);
    LessTransitive(sorted[0], c, other);
  }

  /** The smallest of a list that covers the space is the optimum of the space. */
  lemma HeadIsOptimal(now: int, cottages: seq<string>, windows: seq<int>, options: seq<int>, service: Service,
                      cs: seq<Candidate>, sorted: seq<Candidate>)
    requires forall c :: c in cs ==> Stay(now, cottages, windows, options, service, c)
    requires forall k: nat, w :: k < |cottages| && w in windows ==> Covered(now, options, service(k, w), cottages[k], cs)
    requires Sorted(sorted) && multiset(sorted) == multiset(cs)
    ensures sorted != [] ==> Optimal(now, cottages, windows, options, service, sorted[0])
    ensures sorted == [] ==> forall c :: !Stay(now, cottages, windows, options, service, c)
  {
    forall other | Stay(now, cottages, windows, options, service, other)
      ensures sorted != [] && !Less(other, sorted[0])
    {
      var k: nat, w :| k < |cottages| && w in windows && StayAt(now, options, service(k, w), cottages[k], other);
      assert Covered(now, options, service(k, w), cottages[k], cs);
      HeadBeats(now, options, service(k, w), cottages[k], cs, sorted, other);
    }
    if sorted != [] {
      assert sorted[0] in multiset(cs);
    }
  }

  /** Candidates of every cottage and window, best first, without duplicates. */
  method CollectStayCandidates(now: int, cottages: seq<string>, windows: seq<int>, options: seq<int>, service: Service)
    returns (r: Collected)
    requires Ascending(options)
    ensures r.ServiceFailed? <==> exists k: nat, w :: k < |cottages| && w in windows && service(k, w).None?
    ensures r.Candidates? && r.list != [] ==> Optimal(now, cottages, windows, options, service, r.list[0])
    ensures r.Candidates? && r.list == [] ==> forall c :: !Stay(now, cottages, windows, options, service, c)
  {
    var cs: seq<Candidate> := [];
    for i := 0 to |cottages|
      invariant forall c :: c in cs ==> Stay(now, cottages, windows, options, service, c)
      invariant forall k: nat, w :: k < i && w in windows ==> Covered(now, options, service(k, w), cottages[k], cs)
    {
      for j := 0 to |windows|
        invariant forall c :: c in cs ==> Stay(now, cottages, windows, options, service, c)
        invariant forall k: nat, w :: k < i && w in windows ==> Covered(now, options, service(k, w), cottages[k], cs)
        invariant forall n :: 0 <= n < j ==> Covered(now, options, service(i, windows[n]), cottages[i], cs)
      {
        var w := windows[j];
        assert w in windows;
        var periods := service(i, w);
        if periods.None? {
          return ServiceFailed;
        }
        var found := FirstFittingOption(now, cottages[i], options, periods.value);
        if found.Some? {
          Grown(now, options, cs, found.value);
          cs := cs + [found.value];
          assert found.value in cs && StayAt(now, options, service(i, w), cottages[i], found.value);
        }
      }
    }
    var sorted := SortStable(cs);
    HeadIsOptimal(now, cottages, windows, options, service, cs, sorted);
    FirstOnlyIsExact(sorted);
    var unique := UniqueStayCandidates(sorted);
    r := Candidates(unique);
  }

  lemma Grown(now: int, options: seq<int>, cs: seq<Candidate>, c: Candidate)
    ensures forall cottage, periods :: Covered(now, options, periods, cottage, cs) ==> Covered(now, options, periods, cottage, cs + [c])
  {
    forall cottage, periods | Covered(now, options, periods, cottage, cs)
      ensures Covered(now, options, periods, cottage, cs + [c])
    {
      if !NoneAt(now, options, periods, cottage) {
        var b :| b in cs && BestAt(now, options, periods, cottage, b);
        assert b in cs + [c];
      }
    }
  }

  datatype Selection = Unavailable | NoSuitablePeriod | Selected(best: Candidate)

  /** What a period selection searches: the day it asks on, the cottages listed, and the answers it gets. */
  datatype Search = Search(now: int, cottages: seq<string>, service: Service)

  /** The optimum of a search over the program's own windows and night options. */
  ghost predicate BestOf(search: Search, best: Candidate) {
    Optimal(search.now, search.cottages, SEARCH_WINDOWS, NUMBER_OF_NIGHTS, search.service, best)
  }

  /** The outcome of a period selection, over the program's own windows and night options. */
  method SelectStay(now: int, cottages: seq<string>, service: Service) returns (r: Selection)
    ensures r.Unavailable? <==> exists k: nat, w :: k < |cottages| && w in SEARCH_WINDOWS && service(k, w).None?
    ensures r.NoSuitablePeriod? <==>
              !r.Unavailable? && forall c :: !Stay(now, cottages, SEARCH_WINDOWS, NUMBER_OF_NIGHTS, service, c)
    ensures r.Selected? ==> BestOf(Search(now, cottages, service), r.best)
  {
    var collected := CollectStayCandidates(now, cottages, SEARCH_WINDOWS, NUMBER_OF_NIGHTS, service);
    if collected.ServiceFailed? {
      return Unavailable;
    }
    var candidates := collected.list;
    if candidates == [] {
      return NoSuitablePeriod;
    }
    if |candidates| > MAX_PERIOD_ATTEMPTS {
      candidates := candidates[..MAX_PERIOD_ATTEMPTS];
    }
    r := Selected(candidates[0]);
  }

  /** Best is unique up to what is saved: two optima have the same cottage and the same period. */
  lemma OptimumIsUnique(now: int, cottages: seq<string>, windows: seq<int>, options: seq<int>, service: Service,
                        a: Candidate, b: Candidate)
    requires Optimal(now, cottages, windows, options, service, a) && Optimal(now, cottages, windows, options, service, b)
    ensures a == b
  {
    NameOrder.Trichotomy(a.cottage, b.cottage);
    assert !Less(a, b) && !Less(b, a);
  }

  /** The search space told by itself: a cottage of the list, one of the seven windows, one of the five numbers
      of nights, and whole UTC days inside a period answered, five days out or later. */
  ghost predicate OnOffer(search: Search, c: Candidate, k: nat, w: int, i: nat) {
    && k < |search.cottages| && c.cottage == search.cottages[k]
    && w in {3, 5, 7, 10, 14, 21, 30} && c.nights in {3, 5, 7, 10, 14}
    && search.service(k, w).Some? && i < |search.service(k, w).value|
    && var p := search.service(k, w).value[i];
       && c.period.start % 86400 == 0 && c.period.start >= search.now - search.now % 86400 + 5 * 86400
       && c.period.end == c.period.start + c.nights * 86400
       && p.start - p.start % 86400 <= c.period.start && c.period.end <= p.end - p.end % 86400
       && c.distance == c.period.start - search.now
  }

  lemma StayIff(search: Search, c: Candidate)
    ensures Stay(search.now, search.cottages, SEARCH_WINDOWS, NUMBER_OF_NIGHTS, search.service, c) <==>
            exists k: nat, w, i: nat :: OnOffer(search, c, k, w, i)
  {
    if Stay(search.now, search.cottages, SEARCH_WINDOWS, NUMBER_OF_NIGHTS, search.service, c) {
      var k: nat, w :| k < |search.cottages| && w in SEARCH_WINDOWS
                       && StayAt(search.now, NUMBER_OF_NIGHTS, search.service(k, w), search.cottages[k], c);
      var i :| 0 <= i < |search.service(k, w).value| && Fits(search.service(k, w).value[i], c.nights, c.period.start);
      assert OnOffer(search, c, k, w, i);
    }
    if k: nat, w, i: nat :| OnOffer(search, c, k, w, i) {
      assert Fits(search.service(k, w).value[i], c.nights, c.period.start);
      assert w in SEARCH_WINDOWS && c.nights in NUMBER_OF_NIGHTS;
      assert StayAt(search.now, NUMBER_OF_NIGHTS, search.service(k, w), search.cottages[k], c);
    }
  }

  /** `a` is the same name as `b`, a beginning of it, or smaller where they first differ. */
  ghost predicate NoLater(a: string, b: string) {
    a <= b || exists i: nat :: NameOrder.Differ(a, b, i)
  }

  /** What best means: of all stays on offer the one that starts first, of those the shortest, and of those the
      one whose cottage comes first by name. */
  ghost predicate Beats(a: Candidate, b: Candidate) {
    || a.period.start < b.period.start
    || (a.period.start == b.period.start && a.nights < b.nights)
    || (a.period.start == b.period.start && a.nights == b.nights && NoLater(a.cottage, b.cottage))
  }

  lemma NotLessIff(now: int, a: Candidate, b: Candidate)
    requires a.distance == a.period.start - now && b.distance == b.period.start - now
    ensures !Less(b, a) <==> Beats(a, b)
  {
    NameOrder.Trichotomy(a.cottage, b.cottage);
    NameOrder.BeforeIff(a.cottage, b.cottage);
    if a.cottage <= b.cottage && a.cottage != b.cottage {
      assert a.cottage < b.cottage;
    }
  }

  lemma BestIff(search: Search, best: Candidate)
    ensures BestOf(search, best) <==>
            && (exists k: nat, w, i: nat :: OnOffer(search, best, k, w, i))
            && forall other, k: nat, w, i: nat :: OnOffer(search, other, k, w, i) ==> Beats(best, other)
  {
    StayIff(search, best);
    if BestOf(search, best) {
      forall other, k: nat, w, i: nat | OnOffer(search, other, k, w, i) ensures Beats(best, other) {
        StayIff(search, other);
        NotLessIff(search.now, best, other);
      }
    } else if k: nat, w, i: nat :| OnOffer(search, best, k, w, i) {
      var other :| Stay(search.now, search.cottages, SEARCH_WINDOWS, NUMBER_OF_NIGHTS, search.service, other) && Less(other, best);
      StayIff(search, other);
      var k2: nat, w2, i2: nat :| OnOffer(search, other, k2, w2, i2);
      NotLessIff(search.now, best, other);
    }
  }

  /** Every stay the program can select starts five days out or later, on a midnight, and has a night. */
  lemma SelectedStayHasANight(search: Search, c: Candidate)
    requires BestOf(search, c)
    ensures Nights(c.period) == c.nights >= 3
    ensures StartOfDay(c.period.start) == c.period.start >= SearchStart(search.now)
  {
    var k: nat, w :| k < |search.cottages| && w in SEARCH_WINDOWS
                     && StayAt(search.now, NUMBER_OF_NIGHTS, search.service(k, w), search.cottages[k], c);
    assert c.nights in [3, 5, 7, 10, 14];
  }
}
