/** Repeated recovery sweeps at a frozen clock. */
module Convergence {
  import opened Common
  import opened States
  import opened Rows
  import opened Selection

  /** The instant every pass observes, the dispatch timeout and the stuck threshold. */
  datatype Setting = Setting(at: Time, timeout: Time, threshold: Time)

  /** The four passes, in the order sweep runs them. */
  datatype Stage = Deadlines | Recovery(pass: Pass)

  function AgeOf(c: Setting, p: Pass): Time {
    match p
    case FailedPass => 0.0
    case DispatchingPass => c.timeout
    case StuckPass => c.threshold
  }

  predicate Eligible(g: Stage, r: Row, c: Setting) {
    match g
    case Deadlines => SweepsAsExpired(r) && PastDeadline(r, c.at)
    case Recovery(p) => PassSelects(p, r, c.at, AgeOf(c, p))
  }

  function Moved(g: Stage, r: Row, c: Setting): Row {
    match g
    case Deadlines => ExpireRow(r, c.at)
    case Recovery(p) => SweepRow(p, r)
  }

  function Pool(t: Table, g: Stage, c: Setting): set<Id> {
    set id | id in t && Eligible(g, t[id], c)
  }

  function OrderOf(g: Stage): Order {
    match g
    case Deadlines => DeadlineOrder
    case Recovery(p) => PassOrder(p)
  }

  /** picked is what the pass selects from t. */
  predicate Picks(t: Table, g: Stage, c: Setting, limit: nat, picked: seq<Id>) {
    Selected(t, Pool(t, g, c), OrderOf(g), limit, picked)
  }

  function After(t: Table, g: Stage, c: Setting, picked: seq<Id>): Table {
    map id | id in t :: if id in picked then Moved(g, t[id], c) else t[id]
  }

  /** One sweep: the rows each of its passes selects. */
  datatype Sweep = Sweep(expired: seq<Id>, failed: seq<Id>, dispatching: seq<Id>, stuck: seq<Id>)

  function After1(t: Table, c: Setting, w: Sweep): Table { After(t, Deadlines, c, w.expired) }
  function After2(t: Table, c: Setting, w: Sweep): Table { After(After1(t, c, w), Recovery(FailedPass), c, w.failed) }
  function After3(t: Table, c: Setting, w: Sweep): Table {
    After(After2(t, c, w), Recovery(DispatchingPass), c, w.dispatching)
  }
  function AfterSweep(t: Table, c: Setting, w: Sweep): Table { After(After3(t, c, w), Recovery(StuckPass), c, w.stuck) }

  predicate IsSweep(t: Table, c: Setting, limit: nat, w: Sweep) {
    && Picks(t, Deadlines, c, limit, w.expired)
    && Picks(After1(t, c, w), Recovery(FailedPass), c, limit, w.failed)
    && Picks(After2(t, c, w), Recovery(DispatchingPass), c, limit, w.dispatching)
    && Picks(After3(t, c, w), Recovery(StuckPass), c, limit, w.stuck)
  }

  // --- one row ---

  /** How many more passes can move the row at this clock. */
  function Todo(r: Row, c: Setting): nat {
    if Eligible(Recovery(FailedPass), r, c) || Eligible(Recovery(DispatchingPass), r, c)
       || Eligible(Recovery(StuckPass), r, c)
    then 1 + if PastDeadline(r, c.at) && BudgetLeft(r) then 1 else 0
    else if Eligible(Deadlines, r, c) then 1 else 0
  }

  lemma MoveLowersTodo(g: Stage, r: Row, c: Setting)
    requires Eligible(g, r, c)
    ensures Todo(Moved(g, r, c), c) < Todo(r, c)
  {
  }

  /** A row a pass has moved is moved by no later pass of the same sweep. */
  lemma MovedRowRests(g: Stage, r: Row, c: Setting)
    requires Eligible(g, r, c)
    ensures forall p: Pass :: !Eligible(Recovery(p), Moved(g, r, c), c)
  {
  }

  // --- one pass ---

  /** Picked rows are lowered, the others are as they were. */
  lemma PassRow(t: Table, g: Stage, c: Setting, limit: nat, picked: seq<Id>, id: Id)
    requires Picks(t, g, c, limit, picked) && id in t
    ensures id in After(t, g, c, picked)
    ensures id in picked ==> Eligible(g, t[id], c) && After(t, g, c, picked)[id] == Moved(g, t[id], c)
                             && Todo(After(t, g, c, picked)[id], c) < Todo(t[id], c)
    ensures id !in picked ==> After(t, g, c, picked)[id] == t[id]
  {
    if id in picked {
      assert id in Elements(picked);
      MoveLowersTodo(g, t[id], c);
    }
  }

  // --- one sweep ---

  lemma SweepRowOnce(t: Table, c: Setting, limit: nat, w: Sweep, id: Id)
    requires IsSweep(t, c, limit, w) && id in t
    ensures id in AfterSweep(t, c, w)
    ensures Todo(AfterSweep(t, c, w)[id], c) <= Todo(t[id], c)
    ensures Todo(AfterSweep(t, c, w)[id], c) == Todo(t[id], c) ==>
      AfterSweep(t, c, w)[id] == t[id] && id !in w.expired && id !in w.failed && id !in w.dispatching && id !in w.stuck
    ensures id in w.expired ==> id !in w.failed && id !in w.dispatching && id !in w.stuck
    ensures id in w.failed ==> id !in w.dispatching && id !in w.stuck
    ensures id in w.dispatching ==> id !in w.stuck
  {
    var t1, t2, t3 := After1(t, c, w), After2(t, c, w), After3(t, c, w);
    PassRow(t, Deadlines, c, limit, w.expired, id);
    PassRow(t1, Recovery(FailedPass), c, limit, w.failed, id);
    PassRow(t2, Recovery(DispatchingPass), c, limit, w.dispatching, id);
    PassRow(t3, Recovery(StuckPass), c, limit, w.stuck, id);
    if id in w.expired { MovedRowRests(Deadlines, t[id], c); }
    if id in w.failed { MovedRowRests(Recovery(FailedPass), t1[id], c); }
    if id in w.dispatching { MovedRowRests(Recovery(DispatchingPass), t2[id], c); }
  }

  /** The four lists of one sweep share no row: each row moves at most once. */
  lemma ListsAreDisjoint(t: Table, c: Setting, limit: nat, w: Sweep)
    requires IsSweep(t, c, limit, w)
    ensures Elements(w.expired) !! Elements(w.failed) !! Elements(w.dispatching) !! Elements(w.stuck)
  {
    forall id | id in t
      ensures id in w.expired ==> id !in w.failed && id !in w.dispatching && id !in w.stuck
      ensures id in w.failed ==> id !in w.dispatching && id !in w.stuck
      ensures id in w.dispatching ==> id !in w.stuck
    {
      SweepRowOnce(t, c, limit, w, id);
    }
    PicksAreRows(t, c, limit, w);
  }

  lemma PicksAreRows(t: Table, c: Setting, limit: nat, w: Sweep)
    requires IsSweep(t, c, limit, w)
    ensures Elements(w.expired) + Elements(w.failed) + Elements(w.dispatching) + Elements(w.stuck) <= t.Keys
  {
    assert After1(t, c, w).Keys == t.Keys && After2(t, c, w).Keys == t.Keys && After3(t, c, w).Keys == t.Keys;
  }

  // --- many sweeps ---

  function Busy(t: Table, c: Setting, n: nat): set<Id> {
    set id | id in t && Todo(t[id], c) >= n
  }

  /** The total of Todo over the table, Todo being at most 2. */
  function Load(t: Table, c: Setting): nat {
    |Busy(t, c, 1)| + |Busy(t, c, 2)|
  }

  lemma BusyShrinks(t: Table, c: Setting, limit: nat, w: Sweep, n: nat)
    requires IsSweep(t, c, limit, w)
    ensures Busy(AfterSweep(t, c, w), c, n) <= Busy(t, c, n)
  {
    forall id | id in Busy(AfterSweep(t, c, w), c, n) ensures id in Busy(t, c, n) {
      assert id in t;
      SweepRowOnce(t, c, limit, w, id);
    }
  }

  /** A sweep that finds nothing busy picks nothing; otherwise, with room for one row a pass, it
      moves something. */
  lemma SweepMakesProgress(t: Table, c: Setting, limit: nat, w: Sweep)
    requires IsSweep(t, c, limit, w)
    ensures Load(t, c) == 0 ==> w == Sweep([], [], [], []) && AfterSweep(t, c, w) == t
    ensures Load(t, c) > 0 && limit >= 1 ==> Load(AfterSweep(t, c, w), c) < Load(t, c)
  {
    var u := AfterSweep(t, c, w);
    BusyShrinks(t, c, limit, w, 1);
    BusyShrinks(t, c, limit, w, 2);
    SubsetCount(Busy(u, c, 1), Busy(t, c, 1));
    SubsetCount(Busy(u, c, 2), Busy(t, c, 2));
    if Load(u, c) == Load(t, c) {
      assert Busy(u, c, 1) == Busy(t, c, 1) && Busy(u, c, 2) == Busy(t, c, 2);
      forall id | id in t ensures Todo(u[id], c) == Todo(t[id], c) {
        SweepRowOnce(t, c, limit, w, id);
        assert id in Busy(t, c, 1) <==> id in Busy(u, c, 1);
        assert id in Busy(t, c, 2) <==> id in Busy(u, c, 2);
      }
      NothingPicked(t, c, limit, w);
      if limit >= 1 {
        QuietSweepMeansIdle(t, c, limit, w);
      }
    }
    assert Busy(t, c, 2) <= Busy(t, c, 1);
  }

  lemma NothingPicked(t: Table, c: Setting, limit: nat, w: Sweep)
    requires IsSweep(t, c, limit, w)
    requires forall id :: id in t ==> id in AfterSweep(t, c, w) && Todo(AfterSweep(t, c, w)[id], c) == Todo(t[id], c)
    ensures w == Sweep([], [], [], []) && AfterSweep(t, c, w) == t
  {
    forall id | id in t
      ensures AfterSweep(t, c, w)[id] == t[id]
      ensures id !in w.expired && id !in w.failed && id !in w.dispatching && id !in w.stuck
    {
      SweepRowOnce(t, c, limit, w, id);
    }
    PicksAreRows(t, c, limit, w);
    EmptyIfNoRow(t, w.expired);
    EmptyIfNoRow(t, w.failed);
    EmptyIfNoRow(t, w.dispatching);
    EmptyIfNoRow(t, w.stuck);
  }

  lemma EmptyIfNoRow(t: Table, picked: seq<Id>)
    requires Elements(picked) <= t.Keys && forall id :: id in t ==> id !in picked
    ensures picked == []
  {
    HeadIsMember(picked);
    assert forall x :: x in picked ==> x in Elements(picked);
  }

  lemma QuietSweepMeansIdle(t: Table, c: Setting, limit: nat, w: Sweep)
    requires IsSweep(t, c, limit, w) && limit >= 1 && w == Sweep([], [], [], [])
    ensures Busy(t, c, 1) == {}
  {
    assert After1(t, c, w) == t && After2(t, c, w) == t && After3(t, c, w) == t;
    assert Pool(t, Deadlines, c) == Pool(t, Recovery(FailedPass), c) == Pool(t, Recovery(DispatchingPass), c)
      == Pool(t, Recovery(StuckPass), c) == {};
    forall id | id in t ensures Todo(t[id], c) == 0 {
      assert id !in Pool(t, Deadlines, c) && id !in Pool(t, Recovery(FailedPass), c);
      assert id !in Pool(t, Recovery(DispatchingPass), c) && id !in Pool(t, Recovery(StuckPass), c);
    }
  }

  /** tables[i + 1] is what some sweep made of tables[i]. */
  ghost predicate Sweeps(tables: seq<Table>, c: Setting, limit: nat, ws: seq<Sweep>) {
    && |tables| == |ws| + 1
    && forall i :: 0 <= i < |ws| ==>
         IsSweep(tables[i], c, limit, ws[i]) && tables[i + 1] == AfterSweep(tables[i], c, ws[i])
  }

  /** With any limit of at least one, as many sweeps as the table's load reach a fixpoint: from
      there on every sweep returns four empty lists and changes nothing. */
  lemma {:induction false} SweepsConverge(tables: seq<Table>, c: Setting, limit: nat, ws: seq<Sweep>, n: nat)
    requires Sweeps(tables, c, limit, ws) && limit >= 1 && n < |tables|
    ensures Load(tables[n], c) <= (if n <= Load(tables[0], c) then Load(tables[0], c) - n else 0)
    ensures n >= Load(tables[0], c) && n < |ws| ==> ws[n] == Sweep([], [], [], []) && tables[n + 1] == tables[n]
  {
    if n == 0 {
    } else {
      SweepsConverge(tables, c, limit, ws, n - 1);
      SweepMakesProgress(tables[n - 1], c, limit, ws[n - 1]);
      assert tables[n - 1 + 1] == AfterSweep(tables[n - 1], c, ws[n - 1]);
    }
    if n < |ws| {
      SweepMakesProgress(tables[n], c, limit, ws[n]);
    }
  }

  // --- sweeps with room for every row ---

  lemma FullPassTakesAll(t: Table, g: Stage, c: Setting, limit: nat, picked: seq<Id>, id: Id)
    requires Picks(t, g, c, limit, picked) && limit >= |t| && id in t
    ensures id in picked <==> Eligible(g, t[id], c)
  {
    var pool := Pool(t, g, c);
    SubsetCount(pool, t.Keys);
    assert |t.Keys| == |t|;
    ElementsCount(picked);
    SubsetCount(Elements(picked), pool);
    assert id in picked <==> id in Elements(picked);
  }

  /** After a sweep with room for every row, what is left to do is to expire overdue rows that
      its last pass has just returned to PENDING. */
  lemma FullSweepLeavesOnlyReturned(t: Table, c: Setting, limit: nat, w: Sweep, id: Id)
    requires IsSweep(t, c, limit, w) && limit >= |t| && id in t
    ensures id in AfterSweep(t, c, w)
    ensures var r := AfterSweep(t, c, w)[id];
      Todo(r, c) > 0 ==> Todo(r, c) == 1 && id in w.stuck && r.status == Pending && PastDeadline(r, c.at)
  {
    var t1, t2, t3 := After1(t, c, w), After2(t, c, w), After3(t, c, w);
    assert t1.Keys == t.Keys && t2.Keys == t.Keys && t3.Keys == t.Keys;
    assert |t1.Keys| == |t1| && |t2.Keys| == |t2| && |t3.Keys| == |t3| && |t.Keys| == |t|;
    FullPassTakesAll(t, Deadlines, c, limit, w.expired, id);
    FullPassTakesAll(t1, Recovery(FailedPass), c, limit, w.failed, id);
    FullPassTakesAll(t2, Recovery(DispatchingPass), c, limit, w.dispatching, id);
    FullPassTakesAll(t3, Recovery(StuckPass), c, limit, w.stuck, id);
    FullRow(t[id], c);
  }

  /** The same, for one row going through four passes that each take it if they can. */
  function Through(g: Stage, r: Row, c: Setting): Row {
    if Eligible(g, r, c) then Moved(g, r, c) else r
  }

  function BeforeStuck(r: Row, c: Setting): Row {
    Through(Recovery(DispatchingPass), Through(Recovery(FailedPass), Through(Deadlines, r, c), c), c)
  }

  lemma FullRow(r: Row, c: Setting)
    ensures var last := BeforeStuck(r, c);
      var done := Through(Recovery(StuckPass), last, c);
      Todo(done, c) > 0 ==>
        && Todo(done, c) == 1 && Eligible(Recovery(StuckPass), last, c)
        && done.status == Pending && PastDeadline(done, c.at)
  {
  }

  lemma SweepKeepsKeys(t: Table, c: Setting, w: Sweep)
    ensures AfterSweep(t, c, w).Keys == t.Keys && |AfterSweep(t, c, w)| == |t|
  {
    var u := AfterSweep(t, c, w);
    assert u.Keys == t.Keys;
    assert |u.Keys| == |u| && |t.Keys| == |t|;
  }

  /** A row that is at most an overdue PENDING one is picked, if at all, by the deadline pass. */
  lemma SecondSweepRow(u: Table, c: Setting, limit: nat, w: Sweep, id: Id)
    requires IsSweep(u, c, limit, w) && limit >= |u| && id in u
    requires Todo(u[id], c) == 0 || (u[id].status == Pending && PastDeadline(u[id], c.at))
    ensures id !in w.failed && id !in w.dispatching && id !in w.stuck
    ensures id in w.expired ==> Todo(u[id], c) > 0
    ensures id in AfterSweep(u, c, w) && Todo(AfterSweep(u, c, w)[id], c) == 0
  {
    PassRow(u, Deadlines, c, limit, w.expired, id);
    PassRow(After1(u, c, w), Recovery(FailedPass), c, limit, w.failed, id);
    PassRow(After2(u, c, w), Recovery(DispatchingPass), c, limit, w.dispatching, id);
    PassRow(After3(u, c, w), Recovery(StuckPass), c, limit, w.stuck, id);
    FullPassTakesAll(u, Deadlines, c, limit, w.expired, id);
  }

  /** The second such sweep, seen from one row. */
  lemma SecondSweep(t: Table, c: Setting, limit: nat, first: Sweep, u: Table, second: Sweep, id: Id)
    requires limit >= |t| && IsSweep(t, c, limit, first) && id in t
    requires u == AfterSweep(t, c, first) && IsSweep(u, c, limit, second)
    ensures id in u && id !in second.failed && id !in second.dispatching && id !in second.stuck
    ensures id in second.expired ==> id in first.stuck
    ensures id in AfterSweep(u, c, second) && Todo(AfterSweep(u, c, second)[id], c) == 0
  {
    SweepKeepsKeys(t, c, first);
    FullSweepLeavesOnlyReturned(t, c, limit, first, id);
    SecondSweepRow(u, c, limit, second, id);
  }

  /** So the second such sweep only expires rows the first one's stuck pass returned, and the
      third finds nothing. */
  lemma FullSweepsSettleInTwo(t: Table, c: Setting, limit: nat, first: Sweep, u: Table, second: Sweep,
                              v: Table, third: Sweep)
    requires limit >= |t| && IsSweep(t, c, limit, first) && u == AfterSweep(t, c, first)
    requires IsSweep(u, c, limit, second) && v == AfterSweep(u, c, second)
    requires IsSweep(v, c, limit, third)
    ensures second.failed == second.dispatching == second.stuck == []
    ensures Elements(second.expired) <= Elements(first.stuck)
    ensures third == Sweep([], [], [], [])
  {
    SweepKeepsKeys(t, c, first);
    SweepKeepsKeys(u, c, second);
    forall id | id in t
      ensures id !in second.failed && id !in second.dispatching && id !in second.stuck
      ensures id in second.expired ==> id in first.stuck
      ensures Todo(v[id], c) == 0
    {
      SecondSweep(t, c, limit, first, u, second, id);
    }
    SecondLists(u, c, limit, second, first.stuck);
    NothingBusy(v, c);
    SweepMakesProgress(v, c, limit, third);
  }

  lemma SecondLists(u: Table, c: Setting, limit: nat, w: Sweep, returned: seq<Id>)
    requires IsSweep(u, c, limit, w)
    requires forall id :: id in u ==> id !in w.failed && id !in w.dispatching && id !in w.stuck
    requires forall id :: id in u && id in w.expired ==> id in returned
    ensures w.failed == w.dispatching == w.stuck == [] && Elements(w.expired) <= Elements(returned)
  {
    PicksAreRows(u, c, limit, w);
    EmptyIfNoRow(u, w.failed);
    EmptyIfNoRow(u, w.dispatching);
    EmptyIfNoRow(u, w.stuck);
    assert forall id :: id in Elements(w.expired) ==> id in u && id in w.expired;
  }

  lemma NothingBusy(t: Table, c: Setting)
    requires forall id :: id in t ==> Todo(t[id], c) == 0
    ensures Load(t, c) == 0
  {
    assert Busy(t, c, 1) == {} && Busy(t, c, 2) == {};
  }

  // --- which fixpoint ---

  /** The pass that can bury this row would beat the deadline pass to an overdue row. */
  predicate Torn(r: Row, c: Setting) {
    && (Eligible(Recovery(FailedPass), r, c) || Eligible(Recovery(DispatchingPass), r, c))
    && !BudgetLeft(r) && PastDeadline(r, c.at)
  }

  /** Where a row ends when every pass has room for it. */
  function Outcome(r: Row, c: Setting): Row {
    Through(Deadlines, Through(Recovery(StuckPass), BeforeStuck(r, c), c), c)
  }

  lemma StageKeepsOutcome(g: Stage, r: Row, c: Setting)
    requires Eligible(g, r, c) && !Torn(r, c)
    ensures Outcome(Moved(g, r, c), c) == Outcome(r, c) && !Torn(Moved(g, r, c), c)
  {
  }

  lemma SweepKeepsOutcome(t: Table, c: Setting, limit: nat, w: Sweep, id: Id)
    requires IsSweep(t, c, limit, w) && id in t && !Torn(t[id], c)
    ensures id in AfterSweep(t, c, w) && !Torn(AfterSweep(t, c, w)[id], c)
    ensures Outcome(AfterSweep(t, c, w)[id], c) == Outcome(t[id], c)
  {
    var t1, t2, t3 := After1(t, c, w), After2(t, c, w), After3(t, c, w);
    PassRow(t, Deadlines, c, limit, w.expired, id);
    PassRow(t1, Recovery(FailedPass), c, limit, w.failed, id);
    PassRow(t2, Recovery(DispatchingPass), c, limit, w.dispatching, id);
    PassRow(t3, Recovery(StuckPass), c, limit, w.stuck, id);
    if id in w.expired { StageKeepsOutcome(Deadlines, t[id], c); }
    if id in w.failed { StageKeepsOutcome(Recovery(FailedPass), t1[id], c); }
    if id in w.dispatching { StageKeepsOutcome(Recovery(DispatchingPass), t2[id], c); }
    if id in w.stuck { StageKeepsOutcome(Recovery(StuckPass), t3[id], c); }
  }

  /** However small the limit, the fixpoint holds for every row that is not torn exactly what
      unlimited sweeps would have made of it. */
  lemma {:induction false} FixpointIsOutcome(tables: seq<Table>, c: Setting, limit: nat, ws: seq<Sweep>, n: nat, id: Id)
    requires Sweeps(tables, c, limit, ws) && limit >= 1 && n < |tables|
    requires id in tables[0] && !Torn(tables[0][id], c)
    ensures id in tables[n] && !Torn(tables[n][id], c) && Outcome(tables[n][id], c) == Outcome(tables[0][id], c)
    ensures n >= Load(tables[0], c) ==> tables[n][id] == Outcome(tables[0][id], c)
  {
    if n == 0 {
    } else {
      FixpointIsOutcome(tables, c, limit, ws, n - 1, id);
      assert tables[n - 1 + 1] == AfterSweep(tables[n - 1], c, ws[n - 1]);
      SweepKeepsOutcome(tables[n - 1], c, limit, ws[n - 1], id);
    }
    if n >= Load(tables[0], c) {
      SweepsConverge(tables, c, limit, ws, n);
      assert Todo(tables[n][id], c) == 0 by {
        assert Busy(tables[n], c, 1) == {};
        assert id !in Busy(tables[n], c, 1);
      }
      RestedRowIsItsOutcome(tables[n][id], c);
    }
  }

  lemma RestedRowIsItsOutcome(r: Row, c: Setting)
    requires Todo(r, c) == 0
    ensures Outcome(r, c) == r
  {
  }

  /** A row that has been overdue for longer than this one. */
  function Elder(b: Row): Row
    requires b.made.expiresAt.Some?
  {
    b.(status := Pending, made := b.made.(expiresAt := Some(b.made.expiresAt.value - 1.0)))
  }

  /** A torn row ends EXPIRED when the deadline pass has room for it and DEAD when another row
      takes its place: two rows, the first overdue for longer, and limits two and one. */
  lemma TornRowDependsOnLimit(b: Row, c: Setting) returns (t: Table, wide: Sweep, narrow: Sweep)
    requires Torn(b, c)
    ensures t == map[0 := Elder(b), 1 := b] && Load(t, c) <= 2
    ensures IsSweep(t, c, 2, wide) && AllRest(AfterSweep(t, c, wide), c)
    ensures 1 in AfterSweep(t, c, wide) && AfterSweep(t, c, wide)[1].status == Expired
    ensures IsSweep(t, c, 1, narrow) && AllRest(AfterSweep(t, c, narrow), c)
    ensures 1 in AfterSweep(t, c, narrow) && AfterSweep(t, c, narrow)[1].status == Dead
  {
    var a := Elder(b);
    ElderIsOverdue(b, c);
    t := map[0 := a, 1 := b];
    wide := WideSweep(a, b, c);
    PairRests(ExpireRow(a, c.at), ExpireRow(b, c.at), c);
    narrow := NarrowSweep(a, b, c);
    PairRests(ExpireRow(a, c.at), Buried(b), c);
    PairLoad(a, b, c);
  }

  lemma ElderIsOverdue(b: Row, c: Setting)
    requires Torn(b, c)
    ensures var a := Elder(b);
      Eligible(Deadlines, a, c) && a.made.expiresAt.value < b.made.expiresAt.value && Todo(a, c) == 1
    ensures Eligible(Deadlines, b, c) && Todo(b, c) == 1 && Buried(b).status == Dead
  {
  }

  lemma PairRests(a: Row, b: Row, c: Setting)
    requires (a.status == Expired || a.status == Dead) && (b.status == Expired || b.status == Dead)
    ensures AllRest(map[0 := a, 1 := b], c)
  {
  }

  /** A torn row after the pass that buries it. */
  function Buried(b: Row): Row {
    SweepRow(if b.status == Dispatching then DispatchingPass else FailedPass, b)
  }

  lemma PairLoad(a: Row, b: Row, c: Setting)
    requires Todo(a, c) <= 1 && Todo(b, c) <= 1
    ensures Load(map[0 := a, 1 := b], c) <= 2
  {
    var t := map[0 := a, 1 := b];
    assert Busy(t, c, 2) == {};
    SubsetCount(Busy(t, c, 1), {0, 1});
  }

  /** No pass can move any row. */
  predicate AllRest(t: Table, c: Setting) {
    forall id :: id in t ==> Todo(t[id], c) == 0
  }

  lemma FirstOfTwo(a: Row, b: Row, c: Setting)
    requires Eligible(Deadlines, a, c) && Eligible(Deadlines, b, c) && a.made.expiresAt.value < b.made.expiresAt.value
    ensures Picks(map[0 := a, 1 := b], Deadlines, c, 1, [0])
    ensures Picks(map[0 := a, 1 := b], Deadlines, c, 2, [0, 1])
  {
    assert Pool(map[0 := a, 1 := b], Deadlines, c) == {0, 1};
    assert Elements([0]) == {0};
    assert Elements([0, 1]) == {0, 1};
  }

  /** Four passes in a row are a sweep. */
  lemma FourPasses(t: Table, t1: Table, t2: Table, t3: Table, t4: Table, c: Setting, limit: nat, w: Sweep)
    requires Picks(t, Deadlines, c, limit, w.expired) && t1 == After(t, Deadlines, c, w.expired)
    requires Picks(t1, Recovery(FailedPass), c, limit, w.failed) && t2 == After(t1, Recovery(FailedPass), c, w.failed)
    requires Picks(t2, Recovery(DispatchingPass), c, limit, w.dispatching)
    requires t3 == After(t2, Recovery(DispatchingPass), c, w.dispatching)
    requires Picks(t3, Recovery(StuckPass), c, limit, w.stuck) && t4 == After(t3, Recovery(StuckPass), c, w.stuck)
    ensures IsSweep(t, c, limit, w) && AfterSweep(t, c, w) == t4
  {
  }

  lemma WideSweep(a: Row, b: Row, c: Setting) returns (w: Sweep)
    requires Eligible(Deadlines, a, c) && Eligible(Deadlines, b, c) && a.made.expiresAt.value < b.made.expiresAt.value
    ensures IsSweep(map[0 := a, 1 := b], c, 2, w)
    ensures AfterSweep(map[0 := a, 1 := b], c, w) == map[0 := ExpireRow(a, c.at), 1 := ExpireRow(b, c.at)]
  {
    w := Sweep([0, 1], [], [], []);
    var t, u := map[0 := a, 1 := b], map[0 := ExpireRow(a, c.at), 1 := ExpireRow(b, c.at)];
    FirstOfTwo(a, b, c);
    assert After(t, Deadlines, c, [0, 1]) == u;
    IdlePass(u, Recovery(FailedPass), c, 2);
    IdlePass(u, Recovery(DispatchingPass), c, 2);
    IdlePass(u, Recovery(StuckPass), c, 2);
    FourPasses(t, u, u, u, u, c, 2, w);
  }

  /** The only row a recovery pass can take. */
  lemma OnlyOne(a: Row, b: Row, p: Pass, c: Setting)
    requires Eligible(Recovery(p), b, c) && !Eligible(Recovery(p), a, c)
    ensures Picks(map[0 := a, 1 := b], Recovery(p), c, 1, [1])
    ensures After(map[0 := a, 1 := b], Recovery(p), c, [1]) == map[0 := a, 1 := SweepRow(p, b)]
  {
    assert Pool(map[0 := a, 1 := b], Recovery(p), c) == {1};
    assert Elements([1]) == {1};
  }

  lemma NarrowSweep(a: Row, b: Row, c: Setting) returns (w: Sweep)
    requires Eligible(Deadlines, a, c) && Torn(b, c) && a.made.expiresAt.value < b.made.expiresAt.value
    ensures IsSweep(map[0 := a, 1 := b], c, 1, w)
    ensures AfterSweep(map[0 := a, 1 := b], c, w) == map[0 := ExpireRow(a, c.at), 1 := Buried(b)]
  {
    FirstOfTwo(a, b, c);
    var t, x := map[0 := a, 1 := b], ExpireRow(a, c.at);
    var u, v := map[0 := x, 1 := b], map[0 := x, 1 := Buried(b)];
    assert After(t, Deadlines, c, [0]) == u;
    if b.status == Dispatching {
      w := Sweep([0], [], [1], []);
      BuriedByTimeout(x, b, c);
      FourPasses(t, u, u, v, v, c, 1, w);
    } else {
      w := Sweep([0], [1], [], []);
      BuriedByRetry(x, b, c);
      FourPasses(t, u, v, v, v, c, 1, w);
    }
  }

  lemma BuriedByTimeout(x: Row, b: Row, c: Setting)
    requires x.status == Expired && Torn(b, c) && b.status == Dispatching
    ensures var u, v := map[0 := x, 1 := b], map[0 := x, 1 := Buried(b)];
      && Picks(u, Recovery(FailedPass), c, 1, []) && After(u, Recovery(FailedPass), c, []) == u
      && Picks(u, Recovery(DispatchingPass), c, 1, [1]) && After(u, Recovery(DispatchingPass), c, [1]) == v
      && Picks(v, Recovery(StuckPass), c, 1, []) && After(v, Recovery(StuckPass), c, []) == v
  {
    IdlePass(map[0 := x, 1 := b], Recovery(FailedPass), c, 1);
    OnlyOne(x, b, DispatchingPass, c);
    IdlePass(map[0 := x, 1 := Buried(b)], Recovery(StuckPass), c, 1);
  }

  lemma BuriedByRetry(x: Row, b: Row, c: Setting)
    requires x.status == Expired && Torn(b, c) && b.status != Dispatching
    ensures var u, v := map[0 := x, 1 := b], map[0 := x, 1 := Buried(b)];
      && Picks(u, Recovery(FailedPass), c, 1, [1]) && After(u, Recovery(FailedPass), c, [1]) == v
      && Picks(v, Recovery(DispatchingPass), c, 1, []) && After(v, Recovery(DispatchingPass), c, []) == v
      && Picks(v, Recovery(StuckPass), c, 1, []) && After(v, Recovery(StuckPass), c, []) == v
  {
    OnlyOne(x, b, FailedPass, c);
    IdlePass(map[0 := x, 1 := Buried(b)], Recovery(DispatchingPass), c, 1);
    IdlePass(map[0 := x, 1 := Buried(b)], Recovery(StuckPass), c, 1);
  }

  lemma IdlePass(t: Table, g: Stage, c: Setting, limit: nat)
    requires forall id :: id in t ==> !Eligible(g, t[id], c)
    ensures Picks(t, g, c, limit, []) && After(t, g, c, []) == t
  {
    assert Pool(t, g, c) == {};
  }

  // --- exactly which rows have one end ---

  /** Repeated sweeps of tables[0] have reached their fixpoint at tables[n]. */
  ghost predicate Settles(tables: seq<Table>, c: Setting, limit: nat, ws: seq<Sweep>, n: nat) {
    Sweeps(tables, c, limit, ws) && limit >= 1 && n < |tables| && n >= Load(tables[0], c)
  }

  /** Whatever the limit and whatever else is in the table, the row ends as end. */
  ghost predicate EndsAs(row: Row, c: Setting, end: Row) {
    forall tables: seq<Table>, limit: nat, ws: seq<Sweep>, n: nat, id: Id ::
      Settles(tables, c, limit, ws, n) && id in tables[0] && tables[0][id] == row ==>
        id in tables[n] && tables[n][id] == end
  }

  /** A sweep after which every row rests, and then an idle one, is a settled history. */
  lemma TwoSweepsSettle(t: Table, c: Setting, limit: nat, w: Sweep) returns (tables: seq<Table>, ws: seq<Sweep>)
    requires limit >= 1 && IsSweep(t, c, limit, w) && AllRest(AfterSweep(t, c, w), c) && Load(t, c) <= 2
    ensures Settles(tables, c, limit, ws, 2) && tables[0] == t && tables[2] == AfterSweep(t, c, w)
  {
    var u, idle := AfterSweep(t, c, w), Sweep([], [], [], []);
    IdlePass(u, Deadlines, c, limit);
    IdlePass(u, Recovery(FailedPass), c, limit);
    IdlePass(u, Recovery(DispatchingPass), c, limit);
    IdlePass(u, Recovery(StuckPass), c, limit);
    tables, ws := [t, u, u], [w, idle];
  }

  /** A row has one end, whatever the limit and the company, exactly when it is not torn. */
  lemma EndIsFixedExactly(row: Row, c: Setting)
    ensures (exists end :: EndsAs(row, c, end)) <==> !Torn(row, c)
    ensures !Torn(row, c) ==> EndsAs(row, c, Outcome(row, c))
  {
    if Torn(row, c) {
      var t, wide, narrow := TornRowDependsOnLimit(row, c);
      var tables, ws := TwoSweepsSettle(t, c, 2, wide);
      var others, vs := TwoSweepsSettle(t, c, 1, narrow);
      assert Settles(tables, c, 2, ws, 2) && Settles(others, c, 1, vs, 2);
      var expired, dead := tables[2][1], others[2][1];
      assert tables[0][1] == row && others[0][1] == row && expired != dead;
      forall end ensures !EndsAs(row, c, end) {
        assert EndsAs(row, c, end) ==> expired == end && dead == end;
      }
    } else {
      forall tables: seq<Table>, limit: nat, ws: seq<Sweep>, n: nat, id: Id
        | Settles(tables, c, limit, ws, n) && id in tables[0] && tables[0][id] == row
        ensures id in tables[n] && tables[n][id] == Outcome(row, c)
      {
        FixpointIsOutcome(tables, c, limit, ws, n, id);
      }
      assert EndsAs(row, c, Outcome(row, c));
    }
  }
}
