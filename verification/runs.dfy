/** Building runs of the protocol one step at a time. */
module Runs {
  import opened Common
  import opened Rows
  import opened Selection
  import opened Queries
  import opened Protocol

  /** steps are enabled one after the other. */
  predicate Enables(s: State, steps: seq<Step>)
    decreases |steps|
  {
    steps == [] || (Enabled(s, steps[0]) && Enables(Apply(s, steps[0]), steps[1..]))
  }

  function Exec(s: State, steps: seq<Step>): State
    decreases |steps|
  {
    if steps == [] then s else Exec(Apply(s, steps[0]), steps[1..])
  }

  function Start(now: Time): Run {
    Run([State(now, map[], {}, map[], map[], map[])], [])
  }

  function Last(r: Run): State
    requires |r.states| > 0
  {
    r.states[|r.states| - 1]
  }

  function Then(r: Run, step: Step): (n: Run)
    requires |r.states| > 0
    ensures |n.states| == |r.states| + 1 && Last(n) == Apply(Last(r), step)
  {
    Run(r.states + [Apply(Last(r), step)], r.steps + [step])
  }

  lemma RunExtends(r: Run, step: Step)
    requires |r.states| > 0 && r.Linked() && Enabled(Last(r), step)
    ensures Then(r, step).Linked() && Then(r, step).states[0] == r.states[0]
  {
    var n := Then(r, step);
    forall k: nat | k < |n.steps| ensures n.Follows(k) {
      if k < |r.steps| {
        assert r.Follows(k);
        assert n.steps[k] == r.steps[k] && n.states[k] == r.states[k] && n.states[k + 1] == r.states[k + 1];
      }
    }
  }

  lemma SinglePick(t: Table, pool: set<Id>, o: Order, id: Id)
    requires pool == {id} && id in t
    ensures Selected(t, pool, o, 1, [id])
  {
    assert Elements([id]) == {id};
    PrecedesIsWeakOrder(o, t[id], t[id], t[id]);
  }

  /** One more enabled step. */
  lemma Do(r: Run, step: Step) returns (n: Run)
    requires |r.states| > 0 && r.Linked() && Enabled(Last(r), step)
    ensures n == Then(r, step) && n.Linked() && n.states[0] == r.states[0] && Last(n) == Apply(Last(r), step)
  {
    n := Then(r, step);
    RunExtends(r, step);
  }

  /** A ledger of one row and no open claim. */
  predicate Sole(s: State, row: Row) {
    s.rows == map[0 := row] && s.used == {0} && s.claims == map[]
  }

  /** There, a step that neither creates, purges nor claims only touches the row. */
  lemma SoleStep(s: State, row: Row, step: Step) returns (n: State)
    requires Sole(s, row) && Allowed(s, step)
    requires !step.Create? && !step.Purge? && !step.ClaimSelect?
    ensures Enabled(s, step) && n == Apply(s, step) && Sole(n, Touch(s, step, 0, row))
  {
    n := Apply(s, step);
    assert TouchAll(s, step) == map[0 := Touch(s, step, 0, row)];
  }

  /** A pass over a one-row ledger picks the row when its test holds. */
  lemma SolePick(s: State, row: Row, pass: Pass, at: Time, age: Time)
    requires Sole(s, row) && PassSelects(pass, row, at, age)
    ensures Selected(s.rows, PassPool(s.rows, pass, at, age), PassOrder(pass), 1, [0])
  {
    assert PassPool(s.rows, pass, at, age) == {0};
    SinglePick(s.rows, {0}, PassOrder(pass), 0);
  }

  /** The run that only creates row 0. */
  lemma SoleRun(made: Creation) returns (r: Run)
    ensures r.Valid() && Sole(Last(r), NewRow(made, 0.0))
    ensures r.steps == [Create(0, made)] && |r.states| == 2 && r.states[0].jobs == map[]
    ensures Last(r) == State(0.0, map[0 := NewRow(made, 0.0)], {0}, map[], map[], map[])
  {
    r := Do(Start(0.0), Create(0, made));
  }
}
