/** The seven task states and the table of moves between them (core/states.py). */
module States {

  datatype TaskStatus = Pending | Dispatching | Processing | Completed | Failed | Dead | Expired {

    /** Automatic processing never picks these up again. */
    predicate IsTerminal() {
      Completed? || Dead? || Expired?
    }

    predicate CanTransitionTo(target: TaskStatus) {
      target in AllowedTransitions(this)
    }
  }

  function AllowedTransitions(s: TaskStatus): set<TaskStatus> {
    match s
    case Pending => {Dispatching, Processing, Dead, Expired}
    case Dispatching => {Processing, Pending, Dead, Expired}
    case Processing => {Completed, TaskStatus.Failed, Dead, Pending}
    case Failed => {Pending, Dispatching, Dead, Expired}
    case Dead => {Pending}
    case Completed => {}
    case Expired => {}
  }

  predicate ShouldDie(attempts: int, maxAttempts: int) {
    attempts >= maxAttempts
  }

  /** A path of table moves, as a list of the statuses passed through. */
  predicate TablePath(p: seq<TaskStatus>) {
    |p| >= 1 && forall i :: 0 < i < |p| ==> p[i - 1].CanTransitionTo(p[i])
  }

  ghost predicate Reaches(a: TaskStatus, b: TaskStatus) {
    exists p: seq<TaskStatus> :: TablePath(p) && p[0] == a && p[|p| - 1] == b
  }

  /** A way through the table from a, which is not final, to b. */
  function Route(a: TaskStatus, b: TaskStatus): (p: seq<TaskStatus>)
    requires !a.Completed? && !a.Expired?
    ensures TablePath(p) && p[0] == a && p[|p| - 1] == b
  {
    var back := if a.Pending? then [Pending] else [a, Pending];
    var on := if b.Pending? then [] else if b.Completed? || b.Failed? then [Processing, b] else [b];
    back + on
  }

  lemma FinalPathEnds(p: seq<TaskStatus>)
    requires TablePath(p) && (p[0].Completed? || p[0].Expired?)
    ensures |p| == 1
  {
    assert |p| > 1 ==> p[1 - 1].CanTransitionTo(p[1]);
  }

  /** What the table allows in the long run: nothing leaves COMPLETED or EXPIRED, and from every other
      status, DEAD included, every status can be reached. */
  lemma TableReachesExactly(a: TaskStatus, b: TaskStatus)
    ensures Reaches(a, b) <==> a == b || !(a.Completed? || a.Expired?)
  {
    if a == b {
      assert TablePath([a]) && [a][0] == a && [a][|[a]| - 1] == b;
    } else if !a.Completed? && !a.Expired? {
      assert TablePath(Route(a, b));
    } else {
      forall p: seq<TaskStatus> | TablePath(p) && p[0] == a ensures |p| == 1 {
        FinalPathEnds(p);
      }
    }
  }
}
