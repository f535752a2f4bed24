/** ORDER BY ... LIMIT over a pool of rows, as a relation and as a procedure. */
module Selection {
  import opened Common
  import opened Rows

  type Table = map<Id, Row>

  /** The orders the system's queries ask for. */
  datatype Order = ClaimOrder | DeadlineOrder | PassOrder(pass: Pass)

  /** coalesce(scheduled_for, created_at) */
  function EffectiveDue(r: Row): Time {
    if r.scheduledFor.Some? then r.scheduledFor.value else r.createdAt
  }

  function Stamp(t: Option<Time>): Time {
    if t.Some? then t.value else 0.0
  }

  /** a strictly precedes b: priority descending, effective due, creation; or one timestamp ascending. */
  predicate Precedes(o: Order, a: Row, b: Row) {
    match o
    case ClaimOrder =>
      || a.made.priority > b.made.priority
      || (a.made.priority == b.made.priority
          && (|| EffectiveDue(a) < EffectiveDue(b)
              || (EffectiveDue(a) == EffectiveDue(b) && a.createdAt < b.createdAt)))
    case DeadlineOrder => Stamp(a.made.expiresAt) < Stamp(b.made.expiresAt)
    case PassOrder(p) => Stamp(PassStamp(p, a)) < Stamp(PassStamp(p, b))
  }

  /** picked is what ORDER BY o LIMIT limit may return for the rows of pool. */
  predicate Selected(t: Table, pool: set<Id>, o: Order, limit: nat, picked: seq<Id>) {
    && pool <= t.Keys
    && NoDup(picked)
    && Elements(picked) <= pool
    && |picked| == (if limit < |pool| then limit else |pool|)
    && (forall i, j | 0 <= i < j < |picked| && picked[i] in t && picked[j] in t ::
          !Precedes(o, t[picked[j]], t[picked[i]]))
    && (forall x, y :: x in pool && x in t && x !in picked && y in picked && y in t ==> !Precedes(o, t[x], t[y]))
  }

  /** A row of pool nothing else in pool precedes. */
  method First(t: Table, pool: set<Id>, o: Order) returns (best: Id)
    requires pool <= t.Keys && pool != {}
    ensures best in pool
    ensures forall x :: x in pool ==> !Precedes(o, t[x], t[best])
  {
    best :| best in pool;
    var rest := pool - {best};
    while rest != {}
      invariant rest <= pool && best in pool
      invariant forall x :: x in pool && x !in rest ==> !Precedes(o, t[x], t[best])
      decreases rest
    {
      var x :| x in rest;
      if Precedes(o, t[x], t[best]) {
        best := x;
      }
      rest := rest - {x};
    }
  }

  /** Part of an answer: picked so far, in order, nothing left preceding any of it. */
  predicate Filled(t: Table, pool: set<Id>, o: Order, picked: seq<Id>, rest: set<Id>) {
    && pool <= t.Keys && rest <= pool && NoDup(picked)
    && (forall y :: y in picked ==> y in pool && y !in rest)
    && (forall y :: y in pool ==> y in rest || y in picked)
    && (forall i, j | 0 <= i < j < |picked| && picked[i] in t && picked[j] in t ::
          !Precedes(o, t[picked[j]], t[picked[i]]))
    && (forall x, y :: x in rest && x in t && y in picked && y in t ==> !Precedes(o, t[x], t[y]))
  }

  lemma FilledGrows(t: Table, pool: set<Id>, o: Order, picked: seq<Id>, rest: set<Id>, x: Id)
    requires Filled(t, pool, o, picked, rest) && x in rest
    requires forall y :: y in rest ==> !Precedes(o, t[y], t[x])
    ensures Filled(t, pool, o, picked + [x], rest - {x})
  {
    var more := picked + [x];
    forall i, j | 0 <= i < j < |more| ensures more[i] != more[j] {
      assert picked == more[..|picked|];
      assert more[i] in picked;
    }
    forall y | y in more ensures y in pool && y !in rest - {x} {
      assert y in picked || y == x;
    }
    forall y | y in pool ensures y in rest - {x} || y in more {
      if y in picked {
        var k :| 0 <= k < |picked| && picked[k] == y;
        assert more[k] == y;
      } else if y == x {
        assert more[|picked|] == y;
      }
    }
  }

  /** Repeatedly take a first row: this is an ORDER BY ... LIMIT. */
  method Select(t: Table, pool: set<Id>, o: Order, limit: nat) returns (picked: seq<Id>)
    requires pool <= t.Keys
    ensures Selected(t, pool, o, limit, picked)
  {
    picked := [];
    var rest := pool;
    while |picked| < limit && rest != {}
      invariant Filled(t, pool, o, picked, rest)
      invariant |picked| <= limit && |picked| + |rest| == |pool|
      decreases rest
    {
      var x := First(t, rest, o);
      FilledGrows(t, pool, o, picked, rest, x);
      picked := picked + [x];
      rest := rest - {x};
    }
  }

  lemma {:induction false} FirstExists(t: Table, pool: set<Id>, o: Order) returns (best: Id)
    requires pool <= t.Keys && pool != {}
    ensures best in pool
    ensures forall x :: x in pool ==> !Precedes(o, t[x], t[best])
  {
    best :| best in pool;
    if pool != {best} {
      var other := FirstExists(t, pool - {best}, o);
      if Precedes(o, t[other], t[best]) {
        best := other;
      }
    }
  }

  lemma {:induction false} FillUp(t: Table, pool: set<Id>, o: Order, limit: nat, picked: seq<Id>, rest: set<Id>)
    returns (full: seq<Id>)
    requires Filled(t, pool, o, picked, rest) && |picked| <= limit && |picked| + |rest| == |pool|
    ensures Selected(t, pool, o, limit, full)
    decreases rest
  {
    if |picked| == limit || rest == {} {
      full := picked;
    } else {
      var x := FirstExists(t, rest, o);
      FilledGrows(t, pool, o, picked, rest, x);
      full := FillUp(t, pool, o, limit, picked + [x], rest - {x});
    }
  }

  /** The query always has an answer; with room for the whole pool it holds all of it. */
  lemma SelectionExists(t: Table, pool: set<Id>, o: Order, limit: nat) returns (picked: seq<Id>)
    requires pool <= t.Keys
    ensures Selected(t, pool, o, limit, picked)
    ensures limit >= |pool| ==> forall x :: x in pool ==> x in picked
  {
    picked := FillUp(t, pool, o, limit, [], pool);
    ElementsCount(picked);
    SubsetCount(Elements(picked), pool);
    if limit >= |pool| {
      forall x | x in pool ensures x in picked {
        assert x in Elements(picked);
      }
    }
  }

  /** An answer shorter than the limit is the whole pool. */
  lemma TakesWholePool(t: Table, pool: set<Id>, o: Order, limit: nat, picked: seq<Id>)
    requires Selected(t, pool, o, limit, picked)
    ensures forall x :: x in picked ==> x in pool
    ensures |picked| < limit ==> forall x :: x in pool ==> x in picked
  {
    forall x | x in picked ensures x in pool {
      assert x in Elements(picked);
    }
    ElementsCount(picked);
    SubsetCount(Elements(picked), pool);
    if |picked| < limit {
      forall x | x in pool ensures x in picked {
        assert x in Elements(picked);
      }
    }
  }

  /** Two rows the order cannot tell apart. */
  predicate Tie(o: Order, a: Row, b: Row) {
    !Precedes(o, a, b) && !Precedes(o, b, a)
  }

  lemma PrecedesIsWeakOrder(o: Order, a: Row, b: Row, c: Row)
    ensures !Precedes(o, a, a)
    ensures Precedes(o, a, b) && !Precedes(o, c, b) ==> Precedes(o, a, c)
    ensures !Precedes(o, b, a) && Precedes(o, b, c) ==> Precedes(o, a, c)
  {
  }

  /** The i-th row of one answer never strictly precedes the i-th row of another. */
  lemma NoEarlierAt(t: Table, pool: set<Id>, o: Order, limit: nat, p: seq<Id>, q: seq<Id>, i: nat)
    requires Selected(t, pool, o, limit, p) && Selected(t, pool, o, limit, q) && i < |p| == |q|
    requires p[i] in t && q[i] in t
    ensures !Precedes(o, t[p[i]], t[q[i]])
  {
    if Precedes(o, t[p[i]], t[q[i]]) {
      var head := p[..i + 1];
      forall x | x in head ensures x in q[..i] {
        var k :| 0 <= k < |head| && head[k] == x;
        assert x in Elements(p) && q[i] in Elements(q);
        PrecedesIsWeakOrder(o, t[p[i]], t[q[i]], t[x]);
        assert Precedes(o, t[x], t[q[i]]) by {
          if k < i {
            assert !Precedes(o, t[p[i]], t[p[k]]);
            PrecedesIsWeakOrder(o, t[x], t[p[i]], t[q[i]]);
          }
        }
        if x in q {
          var m :| 0 <= m < |q| && q[m] == x;
          PrecedesIsWeakOrder(o, t[x], t[x], t[x]);
          assert m < i;
          assert q[..i][m] == x;
        } else {
          assert false;
        }
      }
      ElementsCount(head);
      ElementsCount(q[..i]);
      assert Elements(head) <= Elements(q[..i]);
      SubsetCount(Elements(head), Elements(q[..i]));
    }
  }

  /** The query determines its answer up to ties: position by position the order cannot tell
      two answers apart. */
  lemma AnswerIsUniqueUpToTies(t: Table, pool: set<Id>, o: Order, limit: nat, p: seq<Id>, q: seq<Id>, i: nat)
    requires Selected(t, pool, o, limit, p) && Selected(t, pool, o, limit, q)
    requires i < |p|
    ensures |p| == |q| && p[i] in t && q[i] in t && Tie(o, t[p[i]], t[q[i]])
  {
    assert p[i] in Elements(p) && q[i] in Elements(q);
    NoEarlierAt(t, pool, o, limit, p, q, i);
    NoEarlierAt(t, pool, o, limit, q, p, i);
  }
}
