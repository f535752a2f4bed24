/** The dispatcher loop over an unreliable database and an unreliable transport (dispatcher.py). */
module Dispatching {
  import opened Common
  import opened Pacing

  /** What the dispatcher did and what came of it, in order. */
  datatype Event =
    | Checked(stop: bool)
    | Claimed(limit: nat, ids: seq<Id>)
    | ClaimFailed(limit: nat)
    | Sent(id: Id)
    | SendFailed(id: Id)
    | Released(ids: seq<Id>)
    | ReleaseFailed(ids: seq<Id>)
    | Swept(at: Time, ok: bool)
    | NotDue(at: Time)
    | Beat(ok: bool)
    | AskedDue(ok: bool, due: Option<Time>)
    | ReadClock(now: Time)
    | Settled(raised: bool)
    | Slept(delay: Time)
    | Waited(timeout: Time, ok: bool)
    | Closed

  /** What has happened so far, latest event outermost. */
  datatype Log = Nothing | Then(before: Log, last: Event)

  // --- what a log adds up to ---

  /** Ids claimed, sent and released, with repetitions: a task is claimed again after a release or a
      retry. */
  datatype Books = Books(claimed: multiset<Id>, sent: multiset<Id>, released: multiset<Id>)

  function TakeIn(b: Books, ids: seq<Id>): Books {
    b.(claimed := b.claimed + multiset(ids))
  }

  function Enter(b: Books, e: Event): Books {
    match e
    case Claimed(_, ids) => TakeIn(b, ids)
    case Sent(id) => b.(sent := b.sent + multiset{id})
    case Released(ids) => b.(released := b.released + multiset(ids))
    case _ => b
  }

  function BooksOf(log: Log): Books {
    match log
    case Nothing => Books(multiset{}, multiset{}, multiset{})
    case Then(before, last) => Enter(BooksOf(before), last)
  }

  /** Every claim was sent, released or is held, each in one of the three only. */
  predicate Balanced(b: Books, held: seq<Id>) {
    b.claimed == b.sent + b.released + multiset(held)
  }

  /** What the last failed release left behind, unless a later one succeeded. */
  function Stranded(log: Log): seq<Id> {
    match log
    case Nothing => []
    case Then(before, last) =>
      match last
      case ReleaseFailed(ids) => ids
      case Released(_) => []
      case _ => Stranded(before)
  }

  /** No claim was attempted while something was stranded. */
  predicate Clear(log: Log) {
    match log
    case Nothing => true
    case Then(before, last) => Clear(before) && (last.Claimed? || last.ClaimFailed? ==> Stranded(before) == [])
  }

  /** Failures of the database in a row: releases that failed and iterations that raised, since it
      last took a stranded release back or an iteration left nothing stranded. */
  function Failures(log: Log): nat {
    match log
    case Nothing => 0
    case Then(before, last) =>
      match last
      case ReleaseFailed(_) => Failures(before) + 1
      case Released(_) => if Stranded(before) != [] then 0 else Failures(before)
      case Settled(raised) =>
        if raised then Failures(before) + 1 else if Stranded(before) == [] then 0 else Failures(before)
      case _ => Failures(before)
  }

  /** How many ids of the last batch have not been tried yet. */
  function Unsent(log: Log): nat {
    match log
    case Nothing => 0
    case Then(before, last) =>
      match last
      case Claimed(_, ids) => |ids|
      case Sent(_) => if Unsent(before) == 0 then 0 else Unsent(before) - 1
      case SendFailed(_) => 0
      case _ => Unsent(before)
  }

  /** Refusals of the transport in a row, since it last took a whole batch or there was none. */
  function Refusals(log: Log): nat {
    match log
    case Nothing => 0
    case Then(before, last) =>
      match last
      case Claimed(_, ids) => if ids == [] then 0 else Refusals(before)
      case Sent(_) => if Unsent(before) == 1 then 0 else Refusals(before)
      case SendFailed(_) => Refusals(before) + 1
      case _ => Refusals(before)
  }

  /** When the loop last swept, and when it last asked whether to. */
  function LastSweep(log: Log): Option<Time> {
    match log
    case Nothing => None
    case Then(before, last) => if last.Swept? then Some(last.at) else LastSweep(before)
  }

  function LastPoll(log: Log): Time {
    match log
    case Nothing => 0.0
    case Then(before, last) => if last.Swept? || last.NotDue? then last.at else LastPoll(before)
  }

  /** The loop swept exactly when the sweep clock said so, at readings that never went back. */
  predicate SweepsAreDue(log: Log, interval: Option<Time>) {
    match log
    case Nothing => true
    case Then(before, last) =>
      && SweepsAreDue(before, interval)
      && (last.Swept? ==> IsDue(interval, LastSweep(before), last.at) && last.at >= LastPoll(before))
      && (last.NotDue? ==> !IsDue(interval, LastSweep(before), last.at) && last.at >= LastPoll(before))
  }

  /** The readings of the sweep clock, and those at which the loop swept. */
  function Polls(log: Log): seq<Time> {
    match log
    case Nothing => []
    case Then(before, last) => if last.Swept? || last.NotDue? then Polls(before) + [last.at] else Polls(before)
  }

  function SweptAt(log: Log): seq<Time> {
    match log
    case Nothing => []
    case Then(before, last) => if last.Swept? then SweptAt(before) + [last.at] else SweptAt(before)
  }

  /** The sweeps of a log are the True answers of a new sweep clock to its readings. */
  lemma {:induction false} SweepsAreTrueAnswers(log: Log, interval: Option<Time>)
    requires SweepsAreDue(log, interval)
    ensures SweptAt(log) == TrueAt(interval, None, Polls(log)) && LastSweep(log) == LastOf(None, SweptAt(log))
    ensures LastPoll(log) >= 0.0
    ensures forall i :: 0 <= i < |Polls(log)| ==> 0.0 <= Polls(log)[i] <= LastPoll(log)
  {
    match log
    case Nothing =>
    case Then(before, last) =>
      SweepsAreTrueAnswers(before, interval);
      if last.Swept? || last.NotDue? {
        OneMoreReading(interval, None, Polls(before), last.at);
      }
  }

  /** The loop's times: the idle poll, the base and caps of its two backoffs, the sweep interval. */
  datatype Pace = Pace(idle: Time, base: Time, dispatchCap: Time, databaseCap: Time, sweep: Option<Time>)

  /** The larger of the two retry delays after this log. */
  function Owed(log: Log, p: Pace): Time {
    MaxOf(DelayAfter(p.base, p.dispatchCap, Refusals(log)), DelayAfter(p.base, p.databaseCap, Failures(log)))
  }

  /** The wait the schedule allows after this log: bounded by the next wake-up if the iteration has
      just read it, the idle poll if something raised. */
  function Wake(log: Log, idle: Time): (wait: Time)
    ensures wait <= idle && (idle > 0.0 ==> wait > 0.0)
  {
    if log.Then? && log.last == Settled(false) && log.before.Then? && log.before.last.ReadClock?
       && log.before.before.Then? && log.before.before.last.AskedDue?
    then BoundedWait(idle, log.before.before.last.due, log.before.last.now)
    else idle
  }

  /** Every wait for work lasted what the schedule read just before it allows, and every sleep was
      positive and no longer than the larger retry delay at the time. */
  predicate WaitsAreRight(log: Log, p: Pace) {
    match log
    case Nothing => true
    case Then(before, last) =>
      && WaitsAreRight(before, p)
      && (last.Waited? ==> last.timeout == Wake(before, p.idle))
      && (last.Slept? ==> 0.0 < last.delay <= Owed(before, p))
  }

  // --- one iteration after the other ---

  /** The iteration a log is in, or was in last: whether it is open, whether claims were stranded when it
      began, the attempts to release those, the readings of the sweep clock, whether nothing was stranded at
      the last one, the claims tried and the ids sent. settled counts the iterations that have ended. */
  datatype Turn = Turn(
    open: bool, held: bool, retries: nat, polls: nat, free: bool, claims: nat, sent: nat, settled: nat)

  function TurnOf(log: Log): Turn {
    match log
    case Nothing => Turn(false, false, 0, 0, false, 0, 0, 0)
    case Then(before, last) =>
      var t := TurnOf(before);
      match last
      case Checked(stop) => Turn(!stop, Stranded(before) != [], 0, 0, false, 0, 0, t.settled)
      case Released(_) => if t.polls == 0 then t.(retries := t.retries + 1) else t
      case ReleaseFailed(_) => if t.polls == 0 then t.(retries := t.retries + 1) else t
      case Swept(_, _) => t.(polls := t.polls + 1, free := Stranded(before) == [])
      case NotDue(_) => t.(polls := t.polls + 1, free := Stranded(before) == [])
      case Claimed(_, _) => t.(claims := t.claims + 1)
      case ClaimFailed(_) => t.(claims := t.claims + 1)
      case Sent(_) => t.(sent := t.sent + 1)
      case Settled(_) => t.(open := false, settled := t.settled + 1)
      case _ => t
  }

  /** The iteration has tried to release what was stranded, once, and has not read the sweep clock yet. */
  predicate Recovering(t: Turn) {
    t.open && t.polls == 0 && t.retries == if t.held then 1 else 0
  }

  /** The iteration has read the sweep clock once and tried one claim, or none if claims are stranded. */
  predicate Served(t: Turn) {
    t.open && t.polls == 1 && t.claims == if t.free then 1 else 0
  }

  /** The stop event is looked at before the first iteration, and again once an iteration has slept, has
      waited for work without the wait raising, or has sent a full batch. */
  predicate MayCheck(log: Log, batchSize: nat) {
    log.Nothing? || match log.last
                    case Slept(_) => true
                    case Waited(_, ok) => ok
                    case Settled(raised) => !raised && TurnOf(log).sent >= batchSize
                    case Closed => true
                    case _ => false
  }

  /** What is stranded is released first of all, and the rest of a batch when a send has failed. */
  predicate MayRelease(log: Log, ids: seq<Id>) {
    var t := TurnOf(log);
    t.open && log.Then?
    && if t.polls == 0 then t.retries == 0 && t.held && ids == Stranded(log) else log.last.SendFailed?
  }

  /** Why an iteration has raised. */
  predicate Raises(e: Event) {
    e.ClaimFailed? || (e.AskedDue? && !e.ok)
  }

  /** When the loop may do e. */
  predicate Fits(log: Log, e: Event, batchSize: nat) {
    var t := TurnOf(log);
    match e
    case Checked(_) => MayCheck(log, batchSize)
    case Released(ids) => MayRelease(log, ids)
    case ReleaseFailed(ids) => MayRelease(log, ids)
    case Beat(_) => Recovering(t)
    case Swept(_, _) => Recovering(t)
    case NotDue(_) => Recovering(t)
    case Claimed(limit, ids) => t.open && t.polls == 1 && t.claims == 0 && limit == batchSize && |ids| <= limit
    case ClaimFailed(limit) => t.open && t.polls == 1 && t.claims == 0 && limit == batchSize
    case Sent(_) => t.open && t.claims == 1
    case SendFailed(_) => t.open && t.claims == 1
    case AskedDue(_, _) => Served(t)
    case ReadClock(_) => t.open && log.Then? && log.last.AskedDue? && log.last.ok
    case Settled(raised) => Served(t) && log.Then? && (if raised then Raises(log.last) else log.last.ReadClock?)
    case Slept(_) => log.Then? && log.last.Settled?
    case Waited(_, _) => log.Then? && log.last.Settled? && (log.last.raised || t.sent < batchSize)
    case Closed => log.Then? && (log.last.Checked? || (log.last.Waited? && !log.last.ok))
  }

  /** The loop did everything in its turn: a check that did not answer set, then the stranded release, the
      heartbeat, one reading of the sweep clock, one claim of a batch unless something is stranded, the
      schedule, the end of the iteration, and a pause unless the batch was full. */
  predicate Orderly(log: Log, batchSize: nat) {
    match log
    case Nothing => true
    case Then(before, last) => Orderly(before, batchSize) && Fits(before, last, batchSize)
  }

  /** A key put into a dict: at the end unless it is there already. */
  function Put(keys: seq<Id>, x: Id): seq<Id> {
    if x in keys then keys else keys + [x]
  }

  function Keys(s: seq<Id>, n: nat): seq<Id>
    requires n <= |s|
  {
    if n == 0 then [] else Put(Keys(s, n - 1), s[n - 1])
  }

  /** list(dict.fromkeys(s)): first occurrences, in order. */
  function Dedup(s: seq<Id>): seq<Id> {
    Keys(s, |s|)
  }

  lemma PutIsDistinct(keys: seq<Id>, x: Id)
    requires NoDup(keys)
    ensures NoDup(Put(keys, x)) && x in Put(keys, x) && |Put(keys, x)| <= |keys| + 1
    ensures forall y :: y in Put(keys, x) <==> y in keys || y == x
  {
  }

  lemma {:induction false} KeysAreDistinct(s: seq<Id>, n: nat)
    requires n <= |s|
    ensures NoDup(Keys(s, n)) && |Keys(s, n)| <= n
    ensures forall y :: y in Keys(s, n) <==> y in s[..n]
  {
    if n == 0 {
    } else {
      KeysAreDistinct(s, n - 1);
      PutIsDistinct(Keys(s, n - 1), s[n - 1]);
      assert s[..n] == s[..n - 1] + [s[n - 1]];
    }
  }

  lemma {:induction false} DistinctKeysStay(s: seq<Id>, n: nat)
    requires NoDup(s) && n <= |s|
    ensures Keys(s, n) == s[..n]
  {
    if n == 0 {
    } else {
      DistinctKeysStay(s, n - 1);
      assert s[n - 1] !in s[..n - 1];
      assert s[..n] == s[..n - 1] + [s[n - 1]];
    }
  }

  lemma DedupIsDistinct(s: seq<Id>)
    ensures NoDup(Dedup(s)) && |Dedup(s)| <= |s|
    ensures forall y :: y in Dedup(s) <==> y in s
    ensures NoDup(s) ==> Dedup(s) == s
  {
    KeysAreDistinct(s, |s|);
    assert s[..|s|] == s;
    if NoDup(s) {
      DistinctKeysStay(s, |s|);
    }
  }

  // --- the outside world ---

  /** One answer of the outside: whether the call raised, what it returned, and the time it took. */
  datatype Reply = Reply(ok: bool, ids: seq<Id>, due: Option<Time>, wall: Time, elapsed: Time)

  /** Backend, transport, clocks and stop event, answering from an arbitrary script; once the
      script has run out every call raises. */
  function NextReply(script: seq<Reply>): Reply {
    if script == [] then Reply(false, [], None, 0.0, 0.0) else script[0]
  }

  function Rest(script: seq<Reply>): seq<Reply> {
    if script == [] then [] else script[1..]
  }

  class World {
    var script: seq<Reply>
    var clock: Time
    var log: Log

    constructor (script: seq<Reply>)
      ensures this.script == script && clock == 0.0 && log == Nothing
    {
      this.script, clock, log := script, 0.0, Nothing;
    }

    method Answer() returns (r: Reply)
      modifies this`script, this`clock
      ensures clock >= old(clock)
      ensures r == NextReply(old(script)) && script == Rest(old(script))
    {
      r := Reply(false, [], None, 0.0, 0.0);
      if script != [] {
        r, script := script[0], script[1..];
      }
      clock := clock + MaxOf(0.0, r.elapsed);
    }

    method Claim(limit: nat) returns (r: Option<seq<Id>>)
      modifies this
      ensures clock >= old(clock)
      ensures log == Then(old(log), if r.None? then ClaimFailed(limit) else Claimed(limit, r.value))
      ensures r.Some? ==> |r.value| <= limit && NoDup(r.value)
      ensures script == Rest(old(script)) && (r.Some? <==> NextReply(old(script)).ok)
      ensures r.Some? && r.value == [] ==> limit == 0 || NextReply(old(script)).ids == []
    {
      var reply := Answer();
      if !reply.ok {
        log := Then(log, ClaimFailed(limit));
        return None;
      }
      DedupIsDistinct(reply.ids);
      var ids := Dedup(reply.ids);
      assert reply.ids != [] ==> reply.ids[0] in ids;
      ids := if |ids| <= limit then ids else ids[..limit];
      log := Then(log, Claimed(limit, ids));
      r := Some(ids);
    }

    method Release(ids: seq<Id>) returns (ok: bool)
      modifies this
      ensures clock >= old(clock)
      ensures log == Then(old(log), if ok then Released(ids) else ReleaseFailed(ids))
      ensures script == Rest(old(script)) && ok == NextReply(old(script)).ok
    {
      var reply := Answer();
      ok := reply.ok;
      log := Then(log, if ok then Released(ids) else ReleaseFailed(ids));
    }

    method Send(id: Id) returns (ok: bool)
      modifies this
      ensures clock >= old(clock)
      ensures log == Then(old(log), if ok then Sent(id) else SendFailed(id))
      ensures script == Rest(old(script)) && ok == NextReply(old(script)).ok
    {
      var reply := Answer();
      ok := reply.ok;
      log := Then(log, if ok then Sent(id) else SendFailed(id));
    }

    /** A call that matters to the loop only by raising or not. */
    method Do(e: Event) returns (ok: bool)
      modifies this
      ensures clock >= old(clock)
      ensures log == Then(old(log), e)
    {
      var reply := Answer();
      ok := reply.ok;
      log := Then(log, e);
    }

    method NextDue() returns (ok: bool, due: Option<Time>)
      modifies this
      ensures clock >= old(clock)
      ensures log == Then(old(log), AskedDue(ok, due)) && ok == NextReply(old(script)).ok
    {
      var reply := Answer();
      ok, due := reply.ok, reply.due;
      log := Then(log, AskedDue(ok, due));
    }

    method WallClock() returns (now: Time)
      modifies this
      ensures clock >= old(clock)
      ensures log == Then(old(log), ReadClock(now))
    {
      var reply := Answer();
      now := reply.wall;
      log := Then(log, ReadClock(now));
    }

    method Monotonic() returns (now: Time)
      modifies this`script, this`clock
      ensures clock >= old(clock) && now == clock && script == Rest(old(script))
    {
      var reply := Answer();
      now := clock;
    }

    method WaitForWork(timeout: Time) returns (ok: bool)
      modifies this
      ensures clock >= old(clock)
      ensures log == Then(old(log), Waited(timeout, ok)) && ok == NextReply(old(script)).ok
    {
      var reply := Answer();
      ok := reply.ok;
      log := Then(log, Waited(timeout, ok));
    }

    method StopIsSet() returns (stop: bool)
      modifies this
      ensures clock >= old(clock)
      ensures log == Then(old(log), Checked(stop))
      ensures script == Rest(old(script)) && stop == NextReply(old(script)).ok
    {
      var reply := Answer();
      stop := reply.ok;
      log := Then(log, Checked(stop));
    }
  }

  /** The first n ids sent, in order. */
  function Sends(log: Log, ids: seq<Id>, n: nat): Log
    requires n <= |ids|
  {
    if n == 0 then log else Then(Sends(log, ids, n - 1), Sent(ids[n - 1]))
  }

  /** n ids sent in order, and the failure that stopped there, if one did. */
  function Attempts(log: Log, ids: seq<Id>, n: nat): Log
    requires n <= |ids|
  {
    if n == |ids| then Sends(log, ids, n) else Then(Sends(log, ids, n), SendFailed(ids[n]))
  }

  /** The trace of one batch: n ids sent in order; if one then fails, the rest go back at once. */
  function BatchLog(log: Log, limit: nat, ids: seq<Id>, n: nat, releaseOk: bool): Log
    requires n <= |ids|
  {
    var tried := Attempts(Then(log, Claimed(limit, ids)), ids, n);
    if n == |ids| then tried
    else Then(tried, if releaseOk then Released(ids[n..]) else ReleaseFailed(ids[n..]))
  }

  function SentBooks(b: Books, ids: seq<Id>, n: nat): Books
    requires n <= |ids|
  {
    if n == 0 then b else Enter(SentBooks(b, ids, n - 1), Sent(ids[n - 1]))
  }

  /** The books after a batch. */
  function BatchBooks(b: Books, ids: seq<Id>, n: nat, releaseOk: bool): Books
    requires n <= |ids|
  {
    var c := SentBooks(TakeIn(b, ids), ids, n);
    if n == |ids| then c else Enter(c, if releaseOk then Released(ids[n..]) else ReleaseFailed(ids[n..]))
  }

  lemma {:induction false} SentInAll(b: Books, ids: seq<Id>, n: nat)
    requires n <= |ids|
    ensures SentBooks(b, ids, n) == b.(sent := b.sent + multiset(ids[..n]))
  {
    if n == 0 {
      assert ids[..0] == [];
    } else {
      SentInAll(b, ids, n - 1);
      assert ids[..n] == ids[..n - 1] + [ids[n - 1]];
      assert multiset(ids[..n]) == multiset(ids[..n - 1]) + multiset{ids[n - 1]};
    }
  }

  lemma {:induction false} SendsBooks(log: Log, ids: seq<Id>, n: nat)
    requires n <= |ids|
    ensures BooksOf(Sends(log, ids, n)) == SentBooks(BooksOf(log), ids, n)
  {
    if n == 0 {
    } else {
      SendsBooks(log, ids, n - 1);
    }
  }

  lemma AttemptsBooks(log: Log, ids: seq<Id>, n: nat)
    requires n <= |ids|
    ensures BooksOf(Attempts(log, ids, n)) == SentBooks(BooksOf(log), ids, n)
  {
    SendsBooks(log, ids, n);
  }

  lemma BatchLogBooks(log: Log, limit: nat, ids: seq<Id>, n: nat, releaseOk: bool)
    requires n <= |ids|
    ensures BooksOf(BatchLog(log, limit, ids, n, releaseOk)) == BatchBooks(BooksOf(log), ids, n, releaseOk)
  {
    AttemptsBooks(Then(log, Claimed(limit, ids)), ids, n);
  }

  lemma SplitBatch(ids: seq<Id>, n: nat)
    requires n <= |ids|
    ensures multiset(ids) == multiset(ids[..n]) + multiset(ids[n..])
  {
    assert ids == ids[..n] + ids[n..];
  }

  /** One batch, begun with nothing held, keeps the books balanced: what it claimed it has sent,
      released or left stranded. */
  lemma BatchBalances(b: Books, ids: seq<Id>, n: nat, releaseOk: bool)
    requires n <= |ids| && Balanced(b, [])
    ensures Balanced(BatchBooks(b, ids, n, releaseOk), if n == |ids| || releaseOk then [] else ids[n..])
  {
    SplitBatch(ids, n);
    SentInAll(TakeIn(b, ids), ids, n);
    assert ids[..|ids|] == ids;
  }

  lemma {:induction false} SendsWaitNothing(log: Log, ids: seq<Id>, n: nat, p: Pace)
    requires n <= |ids|
    ensures WaitsAreRight(Sends(log, ids, n), p) == WaitsAreRight(log, p)
  {
    if n == 0 {
    } else {
      SendsWaitNothing(log, ids, n - 1, p);
    }
  }

  lemma BatchWaitsNothing(log: Log, limit: nat, ids: seq<Id>, n: nat, releaseOk: bool, p: Pace)
    requires n <= |ids|
    ensures WaitsAreRight(BatchLog(log, limit, ids, n, releaseOk), p) == WaitsAreRight(log, p)
  {
    SendsWaitNothing(Then(log, Claimed(limit, ids)), ids, n, p);
  }

  /** n ids of a batch sent: the transport's refusals are forgotten with the last of them. */
  lemma {:induction false} SendsCount(log: Log, ids: seq<Id>, n: nat)
    requires n <= |ids| && Unsent(log) == |ids|
    ensures Unsent(Sends(log, ids, n)) == |ids| - n
    ensures Refusals(Sends(log, ids, n)) == if n == |ids| && n > 0 then 0 else Refusals(log)
    ensures Failures(Sends(log, ids, n)) == Failures(log)
    ensures Stranded(Sends(log, ids, n)) == Stranded(log) && Clear(Sends(log, ids, n)) == Clear(log)
  {
    if n == 0 {
    } else {
      SendsCount(log, ids, n - 1);
    }
  }

  lemma {:induction false} SendsSweepNothing(log: Log, ids: seq<Id>, n: nat, interval: Option<Time>)
    requires n <= |ids|
    ensures LastSweep(Sends(log, ids, n)) == LastSweep(log) && LastPoll(Sends(log, ids, n)) == LastPoll(log)
    ensures SweepsAreDue(Sends(log, ids, n), interval) == SweepsAreDue(log, interval)
  {
    if n == 0 {
    } else {
      SendsSweepNothing(log, ids, n - 1, interval);
    }
  }

  lemma BatchSweepsNothing(log: Log, limit: nat, ids: seq<Id>, n: nat, releaseOk: bool, interval: Option<Time>)
    requires n <= |ids|
    ensures var after := BatchLog(log, limit, ids, n, releaseOk);
      && LastSweep(after) == LastSweep(log) && LastPoll(after) == LastPoll(log)
      && SweepsAreDue(after, interval) == SweepsAreDue(log, interval)
  {
    SendsSweepNothing(Then(log, Claimed(limit, ids)), ids, n, interval);
  }

  lemma AttemptsCount(log: Log, ids: seq<Id>, n: nat)
    requires n <= |ids| && Unsent(log) == |ids| && (ids == [] ==> Refusals(log) == 0)
    ensures Refusals(Attempts(log, ids, n)) == if n == |ids| then 0 else Refusals(log) + 1
    ensures Failures(Attempts(log, ids, n)) == Failures(log)
    ensures Stranded(Attempts(log, ids, n)) == Stranded(log) && Clear(Attempts(log, ids, n)) == Clear(log)
  {
    SendsCount(log, ids, n);
  }

  /** What one batch, begun with nothing stranded, does to the two counts of failures. */
  lemma BatchCounts(log: Log, limit: nat, ids: seq<Id>, n: nat, releaseOk: bool)
    requires n <= |ids| && Stranded(log) == []
    ensures var after := BatchLog(log, limit, ids, n, releaseOk);
      && Refusals(after) == (if n == |ids| then 0 else Refusals(log) + 1)
      && Failures(after) == (if n == |ids| || releaseOk then Failures(log) else Failures(log) + 1)
      && Stranded(after) == (if n == |ids| || releaseOk then [] else ids[n..])
      && Clear(after) == Clear(log)
  {
    AttemptsCount(Then(log, Claimed(limit, ids)), ids, n);
  }

  /** Every iteration reads the sweep clock once. */
  lemma {:induction false} OneReadingEach(log: Log, batchSize: nat)
    requires Orderly(log, batchSize)
    ensures |Polls(log)| == TurnOf(log).settled + if TurnOf(log).open then TurnOf(log).polls else 0
    ensures log.Then? && (log.last.Settled? || log.last.Slept? || log.last.Waited?) ==> !TurnOf(log).open
    ensures log.Then? && (log.last.Checked? || log.last.Closed?) ==> !TurnOf(log).open || TurnOf(log).polls == 0
  {
    match log
    case Nothing =>
    case Then(before, last) =>
      OneReadingEach(before, batchSize);
  }

  lemma {:induction false} SendsInTurn(log: Log, ids: seq<Id>, n: nat, batchSize: nat)
    requires n <= |ids| && Orderly(log, batchSize) && TurnOf(log).open && TurnOf(log).claims == 1
    ensures Orderly(Sends(log, ids, n), batchSize)
    ensures TurnOf(Sends(log, ids, n)) == TurnOf(log).(sent := TurnOf(log).sent + n)
  {
    if n == 0 {
    } else {
      SendsInTurn(log, ids, n - 1, batchSize);
    }
  }

  /** A batch in its turn, claimed with the batch size. */
  lemma BatchInTurn(log: Log, ids: seq<Id>, n: nat, releaseOk: bool, batchSize: nat)
    requires n <= |ids| <= batchSize && Orderly(log, batchSize)
    requires TurnOf(log).open && TurnOf(log).polls == 1 && TurnOf(log).claims == 0
    ensures Orderly(BatchLog(log, batchSize, ids, n, releaseOk), batchSize)
    ensures TurnOf(BatchLog(log, batchSize, ids, n, releaseOk))
      == TurnOf(log).(claims := 1, sent := TurnOf(log).sent + n)
  {
    SendsInTurn(Then(log, Claimed(batchSize, ids)), ids, n, batchSize);
  }

  /** What the loop keeps of its log and the claims it holds: the books balance, the held claims are
      the stranded ones, distinct and at most a batch, and left by a failure of the database that
      still counts; no claim was tried while any were held; waits, sleeps and sweeps were in time; and
      everything was done in its turn. */
  predicate Sound(log: Log, held: seq<Id>, batchSize: nat, p: Pace) {
    && Balanced(BooksOf(log), held)
    && held == Stranded(log) && NoDup(held) && |held| <= batchSize && (held != [] ==> Failures(log) >= 1)
    && Clear(log) && WaitsAreRight(log, p) && SweepsAreDue(log, p.sweep) && Orderly(log, batchSize)
  }

  lemma RestIsDistinct(ids: seq<Id>, n: nat)
    requires n <= |ids| && NoDup(ids)
    ensures NoDup(ids[n..]) && Dedup([] + ids[n..]) == ids[n..]
  {
    var rest := ids[n..];
    assert NoDup(rest) by {
      assert forall i :: 0 <= i < |rest| ==> rest[i] == ids[n + i];
    }
    assert [] + rest == rest;
    DedupIsDistinct(rest);
  }

  /** One batch, begun with nothing held, is sound. */
  lemma BatchIsSound(log: Log, ids: seq<Id>, n: nat, releaseOk: bool, held: seq<Id>, batchSize: nat, p: Pace)
    requires Sound(log, [], batchSize, p) && n <= |ids| <= batchSize && NoDup(ids)
    requires TurnOf(log).open && TurnOf(log).polls == 1 && TurnOf(log).claims == 0
    requires held == if n == |ids| || releaseOk then [] else ids[n..]
    ensures Sound(BatchLog(log, batchSize, ids, n, releaseOk), held, batchSize, p)
  {
    BatchInTurn(log, ids, n, releaseOk, batchSize);
    BatchLogBooks(log, batchSize, ids, n, releaseOk);
    BatchBalances(BooksOf(log), ids, n, releaseOk);
    BatchWaitsNothing(log, batchSize, ids, n, releaseOk, p);
    BatchSweepsNothing(log, batchSize, ids, n, releaseOk, p.sweep);
    BatchCounts(log, batchSize, ids, n, releaseOk);
    RestIsDistinct(ids, n);
  }

  /** The log is sound, and the two retry delays are those of the failures in a row it shows. */
  predicate Recorded(log: Log, held: seq<Id>, batchSize: nat, p: Pace, transport: Time, database: Time) {
    && Sound(log, held, batchSize, p)
    && transport == DelayAfter(p.base, p.dispatchCap, Refusals(log))
    && database == DelayAfter(p.base, p.databaseCap, Failures(log))
  }

  lemma NeutralIsRecorded(log: Log, held: seq<Id>, batchSize: nat, p: Pace, transport: Time, database: Time, e: Event)
    requires Recorded(log, held, batchSize, p, transport, database)
    requires e.Checked? || e.Beat? || e.AskedDue? || e.ReadClock? || e.Closed? || (e.ClaimFailed? && held == [])
    requires Fits(log, e, batchSize)
    ensures Recorded(Then(log, e), held, batchSize, p, transport, database)
  {
  }

  lemma PollIsRecorded(log: Log, held: seq<Id>, batchSize: nat, p: Pace, transport: Time, database: Time, e: Event)
    requires Recorded(log, held, batchSize, p, transport, database)
    requires (e.Swept? && IsDue(p.sweep, LastSweep(log), e.at)) || (e.NotDue? && !IsDue(p.sweep, LastSweep(log), e.at))
    requires e.at >= LastPoll(log) && Recovering(TurnOf(log))
    ensures Recorded(Then(log, e), held, batchSize, p, transport, database)
  {
  }

  lemma SettlingIsRecorded(log: Log, held: seq<Id>, batchSize: nat, p: Pace, transport: Time, database: Time,
                           raised: bool, after: Time)
    requires Recorded(log, held, batchSize, p, transport, database) && Fits(log, Settled(raised), batchSize)
    requires after ==
      if raised then NextDelay(database, p.base, p.databaseCap) else if held == [] then 0.0 else database
    ensures Recorded(Then(log, Settled(raised)), held, batchSize, p, transport, after)
  {
    SettlingIsSound(log, held, batchSize, p, raised);
    assert Refusals(Then(log, Settled(raised))) == Refusals(log);
  }

  lemma SettlingIsSound(log: Log, held: seq<Id>, batchSize: nat, p: Pace, raised: bool)
    requires Sound(log, held, batchSize, p) && Fits(log, Settled(raised), batchSize)
    ensures Sound(Then(log, Settled(raised)), held, batchSize, p)
  {
  }

  lemma RetryIsRecorded(log: Log, held: seq<Id>, batchSize: nat, p: Pace, transport: Time, database: Time, ok: bool)
    requires Recorded(log, held, batchSize, p, transport, database) && held != []
    requires log.Then? && log.last == Checked(false)
    ensures Recorded(Then(log, if ok then Released(held) else ReleaseFailed(held)), if ok then [] else held,
      batchSize, p, transport, if ok then 0.0 else NextDelay(database, p.base, p.databaseCap))
  {
    if ok {
      ReleaseBalances(BooksOf(log), held);
    }
  }

  lemma ReleaseBalances(b: Books, held: seq<Id>)
    requires Balanced(b, held)
    ensures Balanced(Enter(b, Released(held)), [])
  {
  }

  lemma PauseIsRecorded(log: Log, held: seq<Id>, batchSize: nat, p: Pace, transport: Time, database: Time, e: Event)
    requires Recorded(log, held, batchSize, p, transport, database)
    requires (e.Slept? && 0.0 < e.delay <= Owed(log, p)) || (e.Waited? && e.timeout == Wake(log, p.idle))
    requires Fits(log, e, batchSize)
    ensures Recorded(Then(log, e), held, batchSize, p, transport, database)
  {
  }

  lemma BatchIsRecorded(log: Log, ids: seq<Id>, n: nat, releaseOk: bool, held: seq<Id>, batchSize: nat, p: Pace,
                        transport: Time, database: Time, transportAfter: Time, databaseAfter: Time)
    requires Recorded(log, [], batchSize, p, transport, database) && n <= |ids| <= batchSize && NoDup(ids)
    requires TurnOf(log).open && TurnOf(log).polls == 1 && TurnOf(log).claims == 0
    requires held == if n == |ids| || releaseOk then [] else ids[n..]
    requires transportAfter == if n == |ids| then 0.0 else NextDelay(transport, p.base, p.dispatchCap)
    requires databaseAfter ==
      if n == |ids| || releaseOk then database else NextDelay(database, p.base, p.databaseCap)
    ensures Recorded(BatchLog(log, batchSize, ids, n, releaseOk), held, batchSize, p, transportAfter, databaseAfter)
  {
    BatchIsSound(log, ids, n, releaseOk, held, batchSize, p);
    DelaysAreRecorded(log, batchSize, ids, n, releaseOk, p);
  }

  lemma DelaysAreRecorded(log: Log, limit: nat, ids: seq<Id>, n: nat, releaseOk: bool, p: Pace)
    requires n <= |ids| && Stranded(log) == []
    ensures var after := BatchLog(log, limit, ids, n, releaseOk);
      var transport := DelayAfter(p.base, p.dispatchCap, Refusals(log));
      var database := DelayAfter(p.base, p.databaseCap, Failures(log));
      && DelayAfter(p.base, p.dispatchCap, Refusals(after))
         == (if n == |ids| then 0.0 else NextDelay(transport, p.base, p.dispatchCap))
      && DelayAfter(p.base, p.databaseCap, Failures(after))
         == (if n == |ids| || releaseOk then database else NextDelay(database, p.base, p.databaseCap))
  {
    BatchCounts(log, limit, ids, n, releaseOk);
  }

  /** The world answers one claim, and then nothing any more. */
  predicate DiesAfterClaim(script: seq<Reply>) {
    |script| == 1 && script[0].ok && script[0].ids != []
  }

  class Dispatcher {
    const world: World
    const batchSize: nat
    const idlePoll: Time
    const health: BackoffState
    const dbHealth: BackoffState
    const sweepClock: SweepClock
    const heartbeatClock: SweepClock
    var pendingRelease: seq<Id>

    constructor (world: World, batchSize: nat, idlePoll: Time, sweepInterval: Option<Time>, heartbeatInterval: Time,
                 retryBase: Time, dispatchCap: Time, databaseCap: Time)
      requires batchSize >= 1
      ensures this.world == world && this.batchSize == batchSize
      ensures Parts() && pendingRelease == [] && fresh({health, dbHealth, sweepClock, heartbeatClock})
      ensures ThePace() == Pace(idlePoll, retryBase, dispatchCap, databaseCap, sweepInterval)
      ensures sweepClock.last == None && heartbeatClock.last == None
      ensures heartbeatClock.interval == Some(heartbeatInterval)
      ensures health.retryDelay == 0.0 && dbHealth.retryDelay == 0.0 && OnTime()
    {
      this.world, this.batchSize, this.idlePoll := world, batchSize, idlePoll;
      this.health := new BackoffState(retryBase, dispatchCap);
      this.dbHealth := new BackoffState(retryBase, databaseCap);
      this.sweepClock := new SweepClock(sweepInterval);
      this.heartbeatClock := new SweepClock(Some(heartbeatInterval));
      this.pendingRelease := [];
    }

    ghost predicate Parts() {
      health != dbHealth && health.base == dbHealth.base && sweepClock != heartbeatClock && batchSize >= 1
    }

    ghost function ThePace(): Pace {
      Pace(idlePoll, health.base, health.cap, dbHealth.cap, sweepClock.interval)
    }

    /** The log is sound, and each retry delay is that of the failures in a row the log shows. */
    ghost predicate Kept()
      reads this, world`log, health, dbHealth
    {
      Recorded(world.log, pendingRelease, batchSize, ThePace(), health.retryDelay, dbHealth.retryDelay)
    }

    /** The sweep clock remembers the last sweep, and has been read before now only. */
    ghost predicate Polled()
      reads world`log, world`clock, sweepClock
    {
      sweepClock.last == LastSweep(world.log) && LastPoll(world.log) <= world.clock
    }

    /** Both waits were set by readings of the clock that are past. */
    ghost predicate OnTime()
      reads world`clock, health, dbHealth
    {
      health.SetBy(world.clock) && dbHealth.SetBy(world.clock)
    }

    /** What the loop keeps between iterations. */
    ghost predicate Good()
      reads this, world`log, world`clock, health, dbHealth, sweepClock
    {
      Parts() && Kept() && OnTime() && Polled()
    }

    /** _release_quietly: a release that fails is remembered. */
    method ReleaseQuietly(ids: seq<Id>) returns (ok: bool)
      requires Parts() && OnTime()
      modifies this, world, dbHealth
      ensures world.clock >= old(world.clock) && OnTime()
      ensures world.log == Then(old(world.log), if ok then Released(ids) else ReleaseFailed(ids))
      ensures pendingRelease == if ok then old(pendingRelease) else Dedup(old(pendingRelease) + ids)
      ensures dbHealth.retryDelay ==
        if ok then old(dbHealth.retryDelay) else NextDelay(old(dbHealth.retryDelay), dbHealth.base, dbHealth.cap)
      ensures old(world.script) == [] ==> !ok && world.script == []
    {
      ok := world.Release(ids);
      if !ok {
        pendingRelease := Dedup(pendingRelease + ids);
        var now := world.Monotonic();
        dbHealth.NoteFailure(now);
      }
    }

    /** The sending loop of dispatch_batch: in order, up to the first failure. */
    method SendAll(ids: seq<Id>) returns (n: nat, sent: bool)
      modifies world
      ensures n <= |ids| && (sent <==> n == |ids|)
      ensures world.log == Attempts(old(world.log), ids, n)
      ensures world.clock >= old(world.clock)
      ensures old(world.script) == [] && ids != [] ==> n == 0 && world.script == []
    {
      n, sent := 0, true;
      while n < |ids| && sent
        invariant n <= |ids| && (!sent ==> n < |ids|)
        invariant world.log ==
          if sent then Sends(old(world.log), ids, n) else Then(Sends(old(world.log), ids, n), SendFailed(ids[n]))
        invariant world.clock >= old(world.clock)
        invariant old(world.script) == [] ==> n == 0 && world.script == []
        decreases |ids| - n, sent
      {
        sent := world.Send(ids[n]);
        n := if sent then n + 1 else n;
      }
    }

    /** dispatch_batch: raised when the claim raises, otherwise how many ids the transport took. */
    method DispatchBatch() returns (raised: bool, n: nat, ghost ids: seq<Id>, ghost releaseOk: bool)
      requires Parts() && OnTime()
      modifies this, world, health, dbHealth
      ensures OnTime() && world.clock >= old(world.clock)
      ensures raised ==> n == 0 && world.log == Then(old(world.log), ClaimFailed(batchSize))
      ensures !raised ==> n <= |ids| <= batchSize && NoDup(ids)
      ensures !raised ==> world.log == BatchLog(old(world.log), batchSize, ids, n, releaseOk)
      ensures pendingRelease ==
        if raised || n == |ids| || releaseOk then old(pendingRelease) else Dedup(old(pendingRelease) + ids[n..])
      ensures health.retryDelay ==
        if raised then old(health.retryDelay)
        else if n == |ids| then 0.0
        else NextDelay(old(health.retryDelay), health.base, health.cap)
      ensures dbHealth.retryDelay ==
        if raised || n == |ids| || releaseOk then old(dbHealth.retryDelay)
        else NextDelay(old(dbHealth.retryDelay), dbHealth.base, dbHealth.cap)
      ensures DiesAfterClaim(old(world.script)) ==> !raised && n < |ids| && !releaseOk && world.script == []
    {
      releaseOk := true;
      raised, n, ids := false, 0, [];
      var claim := world.Claim(batchSize);
      if claim.None? {
        raised := true;
        return;
      }
      var taskIds := claim.value;
      ids := taskIds;
      if taskIds == [] {
        health.NoteSuccess();
        return;
      }
      var sent;
      n, sent := SendAll(taskIds);
      assert taskIds[..|taskIds|] == taskIds;
      if !sent {
        releaseOk := ReleaseQuietly(taskIds[n..]);
        var now := world.Monotonic();
        health.NoteFailure(now);
        return;
      }
      health.NoteSuccess();
    }

    /** The loop looks at its stop event. */
    method Check() returns (stop: bool)
      requires Good() && MayCheck(world.log, batchSize)
      modifies world
      ensures Good() && world.clock >= old(world.clock)
      ensures world.log == Then(old(world.log), Checked(stop))
      ensures world.script == Rest(old(world.script)) && stop == NextReply(old(world.script)).ok
    {
      NeutralIsRecorded(world.log, pendingRelease, batchSize, ThePace(), health.retryDelay, dbHealth.retryDelay,
                        Checked(NextReply(world.script).ok));
      stop := world.StopIsSet();
    }

    method Close()
      requires Good() && Fits(world.log, Closed, batchSize)
      modifies world
      ensures Good() && world.log == Then(old(world.log), Closed)
    {
      NeutralIsRecorded(world.log, pendingRelease, batchSize, ThePace(), health.retryDelay, dbHealth.retryDelay,
                        Closed);
      var _ := world.Do(Closed);
    }

    /** An iteration has just begun. */
    ghost predicate Begun()
      reads world`log
    {
      world.log.Then? && world.log.last == Checked(false)
    }

    /** _retry_pending_release: False while the database still refuses. */
    method RetryPendingRelease() returns (ready: bool)
      requires Good() && Begun()
      modifies this, world, dbHealth
      ensures Good() && (ready <==> pendingRelease == [])
      ensures Recovering(TurnOf(world.log)) && TurnOf(world.log).claims == TurnOf(world.log).sent == 0
      ensures TurnOf(world.log).settled == TurnOf(old(world.log)).settled
      ensures world.clock >= old(world.clock)
      ensures old(pendingRelease) == [] ==>
        ready && world.log == old(world.log) && dbHealth.retryDelay == old(dbHealth.retryDelay)
      ensures old(pendingRelease) != [] ==> world.log == Then(old(world.log),
        if ready then Released(old(pendingRelease)) else ReleaseFailed(old(pendingRelease)))
      ensures old(pendingRelease) == [] ==> world.script == old(world.script)
    {
      if pendingRelease == [] {
        return true;
      }
      var taskIds := pendingRelease;
      pendingRelease := [];
      RetryIsRecorded(world.log, taskIds, batchSize, ThePace(), health.retryDelay, dbHealth.retryDelay,
                      NextReply(world.script).ok);
      var ok := world.Release(taskIds);
      if !ok {
        pendingRelease := taskIds;
        var now := world.Monotonic();
        dbHealth.NoteFailure(now);
        return false;
      }
      dbHealth.NoteSuccess();
      return true;
    }

    /** maybe_sweep: a sweep that raises is only logged. */
    method MaybeSweep()
      requires Good() && Recovering(TurnOf(world.log))
      modifies world, sweepClock
      ensures world.clock >= old(world.clock)
      ensures Good() && pendingRelease == old(pendingRelease)
      ensures world.log.Then? && world.log.before == old(world.log)
      ensures world.log.last.Swept? || world.log.last.NotDue?
      ensures TurnOf(world.log) == TurnOf(old(world.log)).(polls := 1, free := pendingRelease == [])
      ensures world.log.last.Swept? <==> IsDue(sweepClock.interval, LastSweep(old(world.log)), world.log.last.at)
      ensures sweepClock.interval.None? ==> world.script == Rest(old(world.script))
    {
      ghost var before := world.log;
      var now := world.Monotonic();
      var due := sweepClock.Due(now);
      if due {
        var reply := world.Answer();
        PollIsRecorded(before, pendingRelease, batchSize, ThePace(), health.retryDelay, dbHealth.retryDelay,
                       Swept(now, reply.ok));
        world.log := Then(world.log, Swept(now, reply.ok));
      } else {
        PollIsRecorded(before, pendingRelease, batchSize, ThePace(), health.retryDelay, dbHealth.retryDelay,
                       NotDue(now));
        world.log := Then(world.log, NotDue(now));
      }
    }

    /** maybe_heartbeat, at a reading of the clock: one that raises costs nothing but a log entry. */
    method MaybeHeartbeat() returns (ghost at: Time)
      requires Good() && Recovering(TurnOf(world.log))
      modifies world, heartbeatClock
      ensures old(world.clock) <= at <= world.clock
      ensures Good() && pendingRelease == old(pendingRelease) && TurnOf(world.log) == TurnOf(old(world.log))
      ensures var due := IsDue(heartbeatClock.interval, old(heartbeatClock.last), at);
        && heartbeatClock.last == (if due then Some(at) else old(heartbeatClock.last))
        && (if due then exists ok :: world.log == Then(old(world.log), Beat(ok)) else world.log == old(world.log))
      ensures heartbeatClock.interval.Some? && old(heartbeatClock.last).None? ==>
        world.script == Rest(Rest(old(world.script)))
    {
      var now := world.Monotonic();
      at := now;
      var due := heartbeatClock.Due(now);
      if due {
        var reply := world.Answer();
        NeutralIsRecorded(world.log, pendingRelease, batchSize, ThePace(), health.retryDelay, dbHealth.retryDelay,
                          Beat(reply.ok));
        world.log := Then(world.log, Beat(reply.ok));
      }
    }

    /** The claiming half of one iteration: a batch if nothing is stranded. */
    method Serve(ready: bool) returns (raised: bool, dispatched: nat)
      requires Good() && (ready <==> pendingRelease == [])
      requires var t := TurnOf(world.log); t.open && t.polls == 1 && t.free == ready && t.claims == t.sent == 0
      modifies this, world, health, dbHealth
      ensures Good() && world.clock >= old(world.clock)
      ensures Served(TurnOf(world.log)) && TurnOf(world.log).sent == dispatched
      ensures TurnOf(world.log).settled == TurnOf(old(world.log)).settled
      ensures raised <==> world.log.Then? && world.log.last.ClaimFailed?
      ensures ready && DiesAfterClaim(old(world.script)) ==>
        pendingRelease != [] && world.script == [] && Failures(world.log) == Failures(old(world.log)) + 1
    {
      raised, dispatched := false, 0;
      if ready {
        ghost var before, transport, database := world.log, health.retryDelay, dbHealth.retryDelay;
        ghost var ids, releaseOk;
        raised, dispatched, ids, releaseOk := DispatchBatch();
        if raised {
          NeutralIsRecorded(before, [], batchSize, ThePace(), transport, database, ClaimFailed(batchSize));
        } else {
          BatchCounts(before, batchSize, ids, dispatched, releaseOk);
          BatchSweepsNothing(before, batchSize, ids, dispatched, releaseOk, sweepClock.interval);
          BatchInTurn(before, ids, dispatched, releaseOk, batchSize);
          RestIsDistinct(ids, dispatched);
          BatchIsRecorded(before, ids, dispatched, releaseOk, pendingRelease, batchSize, ThePace(), transport, database,
                          health.retryDelay, dbHealth.retryDelay);
        }
      }
    }

    /** The wait up to the next wake-up; the idle poll if asking for it raised. */
    method WakeTimeout() returns (raised: bool, wait: Time)
      requires Good() && Served(TurnOf(world.log))
      modifies world
      ensures Good() && world.clock >= old(world.clock) && TurnOf(world.log) == TurnOf(old(world.log))
      ensures raised ==> wait == idlePoll
      ensures !raised ==> wait == Wake(Then(world.log, Settled(false)), idlePoll)
      ensures raised ==> exists due :: world.log == Then(old(world.log), AskedDue(false, due))
      ensures old(world.script) == [] ==> raised
      ensures !raised ==> exists due, now ::
        world.log == Then(Then(old(world.log), AskedDue(true, due)), ReadClock(now))
    {
      ghost var transport, database := health.retryDelay, dbHealth.retryDelay;
      ghost var before := world.log;
      var ok, due := world.NextDue();
      raised, wait := !ok, idlePoll;
      NeutralIsRecorded(before, pendingRelease, batchSize, ThePace(), transport, database, AskedDue(ok, due));
      if ok {
        var now := world.WallClock();
        NeutralIsRecorded(Then(before, AskedDue(ok, due)), pendingRelease, batchSize, ThePace(), transport, database,
                          ReadClock(now));
        wait := BoundedWait(idlePoll, due, now);
      }
    }

    /** The database's health after an iteration that raised or did not. */
    method Settle(raised: bool)
      requires Good() && Fits(world.log, Settled(raised), batchSize)
      modifies dbHealth, world
      ensures Good() && world.clock >= old(world.clock)
      ensures world.log == Then(old(world.log), Settled(raised))
    {
      ghost var before := dbHealth.retryDelay;
      if raised {
        var now := world.Monotonic();
        dbHealth.NoteFailure(now);
      } else if pendingRelease == [] {
        dbHealth.NoteSuccess();
      }
      SettlingIsRecorded(world.log, pendingRelease, batchSize, ThePace(), health.retryDelay, before, raised,
                         dbHealth.retryDelay);
      world.log := Then(world.log, Settled(raised));
    }

    /** A first iteration without sweeps, in a world that dies after the claim. */
    ghost predicate Strands()
      reads this, world, sweepClock, heartbeatClock
    {
      && pendingRelease == [] && sweepClock.interval.None? && heartbeatClock.interval.Some? && heartbeatClock.last.None?
      && DiesAfterClaim(Rest(Rest(Rest(world.script))))
    }

    /** The body of one iteration up to the wake-up: the stranded release first, then heartbeat and
        sweep whatever came of it, then a batch if nothing is stranded. */
    method Work() returns (raised: bool, dispatched: nat)
      requires Good() && Begun()
      modifies this, world, health, dbHealth, sweepClock, heartbeatClock
      ensures Good() && world.clock >= old(world.clock)
      ensures Served(TurnOf(world.log)) && TurnOf(world.log).sent == dispatched
      ensures TurnOf(world.log).settled == TurnOf(old(world.log)).settled
      ensures raised <==> world.log.Then? && world.log.last.ClaimFailed?
      ensures old(Strands()) ==>
        pendingRelease != [] && world.script == [] && Failures(world.log) == Failures(old(world.log)) + 1
    {
      var ready := RetryPendingRelease();
      var _ := MaybeHeartbeat();
      MaybeSweep();
      raised, dispatched := Serve(ready);
    }

    /** How many ids the iteration that has just ended counts as dispatched: those it sent, unless it raised. */
    ghost predicate Dispatched(n: nat)
      reads world`log
    {
      && world.log.Then? && world.log.last.Settled?
      && n == if world.log.last.raised then 0 else TurnOf(world.log).sent
    }

    /** One iteration up to the wait. Answers how many ids were dispatched and how long the loop may
        wait for the next wake-up. */
    method Iterate() returns (dispatched: nat, wait: Time)
      requires Good() && Begun()
      modifies this, world, health, dbHealth, sweepClock, heartbeatClock
      ensures Good() && world.clock >= old(world.clock)
      ensures wait == Wake(world.log, idlePoll) && Dispatched(dispatched)
      ensures TurnOf(world.log).settled == TurnOf(old(world.log)).settled + 1
      ensures old(Strands()) ==> pendingRelease != [] && Failures(world.log) == Failures(old(world.log)) + 2
    {
      var raised;
      raised, dispatched := Work();
      wait := idlePoll;
      if !raised {
        raised, wait := WakeTimeout();
      }
      Settle(raised);
      dispatched := if raised then 0 else dispatched;
    }

    /** The delay still owed, read off the transport's backoff and then the database's. */
    method StillOwed() returns (owed: Time, ghost first: Time, ghost second: Time)
      requires Good()
      modifies world`script, world`clock
      ensures Good() && old(world.clock) <= first <= second == world.clock
      ensures owed == MaxOf(health.RemainingDelay(first), dbHealth.RemainingDelay(second))
      ensures owed == 0.0 || 0.0 < owed <= Owed(world.log, ThePace())
    {
      var now := world.Monotonic();
      first := now;
      owed := health.RemainingDelay(now);
      now := world.Monotonic();
      second := now;
      owed := MaxOf(owed, dbHealth.RemainingDelay(now));
    }

    /** The end of one iteration: sleep the delay still owed, if any; otherwise go on at once after a
        full batch; otherwise wait for work. False when waiting for work raised. */
    method Pause(dispatched: nat, wait: Time)
      returns (ok: bool, ghost owed: Time, ghost first: Time, ghost second: Time)
      requires Good() && wait == Wake(world.log, idlePoll) && Dispatched(dispatched)
      modifies world
      ensures Good() && old(world.clock) <= first <= second <= world.clock
      ensures owed == MaxOf(health.RemainingDelay(first), dbHealth.RemainingDelay(second))
      ensures owed == 0.0 || 0.0 < owed <= Owed(old(world.log), ThePace())
      ensures world.log ==
        if owed != 0.0 then Then(old(world.log), Slept(owed))
        else if dispatched >= batchSize then old(world.log)
        else Then(old(world.log), Waited(wait, ok))
      ensures owed != 0.0 || dispatched >= batchSize ==> ok
      ensures ok ==> MayCheck(world.log, batchSize)
      ensures TurnOf(world.log) == TurnOf(old(world.log))
    {
      var delay;
      delay, first, second := StillOwed();
      owed := delay;
      if delay != 0.0 {
        PauseIsRecorded(world.log, pendingRelease, batchSize, ThePace(), health.retryDelay, dbHealth.retryDelay,
                        Slept(delay));
        var _ := world.Do(Slept(delay));
        return true, owed, first, second;
      }
      if dispatched >= batchSize {
        return true, owed, first, second;
      }
      PauseIsRecorded(world.log, pendingRelease, batchSize, ThePace(), health.retryDelay, dbHealth.retryDelay,
                      Waited(wait, NextReply(world.script).ok));
      ok := world.WaitForWork(wait);
    }

    /** run, for at most so many iterations: whatever the script of failures, the books stay balanced,
        nothing is claimed while a release is outstanding, and everything is done in its turn. It ends when
        the iterations have been made, when the stop event is found set, or when waiting for work raises. */
    method Run(maxIterations: nat)
      requires Good() && MayCheck(world.log, batchSize)
      modifies this, world, health, dbHealth, sweepClock, heartbeatClock
      ensures Good() && EndedAfter(world.log, maxIterations, TurnOf(old(world.log)).settled)
    {
      var iterations := 0;
      var stopping := Check();
      while !stopping
        invariant Good() && world.log.Then? && world.log.last == Checked(stopping)
        invariant iterations <= maxIterations
        invariant TurnOf(world.log).settled == TurnOf(old(world.log)).settled + iterations
        decreases maxIterations - iterations
      {
        if iterations >= maxIterations {
          break;
        }
        iterations := iterations + 1;
        var dispatched, wait := Iterate();
        var ok, _, _, _ := Pause(dispatched, wait);
        if !ok {
          break;
        }
        stopping := Check();
      }
      Close();
    }
  }

  /** A run has closed the backend after maxIterations more iterations than settled, or after fewer because
      the stop event was set or waiting for work raised. */
  predicate EndedAfter(log: Log, maxIterations: nat, settled: nat) {
    && log.Then? && log.last == Closed && log.before.Then?
    && settled <= TurnOf(log).settled <= settled + maxIterations
    && (TurnOf(log).settled < settled + maxIterations ==>
          log.before.last == Checked(true) || (log.before.last.Waited? && !log.before.last.ok))
  }

  /** A dispatcher that has done nothing yet, in a new world. */
  method Start(script: seq<Reply>, batchSize: nat, p: Pace, heartbeat: Time) returns (d: Dispatcher)
    requires batchSize >= 1
    ensures fresh({d, d.world, d.health, d.dbHealth, d.sweepClock, d.heartbeatClock})
    ensures d.Good() && d.world.script == script && d.world.log == Nothing && d.pendingRelease == []
    ensures d.batchSize == batchSize && d.ThePace() == p
    ensures d.heartbeatClock.last.None? && d.heartbeatClock.interval.Some?
  {
    var world := new World(script);
    d := new Dispatcher(world, batchSize, p.idle, p.sweep, heartbeat, p.base, p.dispatchCap, p.databaseCap);
  }

  /** What Good says about a whole run of a new dispatcher, read off its log: every claim was
      handed over, released or is held, the held ones are distinct and at most a batch, and every
      claim attempt came at a moment when nothing was held; waits and sleeps were what the schedule
      and the failures in a row allow. The database's delay is that of its failures in a row, at
      least one while anything is held. The sweeps are the True answers of the sweep clock, so by its
      last reading t they number at most floor(t / interval) + 1. */
  method RunFromStart(script: seq<Reply>, batchSize: nat, p: Pace, heartbeat: Time, maxIterations: nat)
    returns (log: Log, held: seq<Id>, databaseDelay: Time)
    requires batchSize >= 1
    ensures Balanced(BooksOf(log), held) && held == Stranded(log)
    ensures NoDup(held) && |held| <= batchSize
    ensures Clear(log) && WaitsAreRight(log, p)
    ensures databaseDelay == DelayAfter(p.base, p.databaseCap, Failures(log)) && (held != [] ==> Failures(log) >= 1)
    ensures held != [] && p.base > 0.0 && p.databaseCap > 0.0 ==> databaseDelay > 0.0
    ensures SweptAt(log) == TrueAt(p.sweep, None, Polls(log))
    ensures p.sweep.Some? && p.sweep.value > 0.0 ==> |SweptAt(log)| <= (LastPoll(log) / p.sweep.value).Floor + 1
    ensures Orderly(log, batchSize) && EndedAfter(log, maxIterations, 0) && |Polls(log)| == TurnOf(log).settled
  {
    var d := Start(script, batchSize, p, heartbeat);
    d.Run(maxIterations);
    log, held, databaseDelay := d.world.log, d.pendingRelease, d.dbHealth.retryDelay;
    DelayIsPositiveExactly(p.base, p.databaseCap);
    SweepsAreTrueAnswers(log, p.sweep);
    OneReadingEach(log, batchSize);
    if p.sweep.Some? && p.sweep.value > 0.0 {
      SweepsAreRationed(p.sweep.value, None, Polls(log), 0.0, LastPoll(log));
    }
  }

  lemma TwoFailures(base: Time, cap: Time)
    requires !(base > 0.0 && cap > 0.0)
    ensures DelayAfter(base, cap, 2) <= 0.0
  {
    FirstDelays(base, cap);
  }

  /** The condition on base and cap is exact: without it there is a world, dying after the first claim,
      in which a dispatcher ends its first iteration holding claims at a database delay that is not
      positive: its release has failed, and so has the rest of the iteration. */
  method HoldsWithoutDelay(batchSize: nat, p: Pace) returns (held: seq<Id>, databaseDelay: Time)
    requires batchSize >= 1 && !(p.base > 0.0 && p.databaseCap > 0.0)
    ensures held != [] && databaseDelay <= 0.0
  {
    var claim := Reply(true, [0], None, 0.0, 0.0);
    var script := [claim.(ok := false), claim, claim, claim, claim];
    var d := Start(script, batchSize, p.(sweep := None), 30.0);
    var _ := d.Check();
    assert Rest(script) == [claim, claim, claim, claim] && Rest(Rest(Rest(Rest(script)))) == [claim];
    var _, _ := d.Iterate();
    held, databaseDelay := d.pendingRelease, d.dbHealth.retryDelay;
    TwoFailures(p.base, p.databaseCap);
  }
}
