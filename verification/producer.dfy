/** Creating tasks, once or idempotently (create_task and create_or_get_task). */
module Producer {
  import opened Common
  import opened States
  import opened Policy
  import opened Json
  import opened Serialization
  import opened Rows
  import opened Selection
  import opened Queries
  import Protocol
  import opened Invariants
  import Outcomes

  /** A caller's datetime: one without a timezone is refused. */
  datatype When = Aware(at: Time) | Naive

  datatype Request = Request(
    taskType: string, args: PyValue, kwargs: PyValue, queue: Option<string>, priority: Option<int>,
    maxAttempts: Option<int>, scheduledFor: Option<When>, expiresAt: Option<When>, key: Option<string>)

  datatype Field = TaskTypeField | ArgsField | KwargsField | QueueField | PriorityField
                 | MaxAttemptsField | ScheduledForField | ExpiresAtField

  datatype CreateError =
    | EmptyKey
    | NaiveDatetime(field: Field)
    | Unserializable(error: EncodeError)
    | Duplicate
    | Conflict(differing: seq<Field>)

  function Instant(w: Option<When>): Option<Time>
    requires w.Some? ==> w.value.Aware?
  {
    if w.None? then None else Some(w.value.at)
  }

  function Default<T>(given: Option<T>, otherwise: T): T {
    if given.Some? then given.value else otherwise
  }

  /** Checks, defaults and encoding, in the order the code makes them. */
  function Resolve(req: Request, policy: TaskPolicy): Result<Creation, CreateError> {
    if req.scheduledFor.Some? && req.scheduledFor.value.Naive? then Failure(NaiveDatetime(ScheduledForField))
    else if req.expiresAt.Some? && req.expiresAt.value.Naive? then Failure(NaiveDatetime(ExpiresAtField))
    else match EncodeArgs(req.args)
      case Failure(e) => Failure(Unserializable(e))
      case Success(args) =>
        match EncodedKwargs(req.kwargs)
        case Failure(e) => Failure(Unserializable(e))
        case Success(kwargs) =>
          Success(Creation(req.taskType, args, kwargs, Default(req.queue, policy.queue),
                           Default(req.priority, policy.priority), Default(req.maxAttempts, policy.maxAttempts),
                           Instant(req.scheduledFor), Instant(req.expiresAt), req.key))
  }

  /** What the row is created with: the caller's fields, or else the policy's; the caller's schedule, deadline
      and key; the payloads encoded. It is refused exactly for a datetime without a timezone, the schedule's
      being complained of first, and then for arguments that cannot be encoded. */
  lemma ResolvedFields(req: Request, policy: TaskPolicy)
    ensures Resolve(req, policy).Success? ==> var made := Resolve(req, policy).value;
      && made.taskType == req.taskType && made.key == req.key
      && (if req.queue.Some? then req.queue == Some(made.queue) else made.queue == policy.queue)
      && (if req.priority.Some? then req.priority == Some(made.priority) else made.priority == policy.priority)
      && (if req.maxAttempts.Some? then req.maxAttempts == Some(made.maxAttempts)
          else made.maxAttempts == policy.maxAttempts)
      && req.scheduledFor == (if made.scheduledFor.Some? then Some(Aware(made.scheduledFor.value)) else None)
      && req.expiresAt == (if made.expiresAt.Some? then Some(Aware(made.expiresAt.value)) else None)
      && EncodeArgs(req.args) == Success(made.args) && EncodedKwargs(req.kwargs) == Success(made.kwargs)
    ensures Resolve(req, policy) == Failure(NaiveDatetime(ScheduledForField)) <==> req.scheduledFor == Some(Naive)
    ensures Resolve(req, policy) == Failure(NaiveDatetime(ExpiresAtField)) <==>
      req.scheduledFor != Some(Naive) && req.expiresAt == Some(Naive)
    ensures Resolve(req, policy).Failure? && Resolve(req, policy).error.Unserializable? <==>
      && req.scheduledFor != Some(Naive) && req.expiresAt != Some(Naive)
      && (EncodeArgs(req.args).Failure? || EncodedKwargs(req.kwargs).Failure?)
    ensures Resolve(req, policy).Failure? ==>
      Resolve(req, policy).error.NaiveDatetime? || Resolve(req, policy).error.Unserializable?
  {
  }

  /** Field f tells the two creations apart; payloads are compared as Python compares them. */
  predicate Differs(f: Field, a: Creation, b: Creation) {
    match f
    case TaskTypeField => a.taskType != b.taskType
    case ArgsField => !PyEq(JArray(a.args), JArray(b.args))
    case KwargsField => !PyEq(JObject(a.kwargs), JObject(b.kwargs))
    case QueueField => a.queue != b.queue
    case PriorityField => a.priority != b.priority
    case MaxAttemptsField => a.maxAttempts != b.maxAttempts
    case ScheduledForField => a.scheduledFor != b.scheduledFor
    case ExpiresAtField => a.expiresAt != b.expiresAt
  }

  const FIELDS := [TaskTypeField, ArgsField, KwargsField, QueueField, PriorityField, MaxAttemptsField,
                   ScheduledForField, ExpiresAtField]

  function Filter(fields: seq<Field>, a: Creation, b: Creation): seq<Field> {
    if fields == [] then []
    else (if Differs(fields[0], a, b) then [fields[0]] else []) + Filter(fields[1..], a, b)
  }

  /** The names IdempotencyConflictError carries, in the order of the comparison. */
  function Differing(expected: Creation, actual: Creation): seq<Field> {
    Filter(FIELDS, expected, actual)
  }

  lemma {:induction false} FilterIsExact(fields: seq<Field>, a: Creation, b: Creation, f: Field)
    ensures f in Filter(fields, a, b) <==> f in fields && Differs(f, a, b)
  {
    if fields == [] {
    } else {
      FilterIsExact(fields[1..], a, b, f);
      assert fields == [fields[0]] + fields[1..];
    }
  }

  lemma DifferingFields(expected: Creation, actual: Creation, f: Field)
    ensures f in Differing(expected, actual) <==> Differs(f, expected, actual)
  {
    FilterIsExact(FIELDS, expected, actual, f);
    assert f in FIELDS by {
      match f
      case TaskTypeField => assert FIELDS[0] == f;
      case ArgsField => assert FIELDS[1] == f;
      case KwargsField => assert FIELDS[2] == f;
      case QueueField => assert FIELDS[3] == f;
      case PriorityField => assert FIELDS[4] == f;
      case MaxAttemptsField => assert FIELDS[5] == f;
      case ScheduledForField => assert FIELDS[6] == f;
      case ExpiresAtField => assert FIELDS[7] == f;
    }
  }

  /** The names reported are those of the components that differ, payloads as Python compares them. */
  lemma DifferingIsExact(expected: Creation, actual: Creation)
    ensures var names := Differing(expected, actual);
      && (TaskTypeField in names <==> expected.taskType != actual.taskType)
      && (ArgsField in names <==> !PyEq(JArray(expected.args), JArray(actual.args)))
      && (KwargsField in names <==> !PyEq(JObject(expected.kwargs), JObject(actual.kwargs)))
      && (QueueField in names <==> expected.queue != actual.queue)
      && (PriorityField in names <==> expected.priority != actual.priority)
      && (MaxAttemptsField in names <==> expected.maxAttempts != actual.maxAttempts)
      && (ScheduledForField in names <==> expected.scheduledFor != actual.scheduledFor)
      && (ExpiresAtField in names <==> expected.expiresAt != actual.expiresAt)
  {
    forall f: Field ensures f in Differing(expected, actual) <==> Differs(f, expected, actual) {
      DifferingFields(expected, actual, f);
    }
  }

  /** Every component that a creation is compared by is equal, the payloads as Python values. */
  predicate Agrees(a: Creation, b: Creation) {
    && a.taskType == b.taskType && a.queue == b.queue && a.priority == b.priority && a.maxAttempts == b.maxAttempts
    && a.scheduledFor == b.scheduledFor && a.expiresAt == b.expiresAt
    && PyEq(JArray(a.args), JArray(b.args)) && PyEq(JObject(a.kwargs), JObject(b.kwargs))
  }

  lemma NoneDiffers(expected: Creation, actual: Creation)
    ensures Differing(expected, actual) == [] <==> Agrees(expected, actual)
  {
    var names := Differing(expected, actual);
    DifferingIsExact(expected, actual);
    HeadIsMember(names);
    if Agrees(expected, actual) {
      assert forall f: Field :: f !in names by {
        forall f: Field ensures f !in names {
          DifferingFields(expected, actual, f);
        }
      }
    }
  }

  /** What create_or_get_task makes of a resolved request: the answer and the table. */
  ghost function CreateOrGet(t: Table, made: Creation, id: Id, now: Time): (Result<Id, CreateError>, Table) {
    if KeyFree(t, made) then (Success(id), t[id := NewRow(made, now)])
    else
      var existing :| existing in t && SameKey(made, t[existing].made);
      if Differing(made, t[existing].made) == [] then (Success(existing), t)
      else (Failure(Conflict(Differing(made, t[existing].made))), t)
  }

  /** No step of any run rewrites what a row was created with. */
  lemma {:induction false} CreationIsForever(r: Protocol.Run, id: Id, i: nat, j: nat)
    requires r.Valid() && i <= j <= |r.steps| && id in r.states[i].rows && id in r.states[j].rows
    ensures r.states[j].rows[id].made == r.states[i].rows[id].made
    ensures r.states[j].rows[id].createdAt == r.states[i].rows[id].createdAt
    decreases j
  {
    if i == j {
    } else {
      Outcomes.RowWasThere(r, id, i, j - 1, j);
      CreationIsForever(r, id, i, j - 1);
      RunStep(r, j, id);
      CreationIsKept(r.states[j - 1], r.steps[j - 1], id);
    }
  }

  /** Once a keyed task exists, a later create_or_get_task under its key, after any interleaving
      that has not purged it, leaves the ledger as it is: it answers that task when the resolved
      inputs equal the original ones, payloads as Python values, and otherwise names what differs.
      It creates nothing else, and the schedule compared is the original one, not the retry's. */
  lemma CreationIsIdempotent(r: Protocol.Run, id: Id, i: nat, j: nat, again: Creation, freshId: Id, now: Time)
    requires r.Valid() && i <= j <= |r.steps| && id in r.states[i].rows && id in r.states[j].rows
    requires SameKey(again, r.states[i].rows[id].made)
    ensures var (answer, t) := CreateOrGet(r.states[j].rows, again, freshId, now);
      var original := r.states[i].rows[id].made;
      && t == r.states[j].rows
      && (answer == Success(id) <==>
            && again.taskType == original.taskType && again.queue == original.queue
            && again.priority == original.priority && again.maxAttempts == original.maxAttempts
            && again.scheduledFor == original.scheduledFor && again.expiresAt == original.expiresAt
            && PyEq(JArray(again.args), JArray(original.args))
            && PyEq(JObject(again.kwargs), JObject(original.kwargs)))
      && (answer != Success(id) ==> answer == Failure(Conflict(Differing(again, original))))
  {
    CreationIsForever(r, id, i, j);
    Invariants.RunKeepsInv(r, j);
    var rows := r.states[j].rows;
    assert !KeyFree(rows, again);
    assert forall x :: x in rows && SameKey(again, rows[x].made) ==> x == id by {
      forall x | x in rows && SameKey(again, rows[x].made) ensures x == id {
        assert SameKey(rows[x].made, rows[id].made);
      }
    }
    NoneDiffers(again, rows[id].made);
  }

  /** The first use of a key creates its task, by an enabled step of the protocol. */
  lemma FirstUseCreates(s: Protocol.State, made: Creation, id: Id)
    requires KeyFree(s.rows, made) && id !in s.used && RowsOk(s) && ClaimsOk(s)
    ensures Protocol.Enabled(s, Protocol.Create(id, made))
    ensures var t := Protocol.Apply(s, Protocol.Create(id, made));
      CreateOrGet(s.rows, made, id, s.now) == (Success(id), t.rows) && t.rows[id].status == Pending
  {
  }
}
