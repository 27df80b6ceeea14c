/**
 * The company store module: the request-lifecycle slice
 * `{creating, deleting, errors, loaded, loading, updating}`, the reducer that
 * drives it, and the actions that the four thunks (load, create, update,
 * delete) dispatch.
 */
module CompanyStore {
  import opened CompanyRecord

  /** What the slice's `errors` holds. The action creators default it to an
      array (`errors = []`), but the thunks pass along the single `Error`
      their promise rejected with. */
  datatype Errors = ErrorList(messages: seq<string>) | ErrorObject(message: string)

  /** `new Error('No data')`, the one failure the thunks report. */
  const NoData: Errors := ErrorObject("No data")

  /** The four request lifecycles. */
  datatype Op = Fetch | Create | Update | Delete

  /** The dispatched actions. `Request(Fetch)` is `fetchRequest()`, of type
      `contenthouse/companies/FETCH_REQUEST`, and likewise for the other eleven
      creators; `Failure(op)` with no errors is the creator's `errors = []`
      default. The entity-map actions `updateEntities` and `deleteEntity`
      belong to another reducer and are kept as opaque values carrying the
      companies they were built from. */
  datatype Action =
    | Request(op: Op)
    | Success(op: Op)
    | Failure(op: Op, errors: Errors := ErrorList([]))
    | UpdateEntities(companies: seq<Company>)
    | DeleteEntity(company: Company)
    /** Any action whose type is none of the twelve lifecycle types above
        (`actionType` is never a lifecycle type string). */
    | Other(actionType: string)

  predicate IsLifecycle(a: Action)
  {
    a.Request? || a.Success? || a.Failure?
  }

  datatype State = State(
    creating: bool,
    deleting: bool,
    errors: Errors,
    loaded: bool,
    loading: bool,
    updating: bool)

  const InitialState: State := State(false, false, ErrorList([]), false, false, false)

  /** The in-flight flag of one lifecycle. */
  function Busy(s: State, op: Op): bool
  {
    match op
    case Fetch => s.loading
    case Create => s.creating
    case Update => s.updating
    case Delete => s.deleting
  }

  /** The reducer's `switch (action.type)`; every other action type returns
      the state unchanged. */
  function Reduce(s: State, a: Action): State
  {
    match a
    case Request(Fetch) => s.(loading := true)
    case Success(Fetch) => s.(loading := false, loaded := true, errors := ErrorList([]))
    case Failure(Fetch, errors) => s.(loading := false, loaded := false, errors := errors)
    case Request(Create) => s.(creating := true)
    case Success(Create) => s.(creating := false, errors := ErrorList([]))
    case Failure(Create, errors) => s.(creating := false, errors := errors)
    case Request(Update) => s.(updating := true)
    case Success(Update) => s.(updating := false, errors := ErrorList([]))
    case Failure(Update, errors) => s.(updating := false, errors := errors)
    case Request(Delete) => s.(deleting := true)
    case Success(Delete) => s.(deleting := false, errors := ErrorList([]))
    case Failure(Delete, errors) => s.(deleting := false, errors := errors)
    case _ => s
  }

  /** Dispatching `acts` one after the other. */
  function ReduceAll(s: State, acts: seq<Action>): State
    decreases |acts|
  {
    if acts == [] then s else ReduceAll(Reduce(s, acts[0]), acts[1..])
  }

  lemma InitialStateIdle()
    ensures forall op :: !Busy(InitialState, op)
    ensures !InitialState.loaded && InitialState.errors == ErrorList([])
  {
  }

  lemma ReduceIgnoresOthers(s: State, a: Action)
    requires !IsLifecycle(a)
    ensures Reduce(s, a) == s
  {
  }

  /** A request raises its own flag and touches nothing else. */
  lemma ReduceRequest(s: State, op: Op)
    ensures var t := Reduce(s, Request(op));
      Busy(t, op) && (forall o :: o != op ==> Busy(t, o) == Busy(s, o))
      && t.loaded == s.loaded && t.errors == s.errors
  {
  }

  /** A success lowers its own flag and clears the errors; only a fetch
      success marks the collection loaded. */
  lemma ReduceSuccess(s: State, op: Op)
    ensures var t := Reduce(s, Success(op));
      !Busy(t, op) && (forall o :: o != op ==> Busy(t, o) == Busy(s, o))
      && t.errors == ErrorList([])
      && t.loaded == (op == Fetch || s.loaded)
  {
  }

  /** A failure lowers its own flag and stores the action's errors as they
      are; a fetch failure also marks the collection not loaded. */
  lemma ReduceFailure(s: State, op: Op, errors: Errors)
    ensures var t := Reduce(s, Failure(op, errors));
      !Busy(t, op) && (forall o :: o != op ==> Busy(t, o) == Busy(s, o))
      && t.errors == errors
      && t.loaded == (op != Fetch && s.loaded)
  {
  }

  /** Dispatching two batches in turn is dispatching their concatenation. */
  lemma {:induction false} ReduceAllAppend(s: State, xs: seq<Action>, ys: seq<Action>)
    ensures ReduceAll(s, xs + ys) == ReduceAll(ReduceAll(s, xs), ys)
    decreases |xs|
  {
    if xs == [] {
      assert xs + ys == ys;
    } else {
      assert (xs + ys)[1..] == xs[1..] + ys;
      ReduceAllAppend(Reduce(s, xs[0]), xs[1..], ys);
    }
  }

  /** The shape every thunk dispatches: REQUEST, an entity-map change, SUCCESS;
      or REQUEST, FAILURE. */
  predicate FollowsProtocol(op: Op, acts: seq<Action>)
  {
    || (|acts| == 3 && acts[0] == Request(op) && !IsLifecycle(acts[1]) && acts[2] == Success(op))
    || (|acts| == 2 && acts[0] == Request(op) && acts[1].Failure? && acts[1].op == op)
  }

  /** A whole request cycle ends with its flag down whatever the outcome,
      leaves the other lifecycles' flags alone, and ends with the errors
      cleared on success or set to the failure's errors. Only the fetch cycle
      touches `loaded`. */
  lemma {:induction false} CycleSettles(s: State, op: Op, acts: seq<Action>)
    requires FollowsProtocol(op, acts)
    ensures var t := ReduceAll(s, acts);
      !Busy(t, op) && (forall o :: o != op ==> Busy(t, o) == Busy(s, o))
      && (acts[|acts| - 1].Success? ==> t.errors == ErrorList([]) && t.loaded == (op == Fetch || s.loaded))
      && (acts[|acts| - 1].Failure? ==> t.errors == acts[1].errors && t.loaded == (op != Fetch && s.loaded))
  {
    var s1 := Reduce(s, acts[0]);
    ReduceRequest(s, op);
    if |acts| == 3 {
      var s2 := Reduce(s1, acts[1]);
      ReduceIgnoresOthers(s1, acts[1]);
      ReduceSuccess(s2, op);
      assert ReduceAll(s, acts) == ReduceAll(s2, acts[2..]);
      assert ReduceAll(s2, acts[2..]) == Reduce(s2, acts[2]);
    } else {
      ReduceFailure(s1, op, acts[1].errors);
      assert ReduceAll(s, acts) == ReduceAll(s1, acts[1..]);
      assert ReduceAll(s1, acts[1..]) == Reduce(s1, acts[1]);
    }
  }

  /** A REQUEST directly followed by the SUCCESS or FAILURE of the same kind
      leaves that kind's flag down. */
  lemma RequestThenOutcome(s: State, op: Op, outcome: Action)
    requires outcome == Success(op) || (outcome.Failure? && outcome.op == op)
    ensures !Busy(ReduceAll(s, [Request(op), outcome]), op)
  {
    var s1 := Reduce(s, Request(op));
    assert [Request(op), outcome][1..] == [outcome];
    assert ReduceAll(s, [Request(op), outcome]) == ReduceAll(s1, [outcome]);
    assert ReduceAll(s1, [outcome]) == ReduceAll(Reduce(s1, outcome), []);
  }

  // ----- The promise each thunk builds -----

  /** A promise that has not settled, or what it settled with. */
  datatype Promise<T> = Pending | Fulfilled(value: T) | Rejected(reason: Errors)

  /** Calling `resolve` or `reject`: only the first call settles the promise. */
  function Settle<T>(p: Promise<T>, outcome: Promise<T>): Promise<T>
  {
    if p.Pending? then outcome else p
  }

  /** The executor every thunk passes to `new Promise`:
      `if (!ok) reject(new Error('No data')); resolve({ data })`. */
  method RunExecutor<T>(ok: bool, data: T) returns (p: Promise<T>)
    ensures ok ==> p == Fulfilled(data)
    ensures !ok ==> p == Rejected(NoData)
  {
    p := Pending;
    if !ok {
      p := Settle(p, Rejected(NoData));
    }
    p := Settle(p, Fulfilled(data));
  }

  /** The argument of `createCompany`, `updateCompany` and `deleteCompany`:
      a falsy value (`null`, `undefined`, ...) or a company record. */
  datatype Payload = Falsy | Given(company: Company)

  /** What `loadCompanies` dispatches against the mock collection `mock`. */
  function LoadDispatches(mock: seq<Company>): seq<Action>
  {
    if |mock| == 0 then [Request(Fetch), Failure(Fetch, NoData)]
    else [Request(Fetch), UpdateEntities(mock), Success(Fetch)]
  }

  /** The entity-map change a successful create, update or delete dispatches. */
  function EntityChange(op: Op, c: Company): Action
  {
    if op == Delete then DeleteEntity(c) else UpdateEntities([c])
  }

  /** What `createCompany`, `updateCompany` (and, with `deleteEntity`,
      `deleteCompany`) dispatch for `payload`. */
  function MutationDispatches(op: Op, payload: Payload): seq<Action>
  {
    match payload
    case Falsy => [Request(op), Failure(op, NoData)]
    case Given(c) => [Request(op), EntityChange(op, c), Success(op)]
  }

  lemma LoadFollowsProtocol(mock: seq<Company>)
    ensures FollowsProtocol(Fetch, LoadDispatches(mock))
    ensures LoadDispatches(mock)[1].Failure? <==> |mock| == 0
  {
  }

  lemma MutationFollowsProtocol(op: Op, payload: Payload)
    ensures FollowsProtocol(op, MutationDispatches(op, payload))
    ensures MutationDispatches(op, payload)[1].Failure? <==> payload.Falsy?
  {
  }

  /** A load ends loaded exactly when the mock collection is not empty, with
      nothing in flight for fetching and the other flags untouched. */
  lemma LoadOutcome(s: State, mock: seq<Company>)
    ensures var t := ReduceAll(s, LoadDispatches(mock));
      !t.loading && t.creating == s.creating && t.updating == s.updating && t.deleting == s.deleting
      && (t.loaded <==> |mock| > 0)
      && t.errors == (if |mock| == 0 then NoData else ErrorList([]))
  {
    CycleSettles(s, Fetch, LoadDispatches(mock));
    var t := ReduceAll(s, LoadDispatches(mock));
    assert Busy(t, Create) == Busy(s, Create);
    assert Busy(t, Update) == Busy(s, Update);
    assert Busy(t, Delete) == Busy(s, Delete);
  }

  /** Create, update and delete never change `loading` or `loaded`, and end
      with their own flag down. */
  lemma MutationKeepsLoad(s: State, op: Op, payload: Payload)
    requires op != Fetch
    ensures var t := ReduceAll(s, MutationDispatches(op, payload));
      !Busy(t, op) && t.loading == s.loading && t.loaded == s.loaded
      && t.errors == (if payload.Falsy? then NoData else ErrorList([]))
  {
    CycleSettles(s, op, MutationDispatches(op, payload));
    assert Busy(s, Fetch) == s.loading;
  }

  // ----- The thunks -----

  /** `loadCompanies()` run against the mock collection `mock`: the actions
      it dispatches, in order, and the promise it returns. */
  method LoadCompanies(mock: seq<Company>) returns (dispatched: seq<Action>, promise: Promise<seq<Company>>)
    ensures dispatched == LoadDispatches(mock)
    ensures promise == if |mock| == 0 then Rejected(NoData) else Fulfilled(mock)
  {
    dispatched := [Request(Fetch)];
    promise := RunExecutor(|mock| != 0, mock);
    if promise.Fulfilled? {
      dispatched := dispatched + [UpdateEntities(promise.value)];
      dispatched := dispatched + [Success(Fetch)];
    } else {
      dispatched := dispatched + [Failure(Fetch, promise.reason)];
    }
  }

  /** `createCompany(company)`. */
  method CreateCompany(company: Payload) returns (dispatched: seq<Action>, promise: Promise<Payload>)
    ensures dispatched == MutationDispatches(Create, company)
    ensures promise == if company.Falsy? then Rejected(NoData) else Fulfilled(company)
  {
    dispatched := [Request(Create)];
    promise := RunExecutor(company.Given?, company);
    if promise.Fulfilled? {
      dispatched := dispatched + [UpdateEntities([promise.value.company])];
      dispatched := dispatched + [Success(Create)];
    } else {
      dispatched := dispatched + [Failure(Create, promise.reason)];
    }
  }

  /** `updateCompany(company)`. */
  method UpdateCompany(company: Payload) returns (dispatched: seq<Action>, promise: Promise<Payload>)
    ensures dispatched == MutationDispatches(Update, company)
    ensures promise == if company.Falsy? then Rejected(NoData) else Fulfilled(company)
  {
    dispatched := [Request(Update)];
    promise := RunExecutor(company.Given?, company);
    if promise.Fulfilled? {
      dispatched := dispatched + [UpdateEntities([promise.value.company])];
      dispatched := dispatched + [Success(Update)];
    } else {
      dispatched := dispatched + [Failure(Update, promise.reason)];
    }
  }

  /** `deleteCompany(company)`. */
  method DeleteCompany(company: Payload) returns (dispatched: seq<Action>, promise: Promise<Payload>)
    ensures dispatched == MutationDispatches(Delete, company)
    ensures promise == if company.Falsy? then Rejected(NoData) else Fulfilled(company)
  {
    dispatched := [Request(Delete)];
    promise := RunExecutor(company.Given?, company);
    if promise.Fulfilled? {
      dispatched := dispatched + [DeleteEntity(promise.value.company)];
      dispatched := dispatched + [Success(Delete)];
    } else {
      dispatched := dispatched + [Failure(Delete, promise.reason)];
    }
  }
}
