/**
 * The stores the resolver talks to, as oracles: the document store and the
 * wide-column store answer a request with records or raise, and the object
 * store answers an existence probe. Every step reports the requests it
 * issued, in order, so that what was looked up and what was skipped can be
 * stated.
 */
module Backend {
  import opened Wrappers
  import opened Values
  import opened Queries

  /** A request to one of the stores. */
  datatype Request =
    | Find(db: string, collection: string, query: Query)            // count_documents, then find
    | GetItem(table: string, keyName: string, keyValue: Value)     // get_item on a partition key
    | QueryItems(table: string, conditions: seq<(string, Value)>)  // query on key conditions
    | Head(bucket: string, key: string)                            // head_object

  /** What the document store or the wide-column store answers. */
  datatype Reply = Rows(items: seq<Record>) | Raised(message: string)

  /** What an existence probe answers: the object exists, a client error with its code, or any other exception. */
  datatype Probe = Exists | ClientError(code: string, message: string) | Unexpected(message: string)

  /** The stores of one request: records for store requests, probe outcomes for (bucket, key). */
  datatype Env = Env(store: Request -> Reply, probe: (string, string) -> Probe)

  /** A step's result, or the fault it raised, with the requests it issued. */
  datatype Outcome<T> = Outcome(result: Result<T, Fault>, trace: seq<Request>)

  /** Requests sent one after another form one trace, however the steps are grouped. */
  lemma TraceJoin(a: seq<Request>, b: seq<Request>, c: seq<Request>)
    ensures a + (b + c) == a + b + c
  {
  }

  /** A request whose answer was an exception. */
  predicate Failed(env: Env, req: Request) {
    match req
    case Head(b, k) => env.probe(b, k).Unexpected?
    case _ => env.store(req).Raised?
  }

  /** The exception message of a failed request. */
  function FailureMessage(env: Env, req: Request): string
    requires Failed(env, req)
  {
    match req
    case Head(b, k) => env.probe(b, k).message
    case _ => env.store(req).message
  }

  /** A step that aborts on a store exception: success means no request it issued raised, and a store fault names the last one. */
  predicate Aborts<T>(env: Env, o: Outcome<T>) {
    && (o.result.Ok? ==> forall r :: r in o.trace ==> !Failed(env, r))
    && (o.result.Err? && o.result.error.StoreFault? ==>
          o.trace != [] && Failed(env, o.trace[|o.trace| - 1]) &&
          FailureMessage(env, o.trace[|o.trace| - 1]) == o.result.error.message &&
          forall r :: r in o.trace[..|o.trace| - 1] ==> !Failed(env, r))
    && (o.result.Err? && !o.result.error.StoreFault? ==> forall r :: r in o.trace ==> !Failed(env, r))
  }

  /** Send a request to the document store or the wide-column store: its records, or the exception it raised. */
  function Ask(env: Env, req: Request): (o: Outcome<seq<Record>>)
    requires !req.Head?
    ensures o.trace == [req]
    ensures Aborts(env, o)
    ensures o.result.Ok? <==> !Failed(env, req)
    ensures o.result.Ok? ==> o.result.value == env.store(req).items
  {
    match env.store(req)
    case Rows(items) => Outcome(Ok(items), [req])
    case Raised(m) => Outcome(Err(StoreFault(m)), [req])
  }

  /** A step's result passed on unchanged in kind, over the same requests, still aborts. */
  lemma AbortsAs<T, U>(env: Env, a: Outcome<T>, r: Result<U, Fault>)
    requires Aborts(env, a)
    requires r.Ok? == a.result.Ok? && (r.Err? ==> r.error == a.result.error)
    ensures Aborts(env, Outcome(r, a.trace))
  {
  }

  /** A fault raised by the code itself, after a step that succeeded, aborts with no failed request. */
  lemma AbortsClean<T, U>(env: Env, a: Outcome<T>, r: Result<U, Fault>)
    requires Aborts(env, a) && a.result.Ok?
    requires r.Err? ==> !r.error.StoreFault?
    ensures Aborts(env, Outcome(r, a.trace))
  {
  }

  /** Two steps that abort, run one after the other, abort: only the last request sent can have failed. */
  lemma AbortsThen<T, U, V>(env: Env, a: Outcome<T>, b: Outcome<U>, r: Result<V, Fault>)
    requires Aborts(env, a) && a.result.Ok? && Aborts(env, b)
    requires r.Ok? == b.result.Ok? && (r.Err? ==> r.error == b.result.error)
    ensures Aborts(env, Outcome(r, a.trace + b.trace))
  {
    var tr := a.trace + b.trace;
    if r.Err? && r.error.StoreFault? {
      assert tr[|tr| - 1] == b.trace[|b.trace| - 1];
      assert tr[..|tr| - 1] == a.trace + b.trace[..|b.trace| - 1];
    }
  }
}
