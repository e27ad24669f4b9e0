/** The connection pool of src/db/connection.js: `DatabasePool` keeps an ordered
    list of connections, sweeps out the ones that left the LoggedIn state,
    hands out the first idle one, grows up to `MAX_POOL_SIZE`, replaces the
    oldest entry at capacity, and retries a failed acquisition up to three
    times. Opening a connection (`createNewConnection`) and running a request
    on it (`execSql`) are the driver's business and enter as parameters. */
module DbPool {
  import opened Js
  import opened Sql
  import Seqs

  /** A pooled connection: its identity, whether the driver reports it in the
      LoggedIn state, and the `isExecuting` flag the pool reads (and that no
      code ever sets). */
  datatype Conn = Conn(id: nat, loggedIn: bool, isExecuting: bool)

  /** The outcome of one `createNewConnection` call. */
  datatype ConnectOutcome = Connected | ConnectFailed(err: Error)

  /** An event the driver emits for a running request. */
  datatype RequestEvent = RowEvent(columns: Row) | Completed | Failed(err: Error)

  /** The state of the promise `executeQuery` returns. */
  datatype QueryOutcome = Resolved(rows: seq<Row>) | Rejected(err: Error) | Pending

  /** A parameter as added to the driver's request: `addParameter(name, type, value)`. */
  datatype Binding = Binding(name: string, ty: SqlType, value: ParamValue)

  /** The number of acquisition attempts `executeQuery` makes. */
  const MaxAttempts: nat := 3

  /** `MAX_POOL_SIZE` when the configuration gives none (or a falsy one). */
  const DefaultPoolSize: nat := 10

  // ------------------------------------------------------------------ sweep

  /** The pool after the backward sweep: the LoggedIn entries, in order. */
  function Sweep(pool: seq<Conn>): seq<Conn> {
    if pool == [] then []
    else
      var rest := Sweep(pool[1..]);
      if pool[0].loggedIn then [pool[0]] + rest else rest
  }

  /** The swept pool holds exactly the logged-in entries, in their order. */
  lemma {:induction false} SweepShape(pool: seq<Conn>)
    ensures |Sweep(pool)| <= |pool|
    ensures forall c :: c in Sweep(pool) ==> c in pool && c.loggedIn
    ensures forall c :: c in pool && c.loggedIn ==> c in Sweep(pool)
    ensures Seqs.Subseq(Sweep(pool), pool)
    decreases |pool|
  {
    if pool != [] {
      var rest := Sweep(pool[1..]);
      SweepShape(pool[1..]);
      assert pool == [pool[0]] + pool[1..];
      if pool[0].loggedIn {
        assert ([pool[0]] + rest)[1..] == rest;
      } else if rest != [] {
        assert rest[0] in rest;
      }
    }
  }

  /** The sweep does not change a pool whose entries are all logged in. */
  lemma {:induction false} SweepKeepsLoggedIn(pool: seq<Conn>)
    requires forall i :: 0 <= i < |pool| ==> pool[i].loggedIn
    ensures Sweep(pool) == pool
    decreases |pool|
  {
    if pool != [] {
      SweepKeepsLoggedIn(pool[1..]);
      assert [pool[0]] + pool[1..] == pool;
    }
  }

  lemma SweepStep(pool: seq<Conn>, i: nat)
    requires i < |pool|
    ensures Sweep(pool[i..]) == if pool[i].loggedIn then [pool[i]] + Sweep(pool[i + 1..]) else Sweep(pool[i + 1..])
  {
    assert pool[i..][1..] == pool[i + 1..];
  }

  /** One step of the backward sweep: entries before `i` are untouched, the
      entries after it are already swept, and entry `i` is spliced out exactly
      when it is not logged in. */
  lemma BackwardSweepStep(pool: seq<Conn>, cur: seq<Conn>, i: nat)
    requires i < |pool| && cur == pool[..i + 1] + Sweep(pool[i + 1..])
    ensures i < |cur| && cur[i] == pool[i]
    ensures (if cur[i].loggedIn then cur else cur[..i] + cur[i + 1..]) == pool[..i] + Sweep(pool[i..])
  {
    SweepStep(pool, i);
    assert pool[..i + 1] == pool[..i] + [pool[i]];
    Seqs.SpliceMiddle(pool[..i], pool[i], Sweep(pool[i + 1..]));
  }

  /** Sweeping twice is sweeping once. */
  lemma SweepIdempotent(pool: seq<Conn>)
    ensures Sweep(Sweep(pool)) == Sweep(pool)
  {
    var s := Sweep(pool);
    SweepShape(pool);
    assert forall i :: 0 <= i < |s| ==> s[i] in s;
    SweepKeepsLoggedIn(s);
  }

  lemma {:induction false} SweepDistinct(pool: seq<Conn>)
    requires DistinctIds(pool)
    ensures DistinctIds(Sweep(pool))
    decreases |pool|
  {
    if pool != [] {
      SweepDistinct(pool[1..]);
      SweepShape(pool[1..]);
      var rest := Sweep(pool[1..]);
      if pool[0].loggedIn {
        forall j | 0 <= j < |rest| ensures rest[j].id != pool[0].id {
          assert rest[j] in pool[1..];
        }
      }
    }
  }

  // -------------------------------------------------------------- first fit

  /** `conn.state.name === 'LoggedIn' && !conn.isExecuting` */
  predicate Available(c: Conn) {
    c.loggedIn && !c.isExecuting
  }

  /** `connectionPool.find(available)`: the index of the first available entry. */
  function FindAvailable(pool: seq<Conn>): (r: Option<nat>)
    ensures r.Some? ==> r.value < |pool| && Available(pool[r.value]) &&
                        forall j :: 0 <= j < r.value ==> !Available(pool[j])
    ensures r.None? ==> forall j :: 0 <= j < |pool| ==> !Available(pool[j])
  {
    if pool == [] then None
    else if Available(pool[0]) then Some(0)
    else match FindAvailable(pool[1..])
      case Some(k) => Some(k + 1)
      case None => None
  }

  /** The first available entry of a pool is also the first available entry
      once the pool has been swept. */
  lemma {:induction false} FirstAvailableSurvivesSweep(pool: seq<Conn>, i: nat)
    requires i < |pool| && Available(pool[i])
    requires forall j :: 0 <= j < i ==> !Available(pool[j])
    ensures FindAvailable(Sweep(pool)).Some?
    ensures Sweep(pool)[FindAvailable(Sweep(pool)).value] == pool[i]
    decreases |pool|
  {
    var rest := Sweep(pool[1..]);
    if i == 0 {
      assert Sweep(pool) == [pool[0]] + rest;
    } else {
      FirstAvailableSurvivesSweep(pool[1..], i - 1);
    }
  }

  /** A pool with no available entry has none after the sweep either. */
  lemma NoneAvailableAfterSweep(pool: seq<Conn>)
    requires forall j :: 0 <= j < |pool| ==> !Available(pool[j])
    ensures FindAvailable(Sweep(pool)).None?
  {
    var s := Sweep(pool);
    forall k | 0 <= k < |s| ensures !Available(s[k]) {
      assert s[k] in s;
    }
  }

  // ----------------------------------------------------------- acquisition

  predicate DistinctIds(pool: seq<Conn>) {
    forall i, j :: 0 <= i < j < |pool| ==> pool[i].id != pool[j].id
  }

  /** The pool's bookkeeping invariant: at most `MAX_POOL_SIZE` entries, each
      with its own identity and none allocated after `nextId`. */
  predicate Inv(pool: seq<Conn>, nextId: nat, maxPoolSize: nat) {
    && maxPoolSize >= 1
    && |pool| <= maxPoolSize
    && DistinctIds(pool)
    && (forall i :: 0 <= i < |pool| ==> pool[i].id < nextId)
  }

  /** No entry is flagged as executing: the pool reads `isExecuting` but no
      code sets it, and a new connection starts with it unset. */
  predicate NoneExecuting(pool: seq<Conn>) {
    forall i :: 0 <= i < |pool| ==> !pool[i].isExecuting
  }

  /** The result of `getConnection` and the pool it leaves behind. */
  datatype Acquired = Acquired(result: Result<Conn>, pool: seq<Conn>, nextId: nat)

  /** `createNewConnection()` followed by `connectionPool.push(...)`: the new
      connection gets the next identity; a failure leaves the pool as it is. */
  function Connect(pool: seq<Conn>, nextId: nat, connect: ConnectOutcome): Acquired {
    match connect
    case Connected => Acquired(Ok(Conn(nextId, true, false)), pool + [Conn(nextId, true, false)], nextId + 1)
    case ConnectFailed(e) => Acquired(Err(e), pool, nextId)
  }

  /** `getConnection()` (connection.js:103-151) as a function of the pool. */
  function Acquire(pool: seq<Conn>, nextId: nat, maxPoolSize: nat, connect: ConnectOutcome): Acquired {
    var swept := Sweep(pool);
    match FindAvailable(swept)
    case Some(i) => Acquired(Ok(swept[i]), swept, nextId)
    case None =>
      if |swept| < maxPoolSize then Connect(swept, nextId, connect)
      else if |swept| > 0 then Connect(swept[1..], nextId, connect)
      else Connect(swept, nextId, connect)
  }

  /** If some entry is logged in and idle, `getConnection` hands out the first
      such entry in pool order, opens nothing, and leaves the swept pool. */
  lemma AcquireReusesFirstAvailable(pool: seq<Conn>, nextId: nat, maxPoolSize: nat, connect: ConnectOutcome, i: nat)
    requires i < |pool| && Available(pool[i])
    requires forall j :: 0 <= j < i ==> !Available(pool[j])
    ensures Acquire(pool, nextId, maxPoolSize, connect) == Acquired(Ok(pool[i]), Sweep(pool), nextId)
  {
    FirstAvailableSurvivesSweep(pool, i);
  }

  /** Below capacity with no idle entry, the pool grows by exactly one: the new,
      fresh connection is appended last and returned. */
  lemma AcquireGrows(pool: seq<Conn>, nextId: nat, maxPoolSize: nat)
    requires forall j :: 0 <= j < |pool| ==> !Available(pool[j])
    requires |Sweep(pool)| < maxPoolSize
    ensures var a := Acquire(pool, nextId, maxPoolSize, Connected);
      && a.result == Ok(Conn(nextId, true, false))
      && a.pool == Sweep(pool) + [Conn(nextId, true, false)]
      && |a.pool| == |Sweep(pool)| + 1
      && a.nextId == nextId + 1
  {
    NoneAvailableAfterSweep(pool);
  }

  /** At capacity with no idle entry, the oldest entry is dropped and a new one
      appended, so the length stays the same. */
  lemma AcquireEvictsOldest(pool: seq<Conn>, nextId: nat, maxPoolSize: nat)
    requires forall j :: 0 <= j < |pool| ==> !Available(pool[j])
    requires 0 < maxPoolSize <= |Sweep(pool)|
    ensures var a := Acquire(pool, nextId, maxPoolSize, Connected);
      && a.result == Ok(Conn(nextId, true, false))
      && a.pool == Sweep(pool)[1..] + [Conn(nextId, true, false)]
      && |a.pool| == |Sweep(pool)|
  {
    NoneAvailableAfterSweep(pool);
  }

  /** A failed `createNewConnection` is passed on unchanged; at capacity the
      oldest entry has already been dropped by then. */
  lemma AcquireFailure(pool: seq<Conn>, nextId: nat, maxPoolSize: nat, e: Error)
    requires forall j :: 0 <= j < |pool| ==> !Available(pool[j])
    ensures var a := Acquire(pool, nextId, maxPoolSize, ConnectFailed(e));
      && a.result == Err(e)
      && a.nextId == nextId
      && a.pool == (if 0 < |Sweep(pool)| && maxPoolSize <= |Sweep(pool)| then Sweep(pool)[1..] else Sweep(pool))
  {
    NoneAvailableAfterSweep(pool);
  }

  /** The sweep keeps the bookkeeping invariant, and sets no entry executing. */
  lemma SweepPreservesInv(pool: seq<Conn>, nextId: nat, maxPoolSize: nat)
    requires Inv(pool, nextId, maxPoolSize)
    ensures Inv(Sweep(pool), nextId, maxPoolSize)
    ensures NoneExecuting(pool) ==> NoneExecuting(Sweep(pool))
  {
    var s := Sweep(pool);
    SweepShape(pool);
    SweepDistinct(pool);
    assert forall i :: 0 <= i < |s| ==> s[i] in pool;
  }

  lemma DropOldestPreservesInv(pool: seq<Conn>, nextId: nat, maxPoolSize: nat)
    requires Inv(pool, nextId, maxPoolSize) && |pool| > 0
    ensures Inv(pool[1..], nextId, maxPoolSize) && |pool[1..]| < maxPoolSize
    ensures NoneExecuting(pool) ==> NoneExecuting(pool[1..])
  {
    assert forall i :: 0 <= i < |pool| - 1 ==> pool[1..][i] == pool[i + 1];
  }

  lemma ConnectPreservesInv(pool: seq<Conn>, nextId: nat, maxPoolSize: nat, connect: ConnectOutcome)
    requires Inv(pool, nextId, maxPoolSize) && |pool| < maxPoolSize
    ensures var a := Connect(pool, nextId, connect);
      && Inv(a.pool, a.nextId, maxPoolSize)
      && a.nextId >= nextId
      && (a.result.Ok? ==> a.result.value in a.pool && a.result.value.loggedIn)
      && (NoneExecuting(pool) ==> NoneExecuting(a.pool))
  {
  }

  /** `getConnection` keeps the bookkeeping invariant, so the pool never has
      more than `MAX_POOL_SIZE` entries, and a connection it returns is a
      logged-in entry of the new pool. */
  lemma AcquirePreservesInv(pool: seq<Conn>, nextId: nat, maxPoolSize: nat, connect: ConnectOutcome)
    requires Inv(pool, nextId, maxPoolSize)
    ensures var a := Acquire(pool, nextId, maxPoolSize, connect);
      && Inv(a.pool, a.nextId, maxPoolSize)
      && a.nextId >= nextId
      && (a.result.Ok? ==> a.result.value in a.pool && a.result.value.loggedIn)
      && (NoneExecuting(pool) ==> NoneExecuting(a.pool))
  {
    var s := Sweep(pool);
    SweepPreservesInv(pool, nextId, maxPoolSize);
    match FindAvailable(s)
    case Some(i) =>
      assert s[i] in s;
    case None =>
      if |s| < maxPoolSize {
        ConnectPreservesInv(s, nextId, maxPoolSize, connect);
      } else {
        DropOldestPreservesInv(s, nextId, maxPoolSize);
        ConnectPreservesInv(s[1..], nextId, maxPoolSize, connect);
      }
  }

  /** Because `isExecuting` is never set, every entry that survives the sweep
      is available: a non-empty swept pool always hands out its first entry,
      so a pool that starts empty never holds more than one connection. */
  lemma AcquireNeverGrowsPastOne(pool: seq<Conn>, nextId: nat, maxPoolSize: nat, connect: ConnectOutcome)
    requires Inv(pool, nextId, maxPoolSize) && NoneExecuting(pool)
    ensures Sweep(pool) != [] ==> Acquire(pool, nextId, maxPoolSize, connect).result == Ok(Sweep(pool)[0])
    ensures |pool| <= 1 ==> |Acquire(pool, nextId, maxPoolSize, connect).pool| <= 1
  {
    var s := Sweep(pool);
    SweepShape(pool);
    if s != [] {
      assert s[0] in s;
      assert s[0] in pool;
      assert Available(s[0]);
    }
  }

  // ---------------------------------------------------------------- binding

  /** The placeholder name of the i-th parameter: `param${index}`. */
  function ParamName(i: nat): string {
    "param" + NatToString(i)
  }

  /** Distinct positions are bound under distinct names. */
  lemma ParamNamesDistinct(i: nat, j: nat)
    requires i != j
    ensures ParamName(i) != ParamName(j)
  {
    NatToStringInjective(i, j);
    assert ParamName(i)[5..] == NatToString(i);
    assert ParamName(j)[5..] == NatToString(j);
  }

  /** The request's parameter list: parameter i under `ParamName(i)`, with its
      type and value as given. */
  function Bindings(params: seq<Param>): (b: seq<Binding>)
    ensures |b| == |params|
    ensures forall i :: 0 <= i < |params| ==> b[i] == Binding(ParamName(i), params[i].ty, params[i].value)
  {
    if params == [] then []
    else
      var n := |params| - 1;
      var b := Bindings(params[..n]);
      assert forall i :: 0 <= i < n ==> params[..n][i] == params[i];
      b + [Binding(ParamName(n), params[n].ty, params[n].value)]
  }

  /** `params.forEach((param, index) => request.addParameter(...))` */
  method BindParams(params: seq<Param>) returns (b: seq<Binding>)
    ensures b == Bindings(params)
  {
    b := [];
    for i := 0 to |params|
      invariant b == Bindings(params[..i])
    {
      assert params[..i + 1][..i] == params[..i];
      b := b + [Binding(ParamName(i), params[i].ty, params[i].value)];
    }
    assert params[..|params|] == params;
  }

  // ------------------------------------------------------------- rows

  predicate Terminal(e: RequestEvent) {
    e.Completed? || e.Failed?
  }

  /** The columns of every row event, in emission order. */
  function RowsOf(events: seq<RequestEvent>): seq<Row> {
    if events == [] then []
    else (if events[0].RowEvent? then [events[0].columns] else []) + RowsOf(events[1..])
  }

  /** Prefix rows already collected to an outcome that is still to come. */
  function PrependRows(rows: seq<Row>, o: QueryOutcome): QueryOutcome {
    if o.Resolved? then Resolved(rows + o.rows) else o
  }

  /** How the promise settles on a stream of events: it takes the first of
      `requestCompleted` (resolve with every row so far) or an error (reject);
      with neither it stays pending. */
  function Settle(events: seq<RequestEvent>): QueryOutcome {
    if events == [] then Pending
    else match events[0]
      case Completed => Resolved([])
      case Failed(e) => Rejected(e)
      case RowEvent(c) => PrependRows([c], Settle(events[1..]))
  }

  /** At the first completion or error the promise settles: on completion with
      all rows emitted before it, as one flat list in emission order; whatever
      comes after is ignored. */
  lemma {:induction false} SettleAtFirstTerminal(events: seq<RequestEvent>, k: nat)
    requires k < |events| && Terminal(events[k])
    requires forall j :: 0 <= j < k ==> !Terminal(events[j])
    ensures Settle(events) == if events[k].Completed? then Resolved(RowsOf(events[..k])) else Rejected(events[k].err)
    decreases k
  {
    if k > 0 {
      assert events[1..][k - 1] == events[k];
      SettleAtFirstTerminal(events[1..], k - 1);
      assert events[..k][1..] == events[1..][..k - 1];
    }
  }

  /** Without completion or error the promise never settles. */
  lemma {:induction false} SettlePending(events: seq<RequestEvent>)
    requires forall j :: 0 <= j < |events| ==> !Terminal(events[j])
    ensures Settle(events) == Pending
    decreases |events|
  {
    if events != [] {
      SettlePending(events[1..]);
    }
  }

  /** The `row`, `requestCompleted` and `error` handlers: collect rows until
      the request completes or fails. */
  method CollectRows(events: seq<RequestEvent>) returns (r: QueryOutcome)
    ensures r == Settle(events)
  {
    var results: seq<Row> := [];
    var i := 0;
    while i < |events|
      invariant 0 <= i <= |events|
      invariant Settle(events) == PrependRows(results, Settle(events[i..]))
    {
      match events[i]
      case Completed =>
        return Resolved(results);
      case Failed(e) =>
        return Rejected(e);
      case RowEvent(c) =>
        results := results + [c];
        assert events[i..][1..] == events[i + 1..];
      i := i + 1;
    }
    r := Pending;
  }

  // ------------------------------------------------------------ execution

  /** What one `executeQuery` call does, with the delays it waits between
      attempts, the connection its request ran on if any, and the pool it
      leaves behind. */
  datatype Execution = Execution(outcome: QueryOutcome, delays: seq<nat>, ranOn: Option<Conn>, pool: seq<Conn>, nextId: nat)

  function WithDelays(d: seq<nat>, x: Execution): Execution {
    x.(delays := d + x.delays)
  }

  /** `executeQuery(query, params)` (connection.js:153-214) from attempt
      `attempts` on. Only a failure of `getConnection` is caught and retried:
      the request's promise is returned without `await`, so its rejection goes
      straight to the caller. */
  function Execute(query: string, params: seq<Param>, pool: seq<Conn>, nextId: nat, maxPoolSize: nat,
                   connect: nat -> ConnectOutcome, respond: (Conn, string, seq<Binding>) -> seq<RequestEvent>,
                   attempts: nat): Execution
    requires attempts < MaxAttempts
    decreases MaxAttempts - attempts
  {
    var a := Acquire(pool, nextId, maxPoolSize, connect(attempts));
    match a.result
    case Ok(c) => Execution(Settle(respond(c, query, Bindings(params))), [], Some(c), a.pool, a.nextId)
    case Err(e) =>
      if attempts + 1 >= MaxAttempts then Execution(Rejected(e), [], None, a.pool, a.nextId)
      else WithDelays([500 * (attempts + 1)],
                      Execute(query, params, a.pool, a.nextId, maxPoolSize, connect, respond, attempts + 1))
  }

  /** At most three attempts are made; after failed attempt k the delay is
      500 * k ms, and no delay follows the last attempt. */
  lemma {:induction false} ExecuteBackoff(query: string, params: seq<Param>, pool: seq<Conn>, nextId: nat, maxPoolSize: nat,
                                          connect: nat -> ConnectOutcome, respond: (Conn, string, seq<Binding>) -> seq<RequestEvent>,
                                          attempts: nat)
    requires attempts < MaxAttempts
    ensures var x := Execute(query, params, pool, nextId, maxPoolSize, connect, respond, attempts);
      && |x.delays| <= MaxAttempts - 1 - attempts
      && forall k :: 0 <= k < |x.delays| ==> x.delays[k] == 500 * (attempts + k + 1)
    decreases MaxAttempts - attempts
  {
    var a := Acquire(pool, nextId, maxPoolSize, connect(attempts));
    if a.result.Err? && attempts + 1 < MaxAttempts {
      ExecuteBackoff(query, params, a.pool, a.nextId, maxPoolSize, connect, respond, attempts + 1);
    }
  }

  /** When the request never ran, every remaining attempt failed to open a
      connection, and the caller gets the error of the last attempt unchanged. */
  lemma {:induction false} ExecuteRethrowsLastError(query: string, params: seq<Param>, pool: seq<Conn>, nextId: nat, maxPoolSize: nat,
                                                    connect: nat -> ConnectOutcome, respond: (Conn, string, seq<Binding>) -> seq<RequestEvent>,
                                                    attempts: nat)
    requires attempts < MaxAttempts
    ensures var x := Execute(query, params, pool, nextId, maxPoolSize, connect, respond, attempts);
      x.ranOn.None? ==>
        && |x.delays| == MaxAttempts - 1 - attempts
        && (forall k :: attempts <= k < MaxAttempts ==> connect(k).ConnectFailed?)
        && x.outcome == Rejected(connect(MaxAttempts - 1).err)
    decreases MaxAttempts - attempts
  {
    var a := Acquire(pool, nextId, maxPoolSize, connect(attempts));
    if a.result.Err? {
      assert connect(attempts).ConnectFailed?;
      if attempts + 1 < MaxAttempts {
        ExecuteRethrowsLastError(query, params, a.pool, a.nextId, maxPoolSize, connect, respond, attempts + 1);
      }
    }
  }

  /** Once the request runs it is not retried: its rows or its error are what
      the caller sees, and the parameters it ran with are bound positionally. */
  lemma {:induction false} ExecuteRunsOnce(query: string, params: seq<Param>, pool: seq<Conn>, nextId: nat, maxPoolSize: nat,
                                           connect: nat -> ConnectOutcome, respond: (Conn, string, seq<Binding>) -> seq<RequestEvent>,
                                           attempts: nat)
    requires attempts < MaxAttempts
    ensures var x := Execute(query, params, pool, nextId, maxPoolSize, connect, respond, attempts);
      x.ranOn.Some? ==> x.outcome == Settle(respond(x.ranOn.value, query, Bindings(params)))
    decreases MaxAttempts - attempts
  {
    var a := Acquire(pool, nextId, maxPoolSize, connect(attempts));
    if a.result.Err? && attempts + 1 < MaxAttempts {
      ExecuteRunsOnce(query, params, a.pool, a.nextId, maxPoolSize, connect, respond, attempts + 1);
    }
  }

  /** `executeQuery` keeps the bookkeeping invariant. */
  lemma {:induction false} ExecutePreservesInv(query: string, params: seq<Param>, pool: seq<Conn>, nextId: nat, maxPoolSize: nat,
                                               connect: nat -> ConnectOutcome, respond: (Conn, string, seq<Binding>) -> seq<RequestEvent>,
                                               attempts: nat)
    requires attempts < MaxAttempts
    requires Inv(pool, nextId, maxPoolSize)
    ensures var x := Execute(query, params, pool, nextId, maxPoolSize, connect, respond, attempts);
      Inv(x.pool, x.nextId, maxPoolSize)
    decreases MaxAttempts - attempts
  {
    var a := Acquire(pool, nextId, maxPoolSize, connect(attempts));
    AcquirePreservesInv(pool, nextId, maxPoolSize, connect(attempts));
    ExecuteState(query, params, pool, nextId, maxPoolSize, connect, respond, attempts);
    if a.result.Err? && attempts + 1 < MaxAttempts {
      ExecutePreservesInv(query, params, a.pool, a.nextId, maxPoolSize, connect, respond, attempts + 1);
    }
  }

  /** A pool with no entry flagged as executing, of at most one connection,
      stays so across `executeQuery`. */
  lemma {:induction false} ExecuteKeepsSingleConnection(query: string, params: seq<Param>, pool: seq<Conn>, nextId: nat, maxPoolSize: nat,
                                                        connect: nat -> ConnectOutcome, respond: (Conn, string, seq<Binding>) -> seq<RequestEvent>,
                                                        attempts: nat)
    requires attempts < MaxAttempts
    requires Inv(pool, nextId, maxPoolSize) && NoneExecuting(pool)
    ensures var x := Execute(query, params, pool, nextId, maxPoolSize, connect, respond, attempts);
      NoneExecuting(x.pool) && (|pool| <= 1 ==> |x.pool| <= 1)
    decreases MaxAttempts - attempts
  {
    var a := Acquire(pool, nextId, maxPoolSize, connect(attempts));
    AcquirePreservesInv(pool, nextId, maxPoolSize, connect(attempts));
    AcquireNeverGrowsPastOne(pool, nextId, maxPoolSize, connect(attempts));
    ExecuteState(query, params, pool, nextId, maxPoolSize, connect, respond, attempts);
    if a.result.Err? && attempts + 1 < MaxAttempts {
      ExecuteKeepsSingleConnection(query, params, a.pool, a.nextId, maxPoolSize, connect, respond, attempts + 1);
    }
  }

  /** One attempt of `executeQuery`, unfolded. */
  lemma ExecuteStep(query: string, params: seq<Param>, pool: seq<Conn>, nextId: nat, maxPoolSize: nat,
                    connect: nat -> ConnectOutcome, respond: (Conn, string, seq<Binding>) -> seq<RequestEvent>,
                    attempts: nat, a: Acquired)
    requires attempts < MaxAttempts
    requires a == Acquire(pool, nextId, maxPoolSize, connect(attempts))
    ensures a.result.Ok? ==>
              Execute(query, params, pool, nextId, maxPoolSize, connect, respond, attempts)
              == Execution(Settle(respond(a.result.value, query, Bindings(params))), [], Some(a.result.value), a.pool, a.nextId)
    ensures a.result.Err? && attempts + 1 >= MaxAttempts ==>
              Execute(query, params, pool, nextId, maxPoolSize, connect, respond, attempts)
              == Execution(Rejected(a.result.error), [], None, a.pool, a.nextId)
    ensures a.result.Err? && attempts + 1 < MaxAttempts ==>
              Execute(query, params, pool, nextId, maxPoolSize, connect, respond, attempts)
              == WithDelays([500 * (attempts + 1)], Execute(query, params, a.pool, a.nextId, maxPoolSize, connect, respond, attempts + 1))
  {
  }

  lemma RetryStep(spec: Execution, delays: seq<nat>, x: Execution, d: nat, rest: Execution)
    requires spec == WithDelays(delays, x) && x == WithDelays([d], rest)
    ensures spec == WithDelays(delays + [d], rest)
  {
    assert delays + ([d] + rest.delays) == (delays + [d]) + rest.delays;
  }

  /** The pool `executeQuery` leaves is the one its last `getConnection` left. */
  lemma ExecuteState(query: string, params: seq<Param>, pool: seq<Conn>, nextId: nat, maxPoolSize: nat,
                     connect: nat -> ConnectOutcome, respond: (Conn, string, seq<Binding>) -> seq<RequestEvent>,
                     attempts: nat)
    requires attempts < MaxAttempts
    ensures var a := Acquire(pool, nextId, maxPoolSize, connect(attempts));
      var x := Execute(query, params, pool, nextId, maxPoolSize, connect, respond, attempts);
      if a.result.Err? && attempts + 1 < MaxAttempts then
        var y := Execute(query, params, a.pool, a.nextId, maxPoolSize, connect, respond, attempts + 1);
        x.pool == y.pool && x.nextId == y.nextId
      else x.pool == a.pool && x.nextId == a.nextId
  {
  }

  // ------------------------------------------------------------- the class

  class DatabasePool {
    var connectionPool: seq<Conn>
    /** The identity the next connection object will have. */
    var nextId: nat
    const maxPoolSize: nat

    ghost predicate Valid()
      reads this
    {
      Inv(connectionPool, nextId, maxPoolSize)
    }

    /** `new DatabasePool()`: an empty pool of `config.database.maxPoolSize || 10`
        connections, where 0 stands for a missing value. */
    constructor (configuredMaxPoolSize: nat)
      ensures Valid()
      ensures connectionPool == [] && nextId == 0
      ensures maxPoolSize == if configuredMaxPoolSize == 0 then DefaultPoolSize else configuredMaxPoolSize
    {
      connectionPool := [];
      nextId := 0;
      maxPoolSize := if configuredMaxPoolSize == 0 then DefaultPoolSize else configuredMaxPoolSize;
    }

    /** The driver moves connection `id` out of the LoggedIn state (the server
        closed it, or a socket error occurred). Nothing else changes. */
    method ConnectionLost(id: nat)
      requires Valid()
      modifies this
      ensures Valid()
      ensures nextId == old(nextId)
      ensures |connectionPool| == |old(connectionPool)|
      ensures forall i :: 0 <= i < |connectionPool| ==>
        connectionPool[i] == if old(connectionPool)[i].id == id then old(connectionPool)[i].(loggedIn := false)
                             else old(connectionPool)[i]
    {
      connectionPool := seq(|connectionPool|, i requires 0 <= i < |connectionPool| reads this =>
        if connectionPool[i].id == id then connectionPool[i].(loggedIn := false) else connectionPool[i]);
    }

    /** `createNewConnection()` and, on success, `connectionPool.push(...)`. */
    method PushNewConnection(connect: ConnectOutcome) returns (r: Result<Conn>)
      modifies this
      ensures Acquired(r, connectionPool, nextId) == Connect(old(connectionPool), old(nextId), connect)
    {
      match connect
      case ConnectFailed(e) =>
        r := Err(e);
      case Connected =>
        var c := Conn(nextId, true, false);
        nextId := nextId + 1;
        connectionPool := connectionPool + [c];
        r := Ok(c);
    }

    /** The backward loop at the top of `getConnection`: every entry that is
        not LoggedIn is closed and spliced out; the others keep their order. */
    method RemoveClosed()
      modifies this
      ensures connectionPool == Sweep(old(connectionPool))
      ensures nextId == old(nextId)
    {
      ghost var pool0 := connectionPool;
      var i := |connectionPool|;
      while i > 0
        invariant 0 <= i <= |pool0|
        invariant connectionPool == pool0[..i] + Sweep(pool0[i..])
        invariant nextId == old(nextId)
      {
        i := i - 1;
        BackwardSweepStep(pool0, connectionPool, i);
        if !connectionPool[i].loggedIn {
          connectionPool := connectionPool[..i] + connectionPool[i + 1..];
        }
      }
      assert pool0[0..] == pool0;
    }

    /** `getConnection()` */
    method GetConnection(connect: ConnectOutcome) returns (r: Result<Conn>)
      requires Valid()
      modifies this
      ensures Valid()
      ensures Acquired(r, connectionPool, nextId) == Acquire(old(connectionPool), old(nextId), maxPoolSize, connect)
    {
      AcquirePreservesInv(connectionPool, nextId, maxPoolSize, connect);
      RemoveClosed();
      var found := FindAvailable(connectionPool);
      if found.Some? {
        r := Ok(connectionPool[found.value]);
        return;
      }
      if |connectionPool| < maxPoolSize {
        r := PushNewConnection(connect);
        return;
      }
      if |connectionPool| > 0 {
        // close the oldest connection and drop it
        connectionPool := connectionPool[1..];
        r := PushNewConnection(connect);
        return;
      }
      // last resort: unreachable, since MAX_POOL_SIZE is at least 1
      assert false;
    }

    /** `connection.close()` and `connectionPool.splice(indexOf(connection), 1)`
        (connection.js:192-203): the entry with that identity, if present, is
        removed and every other entry stays in place. */
    method RemoveConnection(c: Conn)
      requires Valid()
      modifies this
      ensures Valid()
      ensures nextId == old(nextId)
      ensures forall k :: 0 <= k < |old(connectionPool)| && old(connectionPool)[k].id == c.id ==>
        connectionPool == old(connectionPool)[..k] + old(connectionPool)[k + 1..]
      ensures (forall k :: 0 <= k < |old(connectionPool)| ==> old(connectionPool)[k].id != c.id) ==>
        connectionPool == old(connectionPool)
    {
      var index := 0;
      while index < |connectionPool| && connectionPool[index].id != c.id
        invariant 0 <= index <= |connectionPool|
        invariant forall k :: 0 <= k < index ==> connectionPool[k].id != c.id
      {
        index := index + 1;
      }
      if index < |connectionPool| {
        ghost var before := connectionPool;
        connectionPool := connectionPool[..index] + connectionPool[index + 1..];
        assert forall k :: 0 <= k < |connectionPool| ==> connectionPool[k] in before;
      }
    }

    /** One pass of the retry loop of `executeQuery`: acquire a connection
        and, if that succeeds, run the request on it. `spec` is what the whole
        call does and `delays` the waits made so far; the pass settles the
        call, or leaves it one wait and one attempt further on. */
    method Attempt(query: string, params: seq<Param>, connect: nat -> ConnectOutcome,
                   respond: (Conn, string, seq<Binding>) -> seq<RequestEvent>, attempts: nat,
                   ghost spec: Execution, ghost delays: seq<nat>)
      returns (got: Result<Conn>, r: QueryOutcome)
      requires Valid() && attempts < MaxAttempts
      requires spec == WithDelays(delays, Execute(query, params, connectionPool, nextId, maxPoolSize, connect, respond, attempts))
      modifies this
      ensures Valid()
      ensures got.Ok? ==> r == spec.outcome && delays == spec.delays && connectionPool == spec.pool && nextId == spec.nextId
      ensures got.Err? && attempts + 1 >= MaxAttempts ==>
        Rejected(got.error) == spec.outcome && delays == spec.delays && connectionPool == spec.pool && nextId == spec.nextId
      ensures got.Err? && attempts + 1 < MaxAttempts ==>
        spec == WithDelays(delays + [500 * (attempts + 1)],
                           Execute(query, params, connectionPool, nextId, maxPoolSize, connect, respond, attempts + 1))
    {
      ghost var pool0, next0 := connectionPool, nextId;
      ghost var before := Execute(query, params, pool0, next0, maxPoolSize, connect, respond, attempts);
      got := GetConnection(connect(attempts));
      ExecuteStep(query, params, pool0, next0, maxPoolSize, connect, respond, attempts, Acquired(got, connectionPool, nextId));
      r := Pending;
      if got.Ok? {
        var bindings := BindParams(params);
        r := CollectRows(respond(got.value, query, bindings));
        assert delays + [] == delays;
      } else if attempts + 1 >= MaxAttempts {
        assert delays + [] == delays;
      } else {
        RetryStep(spec, delays, before, 500 * (attempts + 1),
                  Execute(query, params, connectionPool, nextId, maxPoolSize, connect, respond, attempts + 1));
      }
    }

    /** `executeQuery(query, params)` */
    method ExecuteQuery(query: string, params: seq<Param>, connect: nat -> ConnectOutcome,
                        respond: (Conn, string, seq<Binding>) -> seq<RequestEvent>)
      returns (r: QueryOutcome, delays: seq<nat>)
      requires Valid()
      modifies this
      ensures Valid()
      ensures var x := Execute(query, params, old(connectionPool), old(nextId), maxPoolSize, connect, respond, 0);
        r == x.outcome && delays == x.delays && connectionPool == x.pool && nextId == x.nextId
    {
      ghost var spec := Execute(query, params, connectionPool, nextId, maxPoolSize, connect, respond, 0);
      var connection: Option<Conn> := None;
      var attempts: nat := 0;
      delays := [];
      r := Pending;
      while attempts < MaxAttempts
        invariant attempts <= MaxAttempts
        invariant Valid()
        invariant connection == None
        invariant attempts < MaxAttempts ==>
          spec == WithDelays(delays, Execute(query, params, connectionPool, nextId, maxPoolSize, connect, respond, attempts))
        invariant attempts == MaxAttempts ==>
          r == spec.outcome && delays == spec.delays && connectionPool == spec.pool && nextId == spec.nextId
        decreases MaxAttempts - attempts
      {
        var got, outcome := Attempt(query, params, connect, respond, attempts, spec, delays);
        if got.Ok? {
          connection := Some(got.value);
          r := outcome;
          return;
        }
        attempts := attempts + 1;
        // the held connection would be removed here, but none is ever held
        if connection.Some? {
          assert false;
        }
        if attempts >= MaxAttempts {
          r := Rejected(got.error);
        } else {
          delays := delays + [500 * attempts];
        }
      }
    }
  }

  /** A pool of size one used twice in a row hands out the same connection
      the second time, without trying to connect again: the second call is
      given a failing connector and still succeeds. */
  method ReuseScenario() returns (first: Result<Conn>, second: Result<Conn>, pool: seq<Conn>)
    ensures first == Ok(Conn(0, true, false))
    ensures second == first
    ensures pool == [Conn(0, true, false)]
  {
    var db := new DatabasePool(1);
    first := db.GetConnection(Connected);
    second := db.GetConnection(ConnectFailed(Error("unused")));
    pool := db.connectionPool;
  }
}
