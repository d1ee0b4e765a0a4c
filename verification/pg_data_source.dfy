/** The datasource: the event loop and buffer pool its sessions share, the
    registry of open connections, and a closed flag that, once set, stops it
    from handing out session builders. The loop, the pool and the connections
    are opaque type parameters; starting the default loop's thread and closing
    a connection are effects recorded in the returned records. */
module DataSources {
  import opened Wrappers

  /** The session properties, by name. */
  type Properties = map<string, string>

  datatype DataSource<C, L, P> = DataSource(
    properties: Properties,
    loop: L,
    pool: P,
    ownsDefaultLoop: bool,
    defaultLoopClosed: bool,
    connections: seq<C>,
    closed: bool)

  /** A datasource built from its properties: the configured loop and pool
      when present, otherwise fresh defaults, of which only the loop is owned
      (and later closed) by the datasource. */
  function New<C(==), L, P>(properties: Properties, configuredLoop: Option<L>, configuredPool: Option<P>,
                           defaultLoop: L, defaultPool: P): (r: DataSource<C, L, P>)
    ensures !r.closed && r.connections == [] && r.properties == properties
    ensures configuredLoop.Some? ==> r.loop == configuredLoop.value && !r.ownsDefaultLoop
    ensures configuredLoop.None? ==> r.loop == defaultLoop && r.ownsDefaultLoop
    ensures configuredPool.Some? ==> r.pool == configuredPool.value
    ensures configuredPool.None? ==> r.pool == defaultPool
    ensures !r.defaultLoopClosed
  {
    DataSource(properties, configuredLoop.GetOr(defaultLoop), configuredPool.GetOr(defaultPool),
               configuredLoop.None?, false, [], false)
  }

  /** The failure `builder()` raises on a closed datasource. */
  datatype IllegalState = IllegalState(message: string)

  const ClosedMessage: string := "this datasource has already been closed"

  /** A session builder, seeded with a copy of the datasource's properties. */
  datatype SessionBuilder = SessionBuilder(properties: Properties)

  function Builder<C(==), L, P>(ds: DataSource<C, L, P>): (r: Result<SessionBuilder, IllegalState>)
    ensures r.Err? <==> ds.closed
    ensures r.Err? ==> r.error.message == ClosedMessage
    ensures r.Ok? ==> r.value.properties == ds.properties
  {
    if ds.closed then Err(IllegalState(ClosedMessage))
    else Ok(SessionBuilder(ds.properties))
  }

  function IsClosed<C(==), L, P>(ds: DataSource<C, L, P>): bool {
    ds.closed
  }

  /** Appends a connection to the registry. */
  function RegisterConnection<C(==), L, P>(ds: DataSource<C, L, P>, c: C): (r: DataSource<C, L, P>)
    ensures r.connections == ds.connections + [c]
    ensures r == ds.(connections := r.connections)
  {
    ds.(connections := ds.connections + [c])
  }

  /** The sequence with the first occurrence of `x` removed, if there is one. */
  function RemoveFirst<C(==)>(s: seq<C>, x: C): (r: seq<C>)
    ensures x in s ==> |r| == |s| - 1
    ensures x !in s ==> r == s
    decreases |s|
  {
    if s == [] then []
    else if s[0] == x then s[1..]
    else [s[0]] + RemoveFirst(s[1..], x)
  }

  /** Removal takes away exactly one copy of `x`, when there is one. */
  lemma {:induction false} RemoveFirstCount<C>(s: seq<C>, x: C)
    ensures multiset(RemoveFirst(s, x)) == multiset(s) - multiset{x}
    decreases |s|
  {
    if s != [] {
      assert s == [s[0]] + s[1..];
      RemoveFirstCount(s[1..], x);
    }
  }

  /** The position of the first occurrence of `x`. */
  function FirstIndex<C(==)>(s: seq<C>, x: C): (k: nat)
    requires x in s
    ensures k < |s| && s[k] == x && x !in s[..k]
    decreases |s|
  {
    if s[0] == x then 0
    else
      assert s[1..][..FirstIndex(s[1..], x)] == s[..FirstIndex(s[1..], x) + 1][1..];
      FirstIndex(s[1..], x) + 1
  }

  /** Removing the first occurrence keeps everything before it and everything
      after it, in order. */
  lemma {:induction false} RemoveFirstSplits<C>(s: seq<C>, x: C)
    requires x in s
    ensures RemoveFirst(s, x) == s[..FirstIndex(s, x)] + s[FirstIndex(s, x) + 1..]
    decreases |s|
  {
    if s[0] != x {
      var t := s[1..];
      var k := FirstIndex(t, x);
      assert FirstIndex(s, x) == k + 1;
      RemoveFirstSplits(t, x);
      assert RemoveFirst(s, x) == [s[0]] + (t[..k] + t[k + 1..]);
      assert s[..k + 1] == [s[0]] + t[..k];
      assert s[k + 2..] == t[k + 1..];
    }
  }

  /** Removes one occurrence of the connection; absent connections are ignored. */
  function UnregisterConnection<C(==), L, P>(ds: DataSource<C, L, P>, c: C): (r: DataSource<C, L, P>)
    ensures multiset(r.connections) == multiset(ds.connections) - multiset{c}
    ensures c !in ds.connections ==> r.connections == ds.connections
    ensures c in ds.connections ==>
      r.connections == ds.connections[..FirstIndex(ds.connections, c)] + ds.connections[FirstIndex(ds.connections, c) + 1..]
    ensures r == ds.(connections := r.connections)
  {
    RemoveFirstCount(ds.connections, c);
    assert c in ds.connections ==>
      RemoveFirst(ds.connections, c) == ds.connections[..FirstIndex(ds.connections, c)] + ds.connections[FirstIndex(ds.connections, c) + 1..] by {
      if c in ds.connections {
        RemoveFirstSplits(ds.connections, c);
      }
    }
    ds.(connections := RemoveFirst(ds.connections, c))
  }

  /** Closing: the connections to close, in registry order, and the datasource
      after closing. */
  datatype Closing<C, L, P> = Closing(closedConnections: seq<C>, ds: DataSource<C, L, P>)

  /** Closes every registered connection, then the default loop if the
      datasource owns one, and marks the datasource closed. The registry is
      not emptied. */
  function Close<C(==), L, P>(ds: DataSource<C, L, P>): (r: Closing<C, L, P>)
    ensures r.closedConnections == ds.connections
    ensures r.ds.closed
    ensures r.ds.defaultLoopClosed <==> ds.defaultLoopClosed || ds.ownsDefaultLoop
    ensures r.ds == ds.(closed := true, defaultLoopClosed := r.ds.defaultLoopClosed)
  {
    Closing(ds.connections,
            ds.(closed := true, defaultLoopClosed := ds.defaultLoopClosed || ds.ownsDefaultLoop))
  }

  /** A configured loop is never closed by the datasource. */
  lemma ConfiguredLoopStaysOpen<C, L, P>(properties: Properties, loop: L, pool: Option<P>, defaultLoop: L, defaultPool: P)
    ensures var ds := Close(New<C, L, P>(properties, Some(loop), pool, defaultLoop, defaultPool)).ds;
      !ds.defaultLoopClosed && ds.loop == loop
  {
  }

  /** Once closed, `builder()` fails with the closed message. */
  lemma BuilderFailsAfterClose<C, L, P>(ds: DataSource<C, L, P>)
    ensures Builder(Close(ds).ds) == Err(IllegalState(ClosedMessage))
  {
  }

  // ---------------------------------------------------------------------------
  // Lifetime

  datatype Op<C> = Registered(c: C) | Unregistered(c: C) | Closed

  function Step<C(==), L, P>(ds: DataSource<C, L, P>, op: Op<C>): (r: DataSource<C, L, P>)
    ensures ds.closed ==> r.closed
    ensures r.closed <==> ds.closed || op.Closed?
    ensures r.loop == ds.loop && r.pool == ds.pool && r.properties == ds.properties
  {
    match op
    case Registered(c) => RegisterConnection(ds, c)
    case Unregistered(c) => UnregisterConnection(ds, c)
    case Closed => Close(ds).ds
  }

  function Run<C(==), L, P>(ds: DataSource<C, L, P>, ops: seq<Op<C>>): DataSource<C, L, P>
    decreases |ops|
  {
    if ops == [] then ds else Run(Step(ds, ops[0]), ops[1..])
  }

  /** Nothing reopens a datasource: after any calls it is closed exactly when
      it was closed before or one of them closed it, and a closed datasource
      refuses every later `builder()` call. */
  lemma {:induction false} ClosedIsFinal<C, L, P>(ds: DataSource<C, L, P>, ops: seq<Op<C>>)
    ensures Run(ds, ops).closed <==> ds.closed || exists i :: 0 <= i < |ops| && ops[i].Closed?
    ensures Run(ds, ops).closed ==> Builder(Run(ds, ops)) == Err(IllegalState(ClosedMessage))
    ensures Run(ds, ops).loop == ds.loop && Run(ds, ops).pool == ds.pool
    decreases |ops|
  {
    if ops != [] {
      ClosedIsFinal(Step(ds, ops[0]), ops[1..]);
      assert forall i :: 1 <= i < |ops| ==> ops[i] == ops[1..][i - 1];
      if exists i :: 0 <= i < |ops| && ops[i].Closed? {
        var i :| 0 <= i < |ops| && ops[i].Closed?;
        if i > 0 {
          assert ops[1..][i - 1].Closed?;
        }
      }
    }
  }

  /** The registry a sequence of calls leaves behind, counted with
      multiplicity: each registration adds one copy, each unregistration
      removes one copy if there is one, and a close changes nothing. */
  function Registrations<C(==)>(ops: seq<Op<C>>): (r: multiset<C>)
    decreases |ops|
  {
    if ops == [] then multiset{}
    else
      match ops[|ops| - 1]
      case Registered(c) => Registrations(ops[..|ops| - 1]) + multiset{c}
      case Unregistered(c) => Registrations(ops[..|ops| - 1]) - multiset{c}
      case Closed => Registrations(ops[..|ops| - 1])
  }

  /** The registry's contents are determined by the register and unregister
      calls alone; closing does not clear it. */
  lemma {:induction false} RegistryTracksCalls<C, L, P>(ds: DataSource<C, L, P>, ops: seq<Op<C>>)
    requires ds.connections == []
    ensures multiset(Run(ds, ops).connections) == Registrations(ops)
    decreases |ops|
  {
    if ops != [] {
      var init, last := ops[..|ops| - 1], ops[|ops| - 1];
      RegistryTracksCalls(ds, init);
      RunSnoc(ds, init, last);
      assert init + [last] == ops;
      StepTallies(Run(ds, init), last);
    }
  }

  /** One call changes the registry's multiset as `Registrations` counts it. */
  lemma StepTallies<C, L, P>(ds: DataSource<C, L, P>, op: Op<C>)
    ensures multiset(Step(ds, op).connections) == match op
      case Registered(c) => multiset(ds.connections) + multiset{c}
      case Unregistered(c) => multiset(ds.connections) - multiset{c}
      case Closed => multiset(ds.connections)
  {
  }

  lemma {:induction false} RunSnoc<C, L, P>(ds: DataSource<C, L, P>, ops: seq<Op<C>>, op: Op<C>)
    ensures Run(ds, ops + [op]) == Step(Run(ds, ops), op)
    decreases |ops|
  {
    if ops == [] {
      assert [] + [op] == [op];
    } else {
      assert (ops + [op])[1..] == ops[1..] + [op];
      RunSnoc(Step(ds, ops[0]), ops[1..], op);
    }
  }
}
