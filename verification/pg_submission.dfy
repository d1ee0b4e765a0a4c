/** One asynchronous unit of work: its fixed kind, its send-once flag, its lazily
    created completion cell, the collector that folds its rows, and the link
    through which its finished value reaches an enclosing group. Every
    operation is a pure function from the old record to the new one; a Java
    exception thrown to the caller is an `Err`, and then nothing has changed. */
module Submissions {
  import opened Wrappers

  /** What the submission completes with, chosen when it is created. */
  datatype Kind =
    | COUNT | ROW | CLOSE | TRANSACTION | ARRAY_COUNT
    | VOID | PROCESSOR | OUT_PARAMETER | LOCAL | GROUP

  /** A Java exception: a dereferenced null, or one raised by caller code. */
  datatype Error = NullReference | Raised(cause: string)

  /** A completion cell: pending until it settles, once, with a value or an error. */
  datatype Stage<T> = Pending | Completed(value: T) | Failed(error: Error) {

    predicate Settled() {
      !Pending?
    }

    /** Settles a pending cell with a value; a settled cell ignores it. */
    function Complete(v: T): (r: Stage<T>)
      ensures r.Settled()
      ensures Pending? ==> r == Completed(v)
      ensures Settled() ==> r == this
    {
      if Pending? then Completed(v) else this
    }

    /** Settles a pending cell with an error; a settled cell ignores it. */
    function CompleteExceptionally(e: Error): (r: Stage<T>)
      ensures r.Settled()
      ensures Pending? ==> r == Failed(e)
      ensures Settled() ==> r == this
    {
      if Pending? then Failed(e) else this
    }
  }

  /** A reducer of values of type `V` through a mutable holder of type `A`. An
      accumulation step either yields the next holder or raises an error, and
      so does the finisher that turns the holder into the result. */
  datatype Collector<!A, !V> = Collector(
    supplier: () -> A,
    accumulator: (A, V) -> Result<A, Error>,
    finisher: A -> Result<V, Error>)

  /** A collector together with the holder it has folded so far. */
  datatype Reducer<!A, !V> = Reducer(collector: Collector<A, V>, holder: A)

  /** A row publisher that is present: open until it is closed. */
  datatype Publisher = Open | Closed

  /** The bound parameters; only the number of parameter sets is modelled,
      as a stored count that only a new `setHolder` replaces. */
  datatype ParameterHolder = ParameterHolder(repetitions: int)

  /** The identity of a group submission: the reference a member keeps to its
      group, reduced to something two links can be compared by. */
  type GroupId = nat

  /** The record. Rows, group results and completion values share the type `V`,
      as they share `Object` in the source; `None` stands for `null`. */
  datatype Submission<!A, !V> = Submission(
    kind: Kind,
    sendConsumed: bool,
    stage: Option<Stage<V>>,
    reducer: Option<Reducer<A, V>>,
    publisher: Option<Publisher>,
    group: Option<GroupId>,
    holder: Option<ParameterHolder>,
    outProcessor: Option<V -> Result<V, Error>>,
    outValue: Option<V>)

  /** A fresh submission of the given kind. */
  function New<A, V>(kind: Kind): (r: Submission<A, V>)
    ensures r.kind == kind && !r.sendConsumed
    ensures r.stage.None? && r.reducer.None? && r.publisher.None? && r.group.None?
    ensures r.holder.None? && r.outProcessor.None? && r.outValue.None?
  {
    Submission(kind, false, None, None, None, None, None, None, None)
  }

  // ---------------------------------------------------------------------------
  // Completion cell and send-once flag

  datatype StageView<!A, !V> = StageView(sub: Submission<A, V>, stage: Stage<V>)

  /** The completion cell, created pending on the first call only. */
  function GetCompletionStage<A, V>(s: Submission<A, V>): (r: StageView<A, V>)
    ensures r.sub.stage == Some(r.stage)
    ensures s.stage.Some? ==> r.stage == s.stage.value && r.sub == s
    ensures s.stage.None? ==> r.stage == Pending && r.sub == s.(stage := Some(Pending))
  {
    match s.stage
    case Some(st) => StageView(s, st)
    case None => StageView(s.(stage := Some(Pending)), Pending)
  }

  /** Every call after the first returns the cell the first call created. */
  lemma CompletionStageCreatedOnce<A, V>(s: Submission<A, V>)
    ensures var first := GetCompletionStage(s);
      GetCompletionStage(first.sub) == first
  {
  }

  datatype SendAttempt<!A, !V> = SendAttempt(won: bool, sub: Submission<A, V>)

  /** The compare-and-set a sender performs on the send-once flag: only the
      attempt that finds it false wins, and afterwards it is true. */
  function TryConsumeSend<A, V>(s: Submission<A, V>): (r: SendAttempt<A, V>)
    ensures r.won <==> !s.sendConsumed
    ensures r.sub == s.(sendConsumed := true)
  {
    SendAttempt(!s.sendConsumed, s.(sendConsumed := true))
  }

  // ---------------------------------------------------------------------------
  // Collecting rows

  /** Installs a collector and starts a holder from its supplier. */
  function SetCollector<A, V>(s: Submission<A, V>, c: Collector<A, V>): (r: Submission<A, V>)
    ensures r.reducer == Some(Reducer(c, c.supplier()))
    ensures r == s.(reducer := r.reducer)
  {
    s.(reducer := Some(Reducer(c, c.supplier())))
  }

  /** One accumulation step on the collector state: a missing collector is a
      null dereference; otherwise the accumulator yields the next holder or
      raises an error. */
  function Feed<A, V>(red: Option<Reducer<A, V>>, v: V): Result<Reducer<A, V>, Error>
  {
    match red
    case None => Err(NullReference)
    case Some(rd) =>
      match rd.collector.accumulator(rd.holder, v)
      case Ok(a) => Ok(rd.(holder := a))
      case Err(e) => Err(e)
  }

  /** Feeds one value (a row, or a child's finished value) to the collector.
      A step that raises an error is caught and settles the completion cell
      exceptionally (a settled cell stays as it is); only when that cell was
      never created does a null dereference escape to the caller. */
  function Accumulate<A, V>(s: Submission<A, V>, v: V): (r: Result<Submission<A, V>, Error>)
    ensures Feed(s.reducer, v).Ok? ==> r == Ok(s.(reducer := Some(Feed(s.reducer, v).value)))
    ensures Feed(s.reducer, v).Err? && s.stage.Some? ==>
      r == Ok(s.(stage := Some(s.stage.value.CompleteExceptionally(Feed(s.reducer, v).error))))
    ensures Feed(s.reducer, v).Err? && s.stage.None? ==> r == Err(NullReference)
  {
    match Feed(s.reducer, v)
    case Ok(rd) => Ok(s.(reducer := Some(rd)))
    case Err(e) =>
      match s.stage
      case Some(st) => Ok(s.(stage := Some(st.CompleteExceptionally(e))))
      case None => Err(NullReference)
  }

  /** Left fold of an accumulator over values, stopping at the first error. */
  function FoldValues<A, V>(acc: (A, V) -> Result<A, Error>, a: A, vs: seq<V>): Result<A, Error>
    decreases |vs|
  {
    if vs == [] then Ok(a)
    else
      match acc(a, vs[0])
      case Ok(a') => FoldValues(acc, a', vs[1..])
      case Err(e) => Err(e)
  }

  /** Feeds values one after another; an escaping error stops the sequence. */
  function AddRows<A, V>(s: Submission<A, V>, rows: seq<V>): Result<Submission<A, V>, Error>
    decreases |rows|
  {
    if rows == [] then Ok(s)
    else
      match Accumulate(s, rows[0])
      case Ok(s') => AddRows(s', rows[1..])
      case Err(e) => Err(e)
  }

  /** The value the submission finishes with, the record after finishing, and
      the value handed to the enclosing group, if any. */
  datatype Finished<!A, !V> = Finished(value: Option<V>, sub: Submission<A, V>, toGroup: Option<V>)

  /** Finishing applies the finisher to the holder when there is a collector
      and hands the result to the linked group when there is one; without a
      collector it yields null and hands nothing on. A publisher, if any, is
      then closed. A finisher that raises an error escapes before the
      hand-over and before the close, and then nothing has changed. */
  function Finish<A, V>(s: Submission<A, V>): (r: Result<Finished<A, V>, Error>)
    ensures r.Err? <==> s.reducer.Some? && s.reducer.value.collector.finisher(s.reducer.value.holder).Err?
    ensures r.Err? ==> r.error == s.reducer.value.collector.finisher(s.reducer.value.holder).error
    ensures r.Ok? && s.reducer.Some? ==>
      r.value.value == Some(s.reducer.value.collector.finisher(s.reducer.value.holder).value)
    ensures r.Ok? && s.reducer.None? ==> r.value.value.None?
    ensures r.Ok? ==> r.value.toGroup == if s.group.Some? then r.value.value else None
    ensures r.Ok? ==> r.value.sub.publisher == if s.publisher.Some? then Some(Closed) else None
    ensures r.Ok? ==> r.value.sub == s.(publisher := r.value.sub.publisher)
  {
    var closed := if s.publisher.Some? then s.(publisher := Some(Closed)) else s;
    match s.reducer
    case None => Ok(Finished(None, closed, None))
    case Some(red) =>
      match red.collector.finisher(red.holder)
      case Ok(v) => Ok(Finished(Some(v), closed, if s.group.Some? then Some(v) else None))
      case Err(e) => Err(e)
  }

  /** Delivers a finished child's hand-over to the group with identity `id`
      when the child is linked to that group; any other child hands it nothing. */
  function ForwardToGroup<A, V, B>(group: Submission<A, V>, id: GroupId, f: Finished<B, V>): (r: Result<Submission<A, V>, Error>)
    ensures f.toGroup.Some? && f.sub.group == Some(id) ==> r == Accumulate(group, f.toGroup.value)
    ensures f.toGroup.None? || f.sub.group != Some(id) ==> r == Ok(group)
  {
    match f.toGroup
    case Some(v) => if f.sub.group == Some(id) then Accumulate(group, v) else Ok(group)
    case None => Ok(group)
  }

  /** Links the submission to the group `g`, or unlinks it when `g` is null. */
  function AddGroupSubmission<A, V>(s: Submission<A, V>, g: Option<GroupId>): (r: Submission<A, V>)
    ensures r.group == g && r == s.(group := g)
  {
    s.(group := g)
  }

  // ---------------------------------------------------------------------------
  // Out parameters and repetitions

  /** Stores what the out-parameter processor makes of the row; without a
      processor the call dereferences null, and an error the processor raises
      escapes with the stored value unchanged. */
  function ApplyOutRow<A, V>(s: Submission<A, V>, row: V): (r: Result<Submission<A, V>, Error>)
    ensures s.outProcessor.Some? && s.outProcessor.value(row).Ok? ==>
      r == Ok(s.(outValue := Some(s.outProcessor.value(row).value)))
    ensures s.outProcessor.Some? && s.outProcessor.value(row).Err? ==> r == Err(s.outProcessor.value(row).error)
    ensures s.outProcessor.None? ==> r == Err(NullReference)
  {
    match s.outProcessor
    case Some(f) =>
      (match f(row)
       case Ok(v) => Ok(s.(outValue := Some(v)))
       case Err(e) => Err(e))
    case None => Err(NullReference)
  }

  /** How many times the statement runs: once per parameter set for a batched
      count, once otherwise. A batched count without parameters dereferences null. */
  function NumberOfQueryRepetitions<A, V>(s: Submission<A, V>): (r: Result<int, Error>)
    ensures s.kind != ARRAY_COUNT ==> r == Ok(1)
    ensures s.kind == ARRAY_COUNT && s.holder.Some? ==> r == Ok(s.holder.value.repetitions)
    ensures s.kind == ARRAY_COUNT && s.holder.None? ==> r == Err(NullReference)
  {
    if s.kind == ARRAY_COUNT then
      match s.holder
      case Some(h) => Ok(h.repetitions)
      case None => Err(NullReference)
    else Ok(1)
  }

  // ---------------------------------------------------------------------------
  // Folding rows into the completion value

  /** Feeding rows whose fold succeeds leaves the holder at the fold and
      changes nothing else. */
  lemma {:induction false} AddRowsFolds<A, V>(s: Submission<A, V>, rows: seq<V>)
    requires s.reducer.Some?
    requires FoldValues(s.reducer.value.collector.accumulator, s.reducer.value.holder, rows).Ok?
    ensures AddRows(s, rows) == Ok(s.(reducer := Some(s.reducer.value.(holder :=
      FoldValues(s.reducer.value.collector.accumulator, s.reducer.value.holder, rows).value))))
    decreases |rows|
  {
    if rows != [] {
      var rd := s.reducer.value;
      var a := rd.collector.accumulator(rd.holder, rows[0]).value;
      var s' := s.(reducer := Some(rd.(holder := a)));
      assert Accumulate(s, rows[0]) == Ok(s');
      AddRowsFolds(s', rows[1..]);
    }
  }

  /** A submission whose collector is installed, fed every row without an
      error, and finished completes with the finisher applied to the fold of
      the rows in order, starting from the supplier's holder; when that
      finisher raises an error, finishing throws it. */
  lemma CollectThenFinish<A, V>(s: Submission<A, V>, c: Collector<A, V>, rows: seq<V>)
    requires FoldValues(c.accumulator, c.supplier(), rows).Ok?
    ensures AddRows(SetCollector(s, c), rows).Ok?
    ensures var fin := c.finisher(FoldValues(c.accumulator, c.supplier(), rows).value);
      fin.Ok? ==> (Finish(AddRows(SetCollector(s, c), rows).value).Ok? &&
        Finish(AddRows(SetCollector(s, c), rows).value).value.value == Some(fin.value))
    ensures var fin := c.finisher(FoldValues(c.accumulator, c.supplier(), rows).value);
      fin.Err? ==> Finish(AddRows(SetCollector(s, c), rows).value) == Err(fin.error)
    ensures AddRows(SetCollector(s, c), rows).value.stage == s.stage
  {
    AddRowsFolds(SetCollector(s, c), rows);
  }

  /** Once the completion cell has settled, further rows leave it settled as
      it was and never throw. */
  lemma {:induction false} AddRowsKeepsSettledStage<A, V>(s: Submission<A, V>, rows: seq<V>)
    requires s.stage.Some? && s.stage.value.Settled()
    ensures AddRows(s, rows).Ok?
    ensures AddRows(s, rows).value.stage == s.stage
    decreases |rows|
  {
    if rows != [] {
      var s' := Accumulate(s, rows[0]).value;
      AddRowsKeepsSettledStage(s', rows[1..]);
    }
  }

  /** When the fold of the rows fails, the rows are still all consumed without
      an escaping exception, and the completion cell, if it was pending, fails
      with the first error the accumulator raised. */
  lemma {:induction false} FailedRowSettlesStage<A, V>(s: Submission<A, V>, rows: seq<V>)
    requires s.reducer.Some? && s.stage.Some?
    requires FoldValues(s.reducer.value.collector.accumulator, s.reducer.value.holder, rows).Err?
    ensures AddRows(s, rows).Ok?
    ensures AddRows(s, rows).value.stage == Some(s.stage.value.CompleteExceptionally(
      FoldValues(s.reducer.value.collector.accumulator, s.reducer.value.holder, rows).error))
    decreases |rows|
  {
    var rd := s.reducer.value;
    match rd.collector.accumulator(rd.holder, rows[0])
    case Ok(a) =>
      FailedRowSettlesStage(s.(reducer := Some(rd.(holder := a))), rows[1..]);
    case Err(e) =>
      var s' := s.(stage := Some(s.stage.value.CompleteExceptionally(e)));
      assert Accumulate(s, rows[0]) == Ok(s');
      AddRowsKeepsSettledStage(s', rows[1..]);
  }

  // ---------------------------------------------------------------------------
  // Groups

  /** Finishes the children in order, forwarding to the group with identity
      `id` the hand-over of each child linked to it. An error that escapes a
      child's finish or a delivery stops the sequence. */
  function FinishChildren<A, B, V>(group: Submission<A, V>, id: GroupId, children: seq<Submission<B, V>>): Result<Submission<A, V>, Error>
    decreases |children|
  {
    if children == [] then Ok(group)
    else
      match Finish(children[0])
      case Err(e) => Err(e)
      case Ok(f) =>
        match ForwardToGroup(group, id, f)
        case Ok(g) => FinishChildren(g, id, children[1..])
        case Err(e) => Err(e)
  }

  /** The values children hand to one group, in order, and the error of the
      first child whose finisher raised one, if any. */
  datatype HandOvers<!V> = HandOvers(values: seq<V>, failure: Option<Error>)

  /** What the children hand to the group `id`: the finished value of every
      child that collects and is linked to it, up to the first child whose
      finisher raises an error. */
  function HandedOver<B, V>(id: GroupId, children: seq<Submission<B, V>>): (r: HandOvers<V>)
    ensures |r.values| <= |children|
    decreases |children|
  {
    if children == [] then HandOvers([], None)
    else
      match Finish(children[0])
      case Err(e) => HandOvers([], Some(e))
      case Ok(f) =>
        var rest := HandedOver(id, children[1..]);
        if f.toGroup.Some? && f.sub.group == Some(id) then rest.(values := [f.toGroup.value] + rest.values)
        else rest
  }

  /** When every child collects and is linked to the group, the hand-overs are
      the children's finished values, in order, up to the first child whose
      finisher fails, and that child's error is the failure. */
  lemma {:induction false} HandedOverAreFinishedValues<B, V>(id: GroupId, children: seq<Submission<B, V>>)
    requires forall i :: 0 <= i < |children| ==> children[i].group == Some(id) && children[i].reducer.Some?
    ensures var h := HandedOver(id, children);
      forall i :: 0 <= i < |h.values| ==>
        children[i].reducer.value.collector.finisher(children[i].reducer.value.holder) == Ok(h.values[i])
    ensures var h := HandedOver(id, children);
      h.failure.None? <==> forall i :: 0 <= i < |children| ==>
        children[i].reducer.value.collector.finisher(children[i].reducer.value.holder).Ok?
    ensures var h := HandedOver(id, children);
      h.failure.None? ==> |h.values| == |children|
    ensures var h := HandedOver(id, children);
      h.failure.Some? ==> (|h.values| < |children| &&
        children[|h.values|].reducer.value.collector.finisher(children[|h.values|].reducer.value.holder)
          == Err(h.failure.value))
    decreases |children|
  {
    if children != [] {
      HandedOverAreFinishedValues(id, children[1..]);
      assert forall i :: 1 <= i < |children| ==> children[i] == children[1..][i - 1];
    }
  }

  /** Finishing children into a group gives the same result as feeding the
      group their hand-overs as rows, in order, and then throwing the error of
      the first failing finisher, if there is one. */
  lemma {:induction false} GroupFoldsChildren<A, B, V>(group: Submission<A, V>, id: GroupId, children: seq<Submission<B, V>>)
    ensures var h := HandedOver(id, children);
      var fed := AddRows(group, h.values);
      FinishChildren(group, id, children) == if fed.Err? || h.failure.None? then fed else Err(h.failure.value)
    decreases |children|
  {
    if children != [] {
      match Finish(children[0])
      case Err(e) =>
      case Ok(f) =>
        if f.toGroup.Some? && f.sub.group == Some(id) {
          var v := f.toGroup.value;
          var rest := HandedOver(id, children[1..]).values;
          assert ([v] + rest)[0] == v;
          assert ([v] + rest)[1..] == rest;
          match Accumulate(group, v)
          case Ok(g) =>
            GroupFoldsChildren(g, id, children[1..]);
          case Err(e) =>
        } else {
          GroupFoldsChildren(group, id, children[1..]);
        }
    }
  }

  /** A group whose collector accepts every hand-over ends with its holder at
      the fold of the children's hand-overs, in order, unless a child's
      finisher fails, which is then the error that escapes. */
  lemma GroupHolderIsFold<A, B, V>(group: Submission<A, V>, id: GroupId, children: seq<Submission<B, V>>)
    requires group.reducer.Some?
    requires FoldValues(group.reducer.value.collector.accumulator, group.reducer.value.holder, HandedOver(id, children).values).Ok?
    ensures HandedOver(id, children).failure.None? ==>
      FinishChildren(group, id, children) == Ok(group.(reducer := Some(group.reducer.value.(holder :=
        FoldValues(group.reducer.value.collector.accumulator, group.reducer.value.holder, HandedOver(id, children).values).value))))
    ensures HandedOver(id, children).failure.Some? ==>
      FinishChildren(group, id, children) == Err(HandedOver(id, children).failure.value)
  {
    GroupFoldsChildren(group, id, children);
    AddRowsFolds(group, HandedOver(id, children).values);
  }

  /** Children that are not linked to the group hand it nothing: finishing
      them leaves the group as it was, unless a finisher fails. */
  lemma {:induction false} UnlinkedChildrenLeaveGroup<A, B, V>(group: Submission<A, V>, id: GroupId, children: seq<Submission<B, V>>)
    requires forall i :: 0 <= i < |children| ==> children[i].group != Some(id)
    ensures HandedOver(id, children).values == []
    ensures FinishChildren(group, id, children)
      == if HandedOver(id, children).failure.Some? then Err(HandedOver(id, children).failure.value) else Ok(group)
    decreases |children|
  {
    if children != [] {
      assert forall i :: 1 <= i < |children| ==> children[i] == children[1..][i - 1];
      UnlinkedChildrenLeaveGroup(group, id, children[1..]);
    }
    GroupFoldsChildren(group, id, children);
  }

  // ---------------------------------------------------------------------------
  // Lifetime of one submission

  /** The calls a submission receives during its life. */
  datatype Op<!A, !V> =
    | StageRequested
    | SendAttempted
    | CollectorSet(c: Collector<A, V>)
    | RowAdded(row: V)
    | GroupResultAdded(result: V)
    | FinishCalled
    | OutRowApplied(outRow: V)
    | PublisherSet
    | GroupLinked(target: Option<GroupId>)
    | HolderSet(h: ParameterHolder)
    | OutProcessorSet(f: V -> Result<V, Error>)
    | CompletedWith(v: V)
    | FailedWith(e: Error)

  /** One call; a call that throws leaves the submission as it was. */
  function Step<A, V>(s: Submission<A, V>, op: Op<A, V>): (r: Submission<A, V>)
    ensures r.kind == s.kind
    ensures s.sendConsumed ==> r.sendConsumed
    ensures op.SendAttempted? ==> r.sendConsumed
    ensures !op.SendAttempted? ==> r.sendConsumed == s.sendConsumed
    ensures s.stage.Some? ==> r.stage.Some?
    ensures s.stage.Some? && s.stage.value.Settled() ==> r.stage == s.stage
    ensures !op.HolderSet? ==> r.holder == s.holder
    ensures op.GroupLinked? ==> r.group == op.target
    ensures !op.GroupLinked? ==> r.group == s.group
  {
    match op
    case StageRequested => GetCompletionStage(s).sub
    case SendAttempted => TryConsumeSend(s).sub
    case CollectorSet(c) => SetCollector(s, c)
    case RowAdded(row) => Accumulate(s, row).GetOr(s)
    case GroupResultAdded(v) => Accumulate(s, v).GetOr(s)
    case FinishCalled =>
      (match Finish(s)
       case Ok(f) => f.sub
       case Err(_) => s)
    case OutRowApplied(row) => ApplyOutRow(s, row).GetOr(s)
    case PublisherSet => s.(publisher := Some(Open))
    case GroupLinked(g) => AddGroupSubmission(s, g)
    case HolderSet(h) => s.(holder := Some(h))
    case OutProcessorSet(f) => s.(outProcessor := Some(f))
    case CompletedWith(v) =>
      var view := GetCompletionStage(s);
      view.sub.(stage := Some(view.stage.Complete(v)))
    case FailedWith(e) =>
      var view := GetCompletionStage(s);
      view.sub.(stage := Some(view.stage.CompleteExceptionally(e)))
  }

  function Run<A, V>(s: Submission<A, V>, ops: seq<Op<A, V>>): Submission<A, V>
    decreases |ops|
  {
    if ops == [] then s else Run(Step(s, ops[0]), ops[1..])
  }

  /** Over any sequence of calls the kind never changes, the send-once flag
      never resets, the completion cell once created is never dropped, and
      once settled it never changes again. */
  lemma {:induction false} RunInvariants<A, V>(s: Submission<A, V>, ops: seq<Op<A, V>>)
    ensures Run(s, ops).kind == s.kind
    ensures s.sendConsumed ==> Run(s, ops).sendConsumed
    ensures s.stage.Some? ==> Run(s, ops).stage.Some?
    ensures s.stage.Some? && s.stage.value.Settled() ==> Run(s, ops).stage == s.stage
    decreases |ops|
  {
    if ops != [] {
      RunInvariants(Step(s, ops[0]), ops[1..]);
    }
  }

  /** The number of send attempts that win the compare-and-set. */
  function SendWins<A, V>(s: Submission<A, V>, ops: seq<Op<A, V>>): nat
    decreases |ops|
  {
    if ops == [] then 0
    else
      (if ops[0].SendAttempted? && TryConsumeSend(s).won then 1 else 0)
        + SendWins(Step(s, ops[0]), ops[1..])
  }

  /** A submission is sent at most once: after the flag is set no attempt
      wins, and from a fresh flag exactly one attempt wins if any is made. */
  lemma {:induction false} SentAtMostOnce<A, V>(s: Submission<A, V>, ops: seq<Op<A, V>>)
    ensures SendWins(s, ops) <= 1
    ensures s.sendConsumed ==> SendWins(s, ops) == 0
    ensures !s.sendConsumed && (exists i :: 0 <= i < |ops| && ops[i].SendAttempted?) ==> SendWins(s, ops) == 1
    ensures !s.sendConsumed && (forall i :: 0 <= i < |ops| ==> !ops[i].SendAttempted?) ==> SendWins(s, ops) == 0
    decreases |ops|
  {
    if ops != [] {
      SentAtMostOnce(Step(s, ops[0]), ops[1..]);
      assert forall i :: 1 <= i < |ops| ==> ops[i] == ops[1..][i - 1];
      if !ops[0].SendAttempted? && !s.sendConsumed
        && (exists i :: 0 <= i < |ops| && ops[i].SendAttempted?) {
        var i :| 0 <= i < |ops| && ops[i].SendAttempted?;
        assert ops[1..][i - 1].SendAttempted?;
      }
    }
  }

  /** The repetition count is fixed unless new parameters are bound. */
  lemma {:induction false} RepetitionsStable<A, V>(s: Submission<A, V>, ops: seq<Op<A, V>>)
    requires forall i :: 0 <= i < |ops| ==> !ops[i].HolderSet?
    ensures NumberOfQueryRepetitions(Run(s, ops)) == NumberOfQueryRepetitions(s)
    decreases |ops|
  {
    if ops != [] {
      assert forall i :: 0 <= i < |ops| - 1 ==> ops[1..][i] == ops[i + 1];
      RepetitionsStable(Step(s, ops[0]), ops[1..]);
    }
  }

  /** Calls other than linking never change the group link. */
  lemma {:induction false} LinkKeptWithoutLinkCalls<A, V>(s: Submission<A, V>, ops: seq<Op<A, V>>)
    requires forall i :: 0 <= i < |ops| ==> !ops[i].GroupLinked?
    ensures Run(s, ops).group == s.group
    decreases |ops|
  {
    if ops != [] {
      assert forall i :: 0 <= i < |ops| - 1 ==> ops[1..][i] == ops[i + 1];
      LinkKeptWithoutLinkCalls(Step(s, ops[0]), ops[1..]);
    }
  }

  /** The group link after any sequence of calls is the one the last link
      call made, a null unlinking. */
  lemma {:induction false} LinkIsLastLinkCall<A, V>(s: Submission<A, V>, ops: seq<Op<A, V>>, i: nat)
    requires i < |ops| && ops[i].GroupLinked?
    requires forall j :: i < j < |ops| ==> !ops[j].GroupLinked?
    ensures Run(s, ops).group == ops[i].target
    decreases |ops|
  {
    var rest := ops[1..];
    assert forall j :: 0 <= j < |rest| ==> rest[j] == ops[j + 1];
    if i == 0 {
      LinkKeptWithoutLinkCalls(Step(s, ops[0]), rest);
    } else {
      LinkIsLastLinkCall(Step(s, ops[0]), rest, i - 1);
    }
  }
}
