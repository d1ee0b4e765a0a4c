# pgsql2 core: type table, submissions, data source

A Dafny model of three core pieces of the PostgreSQL driver for the
asynchronous database access API (ADBA):

- **The PostgreSQL type table** (`PgAdbaType`). There are 94 enumeration
  constants. Each one carries a catalog type name, a wire type id (the
  server's `pg_type` oid), a generic ADBA tag and a preferred wire format
  (text or binary). The table has two lookups:
  - `convert` maps a requested SQL type to a table constant;
  - `guessTypeFromClass` picks a constant for the runtime class of a bound
    value, caching what it guessed.
- **One submission** (`PGSubmission`): the record that a queued database
  operation keeps while its result comes back. It holds:
  - a send-once flag;
  - a lazily created completion cell;
  - a collector that folds rows into a holder and finishes it into the
    result;
  - an optional group that receives the finished value;
  - an out-parameter processor;
  - the count of statement repetitions for batched counts.
- **The data source** (`PgDataSource`). It:
  - picks the event loop and the buffer pool (configured or default);
  - hands out session builders until it is closed;
  - keeps the registry of open connections;
  - closes everything it owns.

Everything is pure data and total functions. A Java `null` is `None`. An
exception thrown to the caller is an `Err` (`Wrappers.Result`). A Java object
that a method mutates is passed in and returned as a new record. The modules
are:

- `Wrappers` (wrappers.dfy): `Option` and `Result`.
- `SqlTypes` and `PgAdbaTypes` (pg_adba_type.dfy).
  - Generic tags and table constants are integer newtypes with one named
    constant each.
  - A constant's value is its ordinal, so "declared earlier" is `<`.
  - `Info` and `Name` hold the table's columns.
  - `Convert` is the tag lookup.
  - `ClassIndex`, `GuessTypeFromClass` and `GuessAll` model the class lookup
    and its cache.
- `Submissions` (pg_submission.dfy): the submission record.
  - There is one function per method that changes state, except that the
    plain setters `setHolder`, `setPublisher` and `setOutParameterProcessor`
    exist only as cases of `Step`.
  - Traces of calls (`Step`, `Run`) carry the lifetime invariants.
- `DataSources` (pg_data_source.dfy): the data source record.
  - There is one function per operation, plus traces of
    register/unregister/close calls.

## Model

| member | source | states |
|---|---|---|
| PgAdbaTypes.Info | src/main/java/org/postgresql/adba/communication/packets/parts/PgAdbaType.java:37-457 | The wire type id, generic tag and format of each of the 94 constants, as declared, in declaration order. |
| PgAdbaTypes.Name | src/main/java/org/postgresql/adba/communication/packets/parts/PgAdbaType.java:603-605 | The catalog name each constant is declared with, as `getName` returns it. |
| PgAdbaTypes.Oid | src/main/java/org/postgresql/adba/communication/packets/parts/PgAdbaType.java:617-619 | The wire type id each constant is declared with, as `getOid` returns it. |
| PgAdbaTypes.Tag | src/main/java/org/postgresql/adba/communication/packets/parts/PgAdbaType.java:37-457 | The generic tag each constant is declared with, which `convert` compares against. |
| PgAdbaTypes.Format | src/main/java/org/postgresql/adba/communication/packets/parts/PgAdbaType.java:625-627 | The transfer format each constant is declared with, as `getFormatCodeTypes` returns it. |
| PgAdbaTypes.Vendor | src/main/java/org/postgresql/adba/communication/packets/parts/PgAdbaType.java:608-610 | Every constant reports the vendor `postgresql`. |
| PgAdbaTypes.UncataloguedKinds | src/main/java/org/postgresql/adba/communication/packets/parts/PgAdbaType.java:149-226 | Both directions: the wire type id is 0 exactly for NULL, OTHER, JAVA_OBJECT, DISTINCT, STRUCT, REF, DATALINK and ROWID. |
| PgAdbaTypes.ClassIndex | src/main/java/org/postgresql/adba/communication/packets/parts/PgAdbaType.java:467-559 | The 69 class-index entries as declared. An unlisted class, or any class with more than two array dimensions, has no entry. The only two-dimensional entry is `byte[][]`. |
| PgAdbaTypes.Convert | src/main/java/org/postgresql/adba/communication/packets/parts/PgAdbaType.java:575-587 | A table constant converts to itself. A generic tag yields a constant carrying that tag with no earlier constant carrying it; if no constant has the tag, the result is an invalid-argument error whose message is "unknown type " followed by the tag's name. Any other vendor's type always fails with "unknown type " followed by its text. |
| PgAdbaTypes.FirstWithTag | src/main/java/org/postgresql/adba/communication/packets/parts/PgAdbaType.java:579-583 | The declaration-order scan returns a constant at or after the start whose tag matches, and no constant between the start and the answer carries the tag. If the scan finds nothing, no constant from the start onward carries it. |
| PgAdbaTypes.ConvertFirstMatch | src/main/java/org/postgresql/adba/communication/packets/parts/PgAdbaType.java:578-586 | Both directions: a tag converts to constant t exactly when t carries the tag and no constant declared before t does. |
| PgAdbaTypes.EveryTagIsDeclared | src/main/java/org/postgresql/adba/communication/packets/parts/PgAdbaType.java:37-457 | Every generic tag in the model is carried by at least one declared constant. |
| PgAdbaTypes.EveryTagConverts | src/main/java/org/postgresql/adba/communication/packets/parts/PgAdbaType.java:578-586 | Converting a generic tag never reaches the "unknown type" error. |
| PgAdbaTypes.ConvertPicksNoLaterConstant | src/main/java/org/postgresql/adba/communication/packets/parts/PgAdbaType.java:579-583 | Converting a constant's own tag succeeds and yields that constant or one declared before it. |
| PgAdbaTypes.ConvertIdempotent | src/main/java/org/postgresql/adba/communication/packets/parts/PgAdbaType.java:576-577 | Converting the result of a successful conversion again returns the same result. |
| PgAdbaTypes.ConvertDoubleYieldsArray | src/main/java/org/postgresql/adba/communication/packets/parts/PgAdbaType.java:69-77 | Because `_float8` is declared before `double` with the same tag, the generic DOUBLE tag converts to the array constant DOUBLE_ARRAY. |
| PgAdbaTypes.ConvertArrayYieldsBitArray | src/main/java/org/postgresql/adba/communication/packets/parts/PgAdbaType.java:37-41 | The generic ARRAY tag converts to BIT_ARRAY, the first constant carrying it, rather than the `anyarray` constant. |
| PgAdbaTypes.ConvertOtherYieldsUuid | src/main/java/org/postgresql/adba/communication/packets/parts/PgAdbaType.java:101-155 | The generic OTHER tag converts to UUID, which is declared before the OTHER constant. |
| PgAdbaTypes.BinaryFormatExactly | src/main/java/org/postgresql/adba/communication/packets/parts/PgAdbaType.java:37-457 | Both directions: a constant is declared with the binary format exactly when it is one of the 24 listed binary kinds; every other constant is text. |
| PgAdbaTypes.BinaryWireIds | src/main/java/org/postgresql/adba/communication/packets/parts/PgAdbaType.java:53-221 | integer, bigint and boolean travel in binary under oids 23, 20 and 16. |
| PgAdbaTypes.TextWireIds | src/main/java/org/postgresql/adba/communication/packets/parts/PgAdbaType.java:81-301 | uuid, numeric and jsonb travel as text under oids 2950, 1700 and 3802. |
| PgAdbaTypes.TemporalWireIds | src/main/java/org/postgresql/adba/communication/packets/parts/PgAdbaType.java:113-129 | date and timestamp travel as text under oids 1082 and 1114. |
| PgAdbaTypes.ByteStringsShareWireType | src/main/java/org/postgresql/adba/communication/packets/parts/PgAdbaType.java:137-205 | BINARY, VARBINARY, LONGVARBINARY and BLOB all name `bytea` with oid 17. BLOB prefers binary; BINARY, VARBINARY and LONGVARBINARY are text. |
| PgAdbaTypes.GuessTypeFromClass | src/main/java/org/postgresql/adba/communication/packets/parts/PgAdbaType.java:594-600 | A class already in the map gets its entry and the map is unchanged. An array class not in the map gets ARRAY and is not cached. Any other class gets OTHER, and only that class is added. Existing entries are never changed. Afterwards the map answers for the class what was returned. A consistent cache stays consistent, and the answer equals the cache-free answer. |
| PgAdbaTypes.GuessIsStable | src/main/java/org/postgresql/adba/communication/packets/parts/PgAdbaType.java:599 | Asking again for the same class returns the same answer and leaves the map as the first call left it. |
| PgAdbaTypes.IndexedClassAnswer | src/main/java/org/postgresql/adba/communication/packets/parts/PgAdbaType.java:594-600 | A class in the static index always gets its index entry, including array classes, and nothing is cached. |
| PgAdbaTypes.PrimitiveArrayEntries | src/main/java/org/postgresql/adba/communication/packets/parts/PgAdbaType.java:493-509 | `byte[]` is indexed as BLOB, `byte[][]` as BYTEA_ARRAY and `char[]` as CLOB. |
| PgAdbaTypes.InetAddressEntries | src/main/java/org/postgresql/adba/communication/packets/parts/PgAdbaType.java:526-528 | All three internet address classes are indexed as CIDR. |
| PgAdbaTypes.CachingIsTransparent | src/main/java/org/postgresql/adba/communication/packets/parts/PgAdbaType.java:465-600 | Start from a consistent map; the bare index is one. Then every guess in any sequence of guesses equals the cache-free answer, and the map stays consistent. |
| Submissions.New | src/main/java/org/postgresql/sql2/PGSubmission.java:57-61 | A new submission keeps its kind. The send flag is clear, and there is no completion cell, collector, publisher, group, parameters, processor or out value. |
| Submissions.GetCompletionStage | src/main/java/org/postgresql/sql2/PGSubmission.java:69-73 | The returned cell is the submission's cell. An existing cell is returned unchanged. Otherwise a pending cell is created and is the only change. |
| Submissions.CompletionStageCreatedOnce | src/main/java/org/postgresql/sql2/PGSubmission.java:70-72 | A second request returns the cell the first request created and changes nothing. |
| Submissions.TryConsumeSend | src/main/java/org/postgresql/sql2/PGSubmission.java:41 | A send attempt wins exactly when the flag was clear. Afterwards the flag is set and nothing else changes. |
| Submissions.SetCollector | src/main/java/org/postgresql/sql2/PGSubmission.java:107-111 | Installs the collector with a holder taken from its supplier, and changes nothing else. The supplier is assumed not to throw (see Left out). |
| Submissions.Accumulate | src/main/java/org/postgresql/sql2/PGSubmission.java:135-149 | A successful accumulator step replaces only the holder. A failing step, including a missing collector, settles an existing cell exceptionally with that error. When no cell exists, a null dereference escapes to the caller. |
| Submissions.AddRowsFolds | src/main/java/org/postgresql/sql2/PGSubmission.java:135-141 | When the accumulator succeeds on every row, feeding the rows leaves the holder at the left fold of the rows and changes nothing else. |
| Submissions.CollectThenFinish | src/main/java/org/postgresql/sql2/PGSubmission.java:107-141 | After installing a collector and feeding rows that all succeed, the completion cell is untouched. Finishing then yields the finisher applied to the fold of the rows from the supplier's holder; when that finisher throws, finishing throws its error. |
| Submissions.AddRowsKeepsSettledStage | src/main/java/org/postgresql/sql2/PGSubmission.java:136-140 | Once the cell is settled, further rows never throw and leave the cell as it was. |
| Submissions.FailedRowSettlesStage | src/main/java/org/postgresql/sql2/PGSubmission.java:135-141 | When the submission has both a collector and a completion cell and the fold fails, all rows are still consumed without an escaping exception, and a pending cell fails with the first error the accumulator raised. Without a cell, the first failure escapes as a null dereference (see `Accumulate`). |
| Submissions.Finish | src/main/java/org/postgresql/sql2/PGSubmission.java:121-133 | Finishing throws exactly when there is a collector whose finisher throws, with that error, and then neither hands anything over nor closes the publisher. Otherwise the value is the finisher's result with a collector and null without one. It goes to the group only when there is a collector and a link, a publisher if present is closed, and nothing else changes. |
| Submissions.ForwardToGroup | src/main/java/org/postgresql/sql2/PGSubmission.java:125-127 | A child linked to the group with the given identity feeds its hand-over to that group exactly like a row. A child with no hand-over, or linked to another group or to none, leaves the group unchanged. |
| Submissions.AddGroupSubmission | src/main/java/org/postgresql/sql2/PGSubmission.java:206-208 | Links the submission to the given group, or unlinks it when the argument is null, and changes nothing else. |
| Submissions.HandedOverAreFinishedValues | src/main/java/org/postgresql/sql2/PGSubmission.java:123-127 | When every child collects and is linked to the group, the hand-overs are the children's finisher results, in order, up to the first child whose finisher throws. That child's error is the failure, and there is none exactly when every finisher succeeds. |
| Submissions.GroupFoldsChildren | src/main/java/org/postgresql/sql2/PGSubmission.java:121-149 | Finishing children into a group gives the same result as feeding the group, as rows and in order, the hand-overs of the children linked to it. If that feeding does not throw, the error of the first failing finisher, if any, is thrown after it. |
| Submissions.GroupHolderIsFold | src/main/java/org/postgresql/sql2/PGSubmission.java:121-149 | When the group collects and accepts every hand-over, finishing the children leaves the group's holder at the fold of their hand-overs, in order, and changes nothing else. If a child's finisher throws, that error escapes instead. |
| Submissions.UnlinkedChildrenLeaveGroup | src/main/java/org/postgresql/sql2/PGSubmission.java:125-127 | Children not linked to the group hand it nothing. Finishing them leaves the group as it was, unless a child's finisher throws. |
| Submissions.ApplyOutRow | src/main/java/org/postgresql/sql2/PGSubmission.java:158-160 | Stores the processor's result for the row, and changes nothing else. A processor that throws lets its error escape with the stored value unchanged. Without a processor, a null dereference escapes. |
| Submissions.NumberOfQueryRepetitions | src/main/java/org/postgresql/sql2/PGSubmission.java:166-172 | A batched count repeats as many times as the bound parameter holder's stored count; it fails with a null dereference when no holder is bound. Every other kind runs once. The holder's own exceptions are not modelled (see Left out). |
| Submissions.Step | src/main/java/org/postgresql/sql2/PGSubmission.java:95-208 | Over any single call: the kind is kept, and the send flag is set only by a send attempt and never cleared. A created cell is never dropped, and a settled cell never changes. Only binding parameters changes the parameters, and only a link call changes the group link, to its argument. |
| Submissions.RunInvariants | src/main/java/org/postgresql/sql2/PGSubmission.java:37-55 | The single-call guarantees hold over any sequence of calls: same kind, the flag never resets, the cell is never dropped, and a settled cell never changes. |
| Submissions.SentAtMostOnce | src/main/java/org/postgresql/sql2/PGSubmission.java:91-93 | Over any sequence of calls, at most one send attempt wins. None wins if the flag was already set. Starting from a clear flag, exactly one wins if any attempt is made. |
| Submissions.RepetitionsStable | src/main/java/org/postgresql/sql2/PGSubmission.java:166-172 | In the model, where the holder is a stored count that only `setHolder` replaces, the repetition count does not change over calls that bind no new holder. |
| Submissions.LinkKeptWithoutLinkCalls | src/main/java/org/postgresql/sql2/PGSubmission.java:206-208 | Over calls that include no link call, the group link stays as it was. |
| Submissions.LinkIsLastLinkCall | src/main/java/org/postgresql/sql2/PGSubmission.java:206-208 | After any sequence of calls, the group link is the argument of the last link call; a null argument leaves the submission unlinked. |
| DataSources.New | src/main/java/org/postgresql/adba/PgDataSource.java:32-52 | A configured loop is used, and the data source does not own it. Without one it uses, and owns, a default loop. A configured pool is used, else the default pool. The data source starts open, with no connections and the given properties. |
| DataSources.Builder | src/main/java/org/postgresql/adba/PgDataSource.java:81-87 | Fails exactly when the data source is closed, with the message "this datasource has already been closed". Otherwise the builder carries the data source's properties. |
| DataSources.BuilderFailsAfterClose | src/main/java/org/postgresql/adba/PgDataSource.java:82-84 | After close, asking for a builder fails with the closed-data-source error. |
| DataSources.IsClosed | src/main/java/org/postgresql/adba/PgDataSource.java:108-110 | Reports whether the data source has been closed; see `ClosedIsFinal` for when that holds. |
| DataSources.RegisterConnection | src/main/java/org/postgresql/adba/PgDataSource.java:104-106 | Appends the connection to the registry, and changes nothing else. |
| DataSources.RemoveFirst | src/main/java/org/postgresql/adba/PgDataSource.java:90 | Removing a registered connection shortens the registry by one. Removing an unregistered one leaves it as it was. |
| DataSources.RemoveFirstSplits | src/main/java/org/postgresql/adba/PgDataSource.java:90 | Only the first occurrence is removed; the entries before and after it stay in order. |
| DataSources.RemoveFirstCount | src/main/java/org/postgresql/adba/PgDataSource.java:90 | Removal takes exactly one copy of the connection out of the registry's multiset. |
| DataSources.UnregisterConnection | src/main/java/org/postgresql/adba/PgDataSource.java:89-91 | The registry loses one copy of the connection, if present: its first occurrence is removed, and the connections before and after it keep their order. An absent connection leaves the registry as it was. Nothing else changes. |
| DataSources.Close | src/main/java/org/postgresql/adba/PgDataSource.java:94-102 | Every registered connection is closed, in order. The default loop is closed exactly when the data source owns it. The data source ends closed, and nothing else changes. |
| DataSources.ConfiguredLoopStaysOpen | src/main/java/org/postgresql/adba/PgDataSource.java:98-100 | Closing a data source built with a configured loop never closes a default loop. |
| DataSources.Step | src/main/java/org/postgresql/adba/PgDataSource.java:89-106 | After any call, the data source is closed exactly when it was closed before or the call was close. Loop, pool and properties never change. |
| DataSources.ClosedIsFinal | src/main/java/org/postgresql/adba/PgDataSource.java:101 | After any sequence of calls, the data source is closed exactly when it started closed or some call was close. From then on builders fail, and loop and pool stay the same. |
| DataSources.RegistryTracksCalls | src/main/java/org/postgresql/adba/PgDataSource.java:89-106 | From an empty registry, after any sequence of calls, the registry holds exactly the multiset of the calls: register adds one copy, and unregister removes one copy if present. |

## Left out

- Value encoders: the per-constant binary encoders and `getByteGenerator` are not modelled. The table keeps only name, oid, tag and format.
- `getJavaType` always throws "not implemented yet". It is not modelled.
- Geometry and range value classes appear only as element classes of the class index, not as values.
- SqlTypes.AdbaType holds only the 39 generic tags that the table refers to. The API's own enumeration is not part of this model. As a result, the "unknown type" branch of `Convert` is reachable only through another vendor's type (`Foreign`).
- PgAdbaTypes.Convert: a null argument, which the source reports as "unknown type null", is represented only as `Foreign("null")`.
- PgAdbaTypes.GuessTypeFromClass: a null class, for which the source throws a null-pointer exception at the array test, is not representable, since `JavaClass` has no null value.
- PgAdbaTypes.GuessTypeFromClass: the class map is modelled as the static index plus the entries cached since, not as one mutable hash map. Concurrent access to that map is not modelled.
- Submissions.Accumulate: an accumulator that fails is assumed to leave the holder as it was. A Java accumulator could have mutated the holder before throwing.
- Submissions.AddRowsFolds: after a failed row, the source keeps feeding later rows to the accumulator. `addRow` has no guard for a settled cell, so every later row still reaches the accumulator, and the model does the same. `FailedRowSettlesStage` states what the cell ends up holding.
- Submissions.NumberOfQueryRepetitions: the holder's count comes from a foreign call, `holder.numberOfQueryRepetitions()`, which may throw an execution or interrupted exception. It is modelled as a stored count that cannot throw.
- Submissions.RepetitionsStable: the holder is assumed to change only through `setHolder`. The source hands out the live holder through `getHolder`, and other code could change its count.
- Submissions.Finish: the record returned has its publisher closed even when the hand-over to the group then throws. In the source, that throw skips the close.
- Submissions.SetCollector: the supplier is assumed not to throw. In the source, a throwing supplier leaves the new collector installed beside the old holder, or beside a null holder. The model's collector and holder form one pair, so it cannot represent that state.
- Submissions.FinishChildren: the group is identified by a `GroupId` that stands for the Java reference, and the group's record is passed in separately. It follows one group: what a child hands to another group, and an error escaping from that delivery, are not modelled.
- `cancel`, `processRow` and the row publisher's delivery are not modelled. They depend on a cancellation callback and on subscriber threads.
- The plain setters and getters with no logic are not modelled: SQL text, connection-submission flag, error handler, local action, out-parameter type map, `getParamTypes` and `countResult`.
- Concurrency: the send-once flag is modelled as a sequential compare-and-set, and interleavings of threads are not modelled.
- DataSources.New: starting the default loop's thread, and building the default loop and pool, are represented by the `defaultLoop` and `defaultPool` parameters.
- DataSources.Builder: copying the property holder into the session builder is modelled as passing the property map along.
- DataSources.Close: closing each connection is represented by returning the list of connections to close, in order. The registry is not cleared, just as in the source.
