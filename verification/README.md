# Verified models of libpqxx

Dafny models of the parts of libpqxx that keep real state against a remote server, with proofs about
every run of them. The server is a state machine of its own: it may be slow, may fail a statement, and
may become unreachable at any time.

- `PipelineStates.dfy`, `Pipelines.dfy`: the query pipeline. The first has client and server as one
  value, the steps by which it changes, and the invariant that each step keeps; the second has the class
  whose methods take those steps, and whole runs of it.
- `RobustTransactions.dfy`: the commit protocol that finds out what became of a transaction whose
  connection broke, with the status machine around it, and the plain commit for comparison.
- `SqlCursors.dfy`: cursor positions inferred from row counts, and random access on top of them.
- `CursorStreams.dfy`: lazily read streams, with the doubly linked lists of iterators that they serve.
- `ReferenceRings.dfy`: reference counting without a counter.
- `CopyText.dfy`: writing and reading the text format of COPY.
- `StringConversion.dfy`: conversion between integers and text.
- `Sessions.dfy`: prepared statements and notification receivers across reconnections.
- `Notices.dfy`: messages passed on in pieces when memory is exhausted.
- `Basics.dfy`: lists, minimum and options, for the others.

`dafny verify dfyconfig.toml` checks everything.

Imperative code is modelled by classes and methods with loops. Where that makes the proofs clearer a
method is proved to compute a function, or to take a step, of which the theorems then speak. A method that
models code and throws returns an outcome. Nondeterminism of the server and the link is either
unconstrained choice (pipeline, sessions) or a script of events that is universally quantified (commits).
Where it is choice, the server keeps a record of what it was told, what it executed and returned, and how
often it was not to be reached, so that what is thrown, and what is not done, can be told from it.

## Where the code does not do what is promised

- `pipeline::flush()` is documented to clear error states (`include/pqxx/pipeline.hxx:82`). It does not:
  see `ErrorRefuses`, the contract of `Flush`, and `FlushDoesNotClear` for an instance. After an error the
  pipeline refuses all queries from there on, for good.
- If all queries of a batch whose dummy failed succeed one by one then the issued range of the pipeline
  ends before it begins: see `ReplayInShapeExactlyWhen`. A server that fails a batch only if some query in
  it fails by itself never makes this happen.
- The warning in `src/robusttransaction.cxx:149-150` says that the transaction was executed if the record
  exists. It is the other way round, and the code around it knows: see `VerdictIsRight`.
- When a transaction's record cannot be inserted before the transaction begins, as when the log table has
  to be created first, it is inserted within the transaction, and its absence proves nothing. The same
  happens when the session still has a transaction open, as an attempt to begin leaves it that fails after
  BEGIN and rolls nothing back: see `LeftoverHappens`. Then there is always a course of events in which
  `commit()` returns normally although the transaction was rolled back. The normal return can be trusted
  exactly if the first insertion succeeded and the session had no transaction: see
  `UnrecordedBeginMisleads` and `TrustworthyExactlyWhenRecordedFirst`.
- Some calls execute a statement without aborting the transaction if it fails: executions of prepared and
  parameterized statements, those of cursors and pipelines, the end of copying, `set_variable` and
  `get_variable`. Some look for input, and may find the connection broken without executing anything:
  `get_notifs`, `await_notification`, reading and writing lines to copy, and receiving a pipeline's results.
  After such a call the transaction is still active; but the next that needs the connection, be it
  `quote_name` or `esc_raw`, has it reactivated, and the transaction goes on in a session that is not its
  own. Then `commit()` may return normally but the work is lost: `StrayingMisleads` and `LookingMisleads`
  have such runs of every transaction that has begun. See also `CommitTellsTheTruthExactlyWhenAttached`,
  `StrayedReturnsExactlyWhen`, and `OnlyUncheckedCallsStray`: without calls of these two kinds the loss of
  the session is always noticed.
- An abort whose ROLLBACK is refused, or fails before anything is sent, leaves the transaction open in its
  session, and nobody is told: see `AbortRollsBack`. (A commit that ends in an abort may do so as well.)
- The retries of `connection_base::Exec` are never made: when the connection breaks, making a result of the
  missing reply already gives the connection up and throws, and if reconnecting is to be avoided then
  resetting does nothing. See `Exec` and `Retry` in `Sessions.dfy`.
- Retrieving backwards from one row past the end returns one row too many, unless it is asked for all rows:
  see `RetrievalAsDocumentedExactlyWhen`.
- A second iterator made from a cursor stream after the first was looked at reads nothing, as if it were at
  the end: see `NewIteratorReadsExactlyWhen` and `SecondIteratorReadsNothing`.
- Bytes that are not printable are written by the COPY writer with two backslashes, and come back as the
  text of their octal escapes: see `RoundTripExactlyWhen`. A last field that is written as nothing is not
  read back at all: see `TokenizeAfterGenerate`.
- Unsigned numbers beyond a type's range may be accepted, wrapped around: see `UnsignedParsesExactlyWhen`,
  and `ShortNumeralsWrapExactlyWhen` for which of those that have no more digits than the maximum. So are
  those for `short`: "32768" is read as -32768, see `NarrowSignedParsesExactly`. For signed types that are
  not narrower than `int` the addition has undefined behaviour there: see `SignedUndefinedExactlyWhen`. A
  lone minus sign is accepted as zero. The guarded addition that would avoid all but the last is there, but
  not used.
- Forgetting a prepared statement after its session was lost fails, at least once: see `Unprepare`.
- If the server rejects anything of what is to be restored in a new session then none of the receivers is
  listened for any more, and nobody is told: see `SetupState`.

## Premises

- Pipeline: each query is one statement; the server executes the statements of a batch in order, up to the
  first that fails; it executes none of a batch that it cannot parse, which then contains a statement that
  also fails by itself. Only that makes the dummy query fail. A statement run by itself may be left without a
  reply, executed or not; then it counts as an attempt that did not succeed. Replay happens outside of a backend
  transaction (`nontransaction`).
- Commits: outside of a transaction each command is committed by itself; transactions below the snapshot's
  minimum are over; the 30-day cleanup did not touch the record; a failed attempt to read from the
  connection means that it is not open any more; a message that is not a commit and arrives late has no effect.
- Cursors: a result set has fewer rows than the number that stands for "all".
- Numbers: `int` has four bytes, and the conversion of a value out of range to a narrower signed type wraps
  around.
- Sessions: user queries do not themselves prepare or deallocate statements; listening is not undone by a
  rollback.

## Model

| member | source | states |
|---|---|---|
| PipelineStates.InsertedSound | src/pipeline.cxx:75-89 | a query added with the next id, if at least one more is left below the limit, keeps every clause of the invariant: shape, waiting count, error mark, attribution of answers and of failures, reception, batching, results to come |
| PipelineStates.ReadSound | src/pipeline.cxx:264-285 | the next result, with its data, is the answer, or the failure, of the oldest pending query, which has none yet, so neither of the two internal errors about surplus results can occur; storing it there keeps the invariant |
| PipelineStates.CutShortSound | src/pipeline.cxx:254-262 | when results end early, putting the error at the oldest pending query and ending the issued range there keeps the invariant and leaves an error |
| PipelineStates.DummyReadSound | src/pipeline.cxx:289-322 | a dummy result that is no error is the one row with the dummy value, so that the two checks of it never fail |
| PipelineStates.BotchedSound | src/pipeline.cxx:324-339 | if the dummy failed then nothing of the batch was executed, no other result follows, and some query of the batch fails by itself |
| PipelineStates.ForgottenFails | src/pipeline.cxx:331-348 | after the failed batch is given its error and counted as waiting again, it is ready for replay: nothing pending or to be read, all of its queries present, one of them at fault |
| PipelineStates.RunAloneSound | src/pipeline.cxx:354-363 | a query replayed with success gets the result, with its data, of its own text, and all is in order behind it |
| PipelineStates.ThudSound | src/pipeline.cxx:365-377 | a query replayed without success, whether the server refused it or no reply came, keeps the batch's error; it is noted as the failure of that query, the error mark is put behind it, and the waiting count is exact again |
| PipelineStates.IssuedSound | src/pipeline.cxx:203-237 | sending all waiting queries as one batch, with a dummy in front of several, keeps the invariant: each result that the server will send, answer or failure, is for the query of the same position |
| PipelineStates.ErasedSound | src/pipeline.cxx:431 | erasing a retrieved query keeps the invariant, as it lies before the issued range |
| PipelineStates.FlushedSound | src/pipeline.cxx:123-134 | forgetting all queries when nothing is pending keeps the invariant |
| PipelineStates.ReplayStopsAt | src/pipeline.cxx:350-377 | the replay of a batch ends behind the first query that fails, which is where it puts the error mark; it takes from the waiting count exactly those that it ran |
| PipelineStates.ReplayRunsThrough | src/pipeline.cxx:350-363 | a replay in which nothing fails leaves the end of the issued range at the start of the batch |
| PipelineStates.ReplayInShapeExactlyWhen | src/pipeline.cxx:342-377 | range and waiting count are right after a replay if and only if some query of the batch fails by itself |
| PipelineStates.ReplayEnds | src/pipeline.cxx:365-377 | after the replay the queries before the one at fault are answered, and only they |
| PipelineStates.FailureStopsBatch | src/pipeline.cxx:254-262 | if a query failed before a pending one of its batch, then it is the one right before the pending ones, there will be no results for these, and the next read puts the error at the first of them |
| PipelineStates.AnsweredInOrder | src/pipeline.cxx:264-285 | a query is answered, or fails, only if all before it in its batch were answered; different queries by different executions of their texts, in the order of their ids |
| PipelineStates.ErrorRefuses | src/pipeline.cxx:123-134 | flushing keeps an error; and with one, the ids of all queries waiting or still to be inserted are refused |
| PipelineStates.FlushDoesNotClear | src/pipeline.cxx:123-134 | an instance: after a query was sent and the connection lost, a flush, and the insertion of another query, all is in order but the error is still set, before that query |
| PipelineStates.ToldMeans | src/pipeline.cxx:384-435 | in every history an answer under an id is exactly what a successful execution of the text inserted under that id returned, and a failure thrown comes from an attempt at that text that did not succeed; each is told once; they come from different attempts, in the order of insertion; and what is told of a query behind a failed one is of a later batch |
| PipelineStates.ToldNext | src/pipeline.cxx:384-435 | each operation extends the history truthfully: an answer or a failure is told only while its query is there, which it then is not |
| PipelineStates.UnforgottenNext | src/pipeline.cxx:75-435 | from one operation to the next, what was inserted is still there, or was told of |
| PipelineStates.OldestQuery | src/pipeline.cxx:157-164 | the first iterator of the map leads to the query with the least id |
| Pipelines.Pipeline.constructor | src/pipeline.cxx:40-53 | a new pipeline is sound, empty and without error |
| Pipelines.Pipeline.PendingPositions | include/pqxx/pipeline.hxx:174-175 | the two iterators differ exactly if there are queries between them, and then the first points at one |
| Pipelines.Pipeline.SetErrorAt | include/pqxx/pipeline.hxx:179-181 | the error mark becomes the lower of what it was and the given id |
| Pipelines.Pipeline.ObtainResult | src/pipeline.cxx:247-286 | either the next result is stored for the oldest pending query; or the results ended, with an error if one was due; or the connection is broken; the latter two only if there are no results, or they were lost |
| Pipelines.Pipeline.ObtainDummy | src/pipeline.cxx:289-381 | either only the dummy's result is taken off; or the whole batch is replayed, and ends up as the specification of replay says, with nothing pending |
| Pipelines.Pipeline.FailPending | src/pipeline.cxx:329-333 | exactly the queries of the issued range get the error for a result |
| Pipelines.Pipeline.Replay | src/pipeline.cxx:350-377 | the loop that runs a failed batch query by query computes the specified window and answers, keeps the invariant, and ends with an error set |
| Pipelines.Pipeline.GetFurtherAvailableResults | src/pipeline.cxx:437-444 | reads until the server is busy or nothing is pending; keeps the invariant, terminates, and forgets no answer and no error |
| Pipelines.Pipeline.ReceiveIfAvailable | src/pipeline.cxx:447-455 | the same, from any state, with a pending dummy or not; when nothing happens on the connection nothing is thrown |
| Pipelines.Pipeline.ReceiveUpTo | src/pipeline.cxx:460-465 | waiting goes on for the results before the given query, and no longer |
| Pipelines.Pipeline.Receive | src/pipeline.cxx:458-470 | when it returns no dummy is pending, and either everything before the given query has come in, or nothing is pending; what is still pending is being waited for; an error found is not before what had been received, and when no results are left it is found |
| Pipelines.Pipeline.BatchTexts | src/pipeline.cxx:218-224 | the batch consists of the texts of all waiting queries, in the order of their ids |
| Pipelines.Pipeline.Issue | src/pipeline.cxx:203-237 | a batch is only sent when the one before is drained and there is no error; then nothing is left waiting, something is pending, and there is a dummy exactly in front of several; otherwise nothing changes; it throws only if the server was not to be reached |
| Pipelines.Pipeline.Insert | src/pipeline.cxx:75-101 | with two ids to spare below the limit: the query gets the next id; below the retention limit nothing else happens, and from there on the server is not left idle; unless there was an error nothing is left waiting beyond the retention limit with nothing pending; nothing is thrown but for trouble on the connection, or an occupied focus |
| Pipelines.Pipeline.Complete | src/pipeline.cxx:104-120 | when it returns nothing is pending, no dummy either; without an error nothing is waiting and every query inserted has its result; and it does return, unless there is trouble on the connection |
| Pipelines.Pipeline.Flush | src/pipeline.cxx:123-134 | when it returns there are no queries left; the error mark is what it was, or at or behind the first query that was pending; it throws only for trouble on the connection |
| Pipelines.Pipeline.IsFinished | src/pipeline.cxx:149-155 | throws exactly for an unknown query; a finished one has its result, and one that is not has not, or lies behind an error |
| Pipelines.Pipeline.Retain | src/pipeline.cxx:167-179 | throws exactly for a negative number, but for trouble on the connection; otherwise sets the limit and returns the old one; nothing else happens if less is waiting, and if not the server is not left idle |
| Pipelines.Pipeline.Resume | src/pipeline.cxx:182-190 | unless there was an error, nothing is left waiting while nothing is pending; and when something is pending the server is at it |
| Pipelines.Pipeline.Retrieve | src/pipeline.cxx:384-435 | a result returned is, data included, what a successful execution of the very text inserted under the id returned, and the query's failure thrown is that of an attempt at this text; the query, and only it, is gone then, and the server is not left idle with queries waiting or pending; it throws for an unknown id exactly, and, changing nothing, for an id at or behind the error mark; for a query behind a failed one of its batch there is neither a result nor its own failure; an answer that is in, before the error mark, is returned; and trouble on the connection is reported only if there is some |
| Pipelines.Pipeline.RetrieveNext | src/pipeline.cxx:157-164 | the same for the least id, with the same data; throws exactly if there is none |
| Pipelines.Perform | src/pipeline.cxx:75-435 | every insertion is told, and every answer and failure that is returned; and no query goes untold, but for a flush |
| Pipelines.Run | src/pipeline.cxx:75-435 | after any sequence of operations, with any behaviour of server and connection, as long as there are ids, what was told is as ToldMeans says; and, unless it is flushed, each query that was inserted is still there or was told of |
| RobustTransactions.VerdictIsRight | src/robusttransaction.cxx:280-325 | once the session is gone, finding the record means that the transaction was rolled back, finding none means that it was committed |
| RobustTransactions.VerdictExactlyWhen | src/robusttransaction.cxx:280-325 | on messages: the verdict is unknown if and only if a poll was not answered, or all 20 said that the backend is still at it, or the lookup was not answered; otherwise it is that the record exists if and only if the transaction was rolled back, and that it does not if and only if it was committed |
| RobustTransactions.BeginArms | src/robusttransaction.cxx:54-78 | on any connection whose session has no transaction, a transaction whose record was created first is open in its own session when it has begun, with the record committed outside and deleted inside |
| RobustTransactions.BeginStaysReady | src/robusttransaction.cxx:54-78 | an attempt to begin, successful or not, leaves a connection on which there can be another |
| RobustTransactions.CommitIsSafe | src/robusttransaction.cxx:82-169 | normal return means committed, with all that was done in the transaction; any exception but in-doubt means that it is not and never will be, and that the session is rid of the transaction unless a ROLLBACK was refused or not sent; it is in doubt if and only if the connection broke on COMMIT and a poll or the lookup was not answered, or not in time; and it returns normally if and only if COMMIT was answered, or the lookup finds the transaction committed |
| RobustTransactions.LostCommitIsAborted | src/robusttransaction.cxx:82-169 | the run of any transaction whose record was created first, in which COMMIT is lost and the backend gives up: an exception that is not in-doubt, status and server agree that it is aborted, and the record is gone |
| RobustTransactions.DeafCommitIsCommitted | src/robusttransaction.cxx:82-169 | the run in which COMMIT arrives but its answer does not: a normal return, status and server agree that it is committed, with all that was done in it |
| RobustTransactions.AbortRollsBack | src/robusttransaction.cxx:172-176 | aborting a transaction in its session rolls it back if ROLLBACK is answered; and the transaction is still in the session if and only if that was refused, or not sent |
| RobustTransactions.AbortForgetsExactlyWhen | src/robusttransaction.cxx:247-276 | the number of the record is forgotten if and only if ROLLBACK was answered, and the deletion of the record too, in one of 21 attempts at most; then the record is gone |
| RobustTransactions.StrayedNeverCommits | src/robusttransaction.cxx:82-169 | a transaction whose session was lost before is never committed, whatever is returned |
| RobustTransactions.CommitTellsTheTruthExactlyWhenAttached | src/transaction_base.cxx:108-181 | a normal return of commit tells the truth if and only if the transaction is still in its session when commit is called |
| RobustTransactions.StrayedReturnsExactlyWhen | src/transaction_base.cxx:108-181 | commit of a transaction that is not in its session any more returns normally, and wrongly, if and only if the connection is there and both of its messages are answered |
| RobustTransactions.RunIsTold | src/transaction_base.cxx:108-283 | from any point of a transaction's life on, in every run, committed and aborted status agree with the server, except for a transaction that strayed or whose record was not created first; what was committed includes every statement that returned; and what was aborted is not in the session any more unless a ROLLBACK was refused or not sent |
| RobustTransactions.EveryRunIsTold | src/robusttransaction.cxx:54-176 | whole runs of a transaction object, from its creation on, in any session, with attempts to begin that fail and are repeated, over every loss of messages, of acknowledgements, and every late commit: aborted means not committed, now or later, and not open any more unless a ROLLBACK was refused or not sent; and committed, of a transaction whose record was created first, means committed at the server if and only if it never strayed, and then every statement that returned was executed in it |
| RobustTransactions.OnlyUncheckedCallsStray | src/connection_base.cxx:600-606 | without statements executed past the transaction object, and without looks for input, no transaction ever strays, however often the connection is activated: the loss of the session is noticed |
| RobustTransactions.StrayingMisleads | src/transaction_base.cxx:309-324 | every transaction that has begun and not failed has a run in which a message is lost, a call past the transaction object has the connection reactivated, and commit returns although nothing is committed, now or later |
| RobustTransactions.LookingMisleads | src/connection_base.cxx:600-606 | so it has one without any statement: a look for input finds the connection broken, quoting a name has it given up and then reactivated, and commit returns |
| RobustTransactions.FallbackHappens | src/robusttransaction.cxx:60-69 | when only the first command fails, as for want of a log, ten messages later the log has been created, and the transaction has begun with its record inside |
| RobustTransactions.QuietBegin | src/robusttransaction.cxx:54-78 | when nothing goes wrong, a begin succeeds and takes a look for input and six messages |
| RobustTransactions.QuietCommit | src/robusttransaction.cxx:82-112 | and a commit takes two, after which all that was done is committed, and the record deleted |
| RobustTransactions.QuietAbort | src/robusttransaction.cxx:172-176 | and so does an abort, after which the transaction is rolled back, the session rid of it, and the record gone |
| RobustTransactions.RetriesAreCounted | src/connection_base.cxx:722-727 | read literally, the loop sends a command whose message is lost each time as often as retries allow, and no more |
| RobustTransactions.RetriesEnd | src/connection_base.cxx:722-727 | and not any more once the connection was not reactivated |
| RobustTransactions.BeginIsRetried | src/dbtransaction.cxx:78-83 | so BEGIN is sent three times at most: after two losses it may succeed, after three the attempt is over |
| RobustTransactions.LogIsTried | src/robusttransaction.cxx:180-211 | the table of the log is tried once more when the connection is lost, the sequence is not |
| RobustTransactions.LeftoverHappens | src/robusttransaction.cxx:54-78 | when only the last command of a begin fails, the transaction is left open, and the next begin creates its record first, in there, and succeeds |
| RobustTransactions.BegunUnrecorded | src/robusttransaction.cxx:54-78 | a transaction whose record was not created first, or in a session that had a transaction open, has no record that anyone else could see, and is in order otherwise |
| RobustTransactions.UnrecordedDoubtIsDropped | src/robusttransaction.cxx:118-169 | of such a transaction, doubt is never resolved to failure |
| RobustTransactions.UnrecordedMisleads | src/robusttransaction.cxx:82-169 | the same course of events misleads in every session whose record nobody else can see |
| RobustTransactions.UnrecordedBeginMisleads | src/robusttransaction.cxx:54-169 | of every transaction begun that way there is a course of events in which commit returns although the transaction was rolled back |
| RobustTransactions.TrustworthyExactlyWhenRecordedFirst | src/robusttransaction.cxx:54-169 | in any session: commit of a transaction that has begun returns normally only if it is committed, whatever happens, if and only if the session had no transaction and the first attempt to create the record succeeded |
| RobustTransactions.UnrecordedNeverExists | src/robusttransaction.cxx:280-325 | without such a record the check never finds one |
| RobustTransactions.PlainCommitTells | src/transaction.cxx:37-67 | the plain commit is in doubt exactly if the connection is lost during it; an exception otherwise means that nothing was committed |
| RobustTransactions.FindIsRight | src/robusttransaction.cxx:317-324 | however often it is retried, the lookup answers according to how the transaction ended |
| RobustTransactions.RobustTransaction.Begin | src/transaction_base.cxx:327-347 | a look for input, and then the begin of which the theorems speak; if it succeeds with the record created first, outside of a transaction, the transaction is armed; if not the status stays |
| RobustTransactions.RobustTransaction.TryBegin | src/robusttransaction.cxx:54-78 | the method computes the begin of which the theorems speak |
| RobustTransactions.RobustTransaction.LookForInput | src/connection_base.cxx:600-606 | a look for input executes nothing, and throws exactly if it finds the connection broken; if not, the session is what it was |
| RobustTransactions.RobustTransaction.Activate | src/transaction_base.cxx:234-256 | a nascent transaction is begun, an active one left alone, and others are refused |
| RobustTransactions.RobustTransaction.CreateRecord | src/robusttransaction.cxx:214-237 | so it does the creation of the record |
| RobustTransactions.RobustTransaction.DeleteRecordForGood | src/robusttransaction.cxx:247-276 | and its deletion |
| RobustTransactions.RobustTransaction.CheckRecord | src/robusttransaction.cxx:280-325 | the polling loop computes the verdict of which VerdictIsRight and VerdictExactlyWhen speak |
| RobustTransactions.RobustTransaction.TryCommit | src/robusttransaction.cxx:82-169 | the exception paths of a commit, as specified |
| RobustTransactions.RobustTransaction.Commit | src/transaction_base.cxx:108-181 | the status machine around it, as specified for every status; of an armed transaction a normal return means that it is committed with all that was done, an exception other than in-doubt that it is not and never will be, and is not in the session any more unless a ROLLBACK was refused or not sent; a strayed one never is |
| RobustTransactions.RobustTransaction.Abort | src/transaction_base.cxx:184-217 | so for abort: a transaction that cannot have committed is aborted, and never will be committed; one that is in its session is rolled back if ROLLBACK is answered, and is still there if and only if that was refused or not sent; other statuses stay, with an exception exactly for a committed one |
| RobustTransactions.RobustTransaction.Rollback | src/robusttransaction.cxx:172-176 | computes the rolling back and deleting of the record of which AbortRollsBack, AbortForgetsExactlyWhen and QuietAbort speak |
| RobustTransactions.RobustTransaction.Statement | src/dbtransaction.cxx:86-97 | the transaction is begun if it has not been; one that does not fail was executed in the transaction, and leaves it armed; one that fails aborts it for good, and it is not in the session any more unless a ROLLBACK was refused or not sent; when the transaction is over it is refused |
| RobustTransactions.RobustTransaction.DirectStatement | src/connection_base.cxx:822-844 | a statement executed past the transaction object computes what the theorems speak of; one that returns was executed in the transaction; one that fails leaves the transaction active, armed if its session is still there, or else strayed |
| RobustTransactions.RobustTransaction.ReactivateConnection | src/connection_base.cxx:1148-1152 | activating the connection on the way to something else leaves the status of the transaction alone; it returns exactly if there is a connection then, and does nothing if there was |
| RobustTransactions.RobustTransaction.Execute | src/connection_base.cxx:716-733 | the loop as it reads, which is to send a command again after each broken connection until a reset does not succeed; the code throws before the loop is entered, which the model has as the case that the connection is not reactivated |
| SqlCursors.AdjustTracks | src/cursor.cxx:169-216 | adjusting to the row count of one movement keeps the tracked position right, settles whether it is past an end, and reports the true displacement, up to one for a first movement from an unknown place |
| SqlCursors.TracksExactlyWhenCountable | src/cursor.cxx:169-216 | for a known position it does so if and only if the movement is not an ALL that met at least as many rows as stand for it |
| SqlCursors.CreatedCursorIsExact | src/cursor.cxx:169-251 | over every sequence of movements of any size and sign of a cursor created by the class: no internal error, exact position, end flag and displacements; the end position is unknown or right |
| SqlCursors.AdoptedCursorIsExact | src/cursor.cxx:117-216 | from an unknown start: no internal error, what is known is right, and only the first reported displacement may be one too large |
| SqlCursors.RunTracks | src/cursor.cxx:169-251 | once known, a position stays known |
| SqlCursors.SqlCursor.AdjustPosition | src/cursor.cxx:169-216 | the method computes the adjustment of which the theorems speak |
| SqlCursors.SqlCursor.FetchRows | src/cursor.cxx:219-232 | returns the rows passed, in the direction of travel; keeps what is known right; no internal error fires |
| SqlCursors.SqlCursor.MoveRows | src/cursor.cxx:235-251 | the same for a movement, with the number of rows passed |
| SqlCursors.SqlCursor.Size | src/cursor.cxx:278-282 | returns the number of rows, wherever the cursor was |
| SqlCursors.SqlCursor.Retrieve | src/cursor.cxx:285-302 | wherever the cursor was: an error exactly for a begin that is not in 0 to the size; otherwise the rows that AsWritten has |
| SqlCursors.FetchIsAsWritten | src/cursor.cxx:299-301 | the fetch from the place moved to has these rows, in ascending or descending order |
| SqlCursors.RetrievalAsDocumentedExactlyWhen | src/cursor.cxx:285-302 | they are the documented ones if and only if it is not a descent from behind the last row to some row; then there is one row too many, that of the excluded end |
| CursorStreams.Stream.InsertIterator | src/cursor.cxx:375-381 | the list has the iterator in front, linked in both directions |
| CursorStreams.Stream.RemoveIterator | src/cursor.cxx:384-402 | the list is without the iterator, still linked in both directions; the iterator has no links |
| CursorStreams.Stream.FetchBlock | src/cursor.cxx:350-356 | reads the next rows, up to the stride; the client's count of rows stays that of the server |
| CursorStreams.Stream.Ignore | src/cursor.cxx:359-365 | passes the rows, or those that there are |
| CursorStreams.Stream.Forward | src/cursor.cxx:368-372 | a request for some blocks moves the position of requests by as many strides |
| CursorStreams.Stream.Gather | src/cursor.cxx:409-418 | exactly the listed iterators with positions in range are to be served, in the order of positions |
| CursorStreams.Stream.ServiceIterators | src/cursor.cxx:405-428 | every listed iterator with realpos <= pos <= topos has exactly the rows pos up to pos + stride, as far as they exist; every other keeps what it had; the stream has fetched exactly the rows of these blocks, in order, and is behind the last of them |
| CursorStreams.EnlistedSorted | src/cursor.cxx:409-418 | the multimap keeps the iterators ordered by position |
| CursorStreams.ServicedOrderly | src/cursor.cxx:405-428 | serving keeps positions between blocks, and the data of iterators those of their positions |
| CursorStreams.RowsReadAscend | src/cursor.cxx:405-428 | the rows of the blocks at aligned positions are in ascending order, none twice, and each in a block that is due |
| CursorStreams.ReadsItsBlockExactlyWhen | src/cursor.cxx:545-549 | looking at an iterator yields the block at its position if and only if the stream had not passed that, or the iterator had the block already |
| CursorStreams.MovedIteratorReads | src/cursor.cxx:470-501 | an iterator that was moved always reads its block |
| CursorStreams.NewIteratorReadsExactlyWhen | src/cursor.cxx:440-448 | a new iterator from a stream does if and only if the stream has not read beyond the position of requests, or there are no rows there |
| CursorStreams.SecondIteratorReadsNothing | src/cursor.cxx:440-448 | an instance in which it does not |
| CursorStreams.EnteredOrderly | src/cursor.cxx:440-460 | an iterator made or copied into a stream's list keeps each list exactly the live iterators on its stream |
| CursorStreams.WithdrawnOrderly | src/cursor.cxx:463-467 | so does one that is destroyed |
| CursorStreams.AssignedOrderly | src/cursor.cxx:504-523 | so does assignment, within one stream or across streams |
| CursorStreams.AdvancedOrderly | src/cursor.cxx:470-501 | so does moving an iterator, which takes it to the position of requests |
| CursorStreams.RosterAfter | src/cursor.cxx:305-555 | after every sequence of constructions, copies, assignments, movements, looks and destructions each stream lists exactly its live iterators, once each, and an iterator has no data or those of its position |
| CursorStreams.NeverGoesBack | src/cursor.cxx:350-365 | no operation takes a stream back or makes it forget which rows it fetched; these are in ascending order, before its position, so that no row is fetched twice |
| CursorStreams.CopyIsAlike | src/cursor.cxx:450-460 | a copy is on the stream of its original, at its position, and has what that has read; nothing else changes but the stream's list |
| CursorStreams.AssignmentIsAlike | src/cursor.cxx:504-523 | so does what is assigned to, within one stream or across; and assigning an iterator to itself changes nothing |
| CursorStreams.LookAlike | src/cursor.cxx:545-549 | looking at either of two iterators that are alike does the same, and both then have the same rows |
| CursorStreams.BeginningIs | src/cursor.cxx:440-448 | a new iterator is at the position of requests, with nothing read; nothing else changes but the list |
| CursorStreams.DestructionIs | src/cursor.cxx:463-467 | the iterator is gone, and nothing else changes but the list |
| CursorStreams.MovementIs | src/cursor.cxx:470-501 | an iterator that is moved is as many strides behind the position of requests, which then is there too, and has nothing read; nothing else changes |
| CursorStreams.LookingIs | src/cursor.cxx:545-549 | looking at an iterator affects only its stream, and what the iterators on that have read |
| CursorStreams.Desk.Open | src/cursor.cxx:305-348 | there is no stream with a stride below 1; a new one is empty-listed and at the start of its rows, and has fetched none |
| CursorStreams.Desk.Begin | src/cursor.cxx:440-448 | the constructor does to the objects what Begun does to the roster: the new iterator is at the position of requests with nothing read, and all others stay as they are |
| CursorStreams.Desk.Copy | src/cursor.cxx:450-460 | the new iterator has the stream, the position and the data of the other; all others, and the streams but for their lists, stay as they are |
| CursorStreams.Desk.Assign | src/cursor.cxx:504-523 | so has the one assigned to; assigning an iterator to itself changes nothing |
| CursorStreams.Desk.Destroy | src/cursor.cxx:463-467 | the iterator is gone; all others, and the streams but for their lists, stay as they are |
| CursorStreams.Desk.Advance | src/cursor.cxx:470-501 | so for movement; a negative one is refused, and one by nothing does nothing |
| CursorStreams.Desk.Refresh | src/cursor.cxx:545-549 | so for looking |
| CursorStreams.Desk.Equal | src/cursor.cxx:526-533 | on one stream, equality of positions; an iterator on no stream equals those that have no rows left |
| CursorStreams.ReadAll | src/cursor.cxx:405-549 | the usual loop over two iterators reads exactly the rows from the position of requests on, in order, each once |
| ReferenceRings.RefCount.MakeRef | src/util.cxx:111-117 | the node becomes a member of the other's ring, right behind it |
| ReferenceRings.RefCount.LoseRef | src/util.cxx:120-128 | returns true exactly for the only member; the node is a ring by itself, and the others still form one |
| ReferenceRings.LastReference | src/util.cxx:120-128 | a node is the only member of its ring if and only if nobody else refers to its resource |
| ReferenceRings.DepartedBalanced | include/pqxx/util.hxx:608-613 | who leaves frees the resource exactly if nobody else refers to it; the books stay balanced |
| ReferenceRings.JoinedBalanced | include/pqxx/util.hxx:602-606 | who joins shares the ring of those that refer to the same resource, and refers to it |
| ReferenceRings.EffectBalanced | include/pqxx/util.hxx:553-618 | copying, assigning and dropping keep all nodes partitioned into rings by resource, and the books balanced |
| ReferenceRings.AcquisitionIs | include/pqxx/util.hxx:563 | a new pointer refers to the resource obtained; nothing is freed |
| ReferenceRings.CopyIs | include/pqxx/util.hxx:553-618 | a copy refers to what the other does; nothing is freed |
| ReferenceRings.AssignmentIs | include/pqxx/util.hxx:553-618 | so does what is assigned to; the resource it referred to is freed if and only if that was the last reference to it, and it is another one |
| ReferenceRings.DropIs | include/pqxx/util.hxx:608-613 | dropping a pointer frees its resource if and only if that was the last reference to it; all other pointers stay |
| ReferenceRings.BookAfter | include/pqxx/util.hxx:553-618 | after any sequence of operations each resource obtained has been freed exactly once if no reference to it is left, and not at all otherwise |
| ReferenceRings.FreedForGood | include/pqxx/util.hxx:608-613 | what was freed stays freed |
| ReferenceRings.Pool.MakeRef | src/util.cxx:111-117 | among all nodes of a program the links change as the book says |
| ReferenceRings.Pool.LoseRef | src/util.cxx:120-128 | the same, and true is returned exactly for the last reference |
| CopyText.Escape | src/tablewriter.cxx:136-167 | the loop computes the specified written form |
| CopyText.ExtractField | src/tablereader.cxx:129-229 | the loop over the line, with its moving end, computes the specified field, position and errors |
| CopyText.ExtractAfterEscape | src/tablereader.cxx:129-229 | reading accepts every written field, in front of a tab or the end, and yields it with each unprintable byte as its octal text; the null string yields itself; the index is behind the terminator |
| CopyText.RoundTripExactlyWhen | src/tablewriter.cxx:136-167 | a field comes back as it was if and only if it is the null string or has no byte that is written in octal |
| CopyText.ShownIsIdentityWhen | src/tablewriter.cxx:156-160 | nothing is changed exactly if there is no such byte |
| CopyText.OctalExactlyWhen | src/tablewriter.cxx:136-167 | written in octal are exactly the control characters but for the six that have names, and everything from DEL on |
| CopyText.EscapeConfusesExactly | src/tablewriter.cxx:136-167 | two fields are written alike if and only if both or neither are the null string and they read alike |
| CopyText.NullIsUnmistakable | src/tablewriter.cxx:136-167 | what is written for the null string is written for no other field |
| CopyText.EscapeIsNotInjective | src/tablewriter.cxx:156-160 | an instance of different fields written alike |
| CopyText.SpellingIsRead | src/tablereader.cxx:129-229 | whatever mixture of plain bytes, escaped letters and three-digit octal numbers a field consists of is read as what is meant, of numbers the lowest eight bits |
| CopyText.DefectsAreNamed | src/tablereader.cxx:129-229 | an instance of each of the six errors, and of the null string in front of another field |
| CopyText.TokenizeAfterGenerate | include/pqxx/tablereader.hxx:88-94 | fields joined by tabs come back in order, up to octal text, if and only if the last is not written as nothing; then all but it do |
| CopyText.Generate | include/pqxx/tablewriter.hxx:144-148 | the loop joins the written fields by tabs |
| CopyText.Tokenize | include/pqxx/tablereader.hxx:88-94 | the loop computes the specified fields |
| CopyText.RefusedExactlyWhen | include/pqxx/tablereader.hxx:88-94 | a line is refused, for a reason, if and only if one of the fields is for this reason that reading comes to |
| CopyText.ScanAdvances | src/tablereader.cxx:136-223 | reading a field advances, so the loop over a line terminates |
| CopyText.FieldEndsAtFirstTerminator | src/tablereader.cxx:135-223 | on any line without raw newlines an accepted field ends at its first tab that is not escaped, or at the end of the line |
| CopyText.RawNewlineSkips | src/tablereader.cxx:141-144 | with a raw newline it need not: what is behind it is skipped |
| StringConversion.SafeMultiplyExact | src/strconv.cxx:81-88 | multiplication by ten is refused exactly if the product is out of range |
| StringConversion.DigitsAreDecimal | src/strconv.cxx:212-228 | a digit stands for the number that one would think, and is the one it is written as |
| StringConversion.FirstCharacterDecides | src/strconv.cxx:109-151 | a text is refused as no integer if and only if it is empty or begins neither with a digit nor, for signed types, with a minus sign |
| StringConversion.TrailingTextIsReported | src/strconv.cxx:109-151 | digits in range with something else behind them are refused for that, not for anything else |
| StringConversion.MinusNegates | src/strconv.cxx:114-121 | an instance: "-12" is read as the number it is written for |
| StringConversion.AbsorbDigitExact | src/strconv.cxx:101-106 | one digit: exact if in range; refused if already the multiplication leaves the range; otherwise wrapped around, or, for signed types not narrower than int, undefined |
| StringConversion.SignedParsesExactly | src/strconv.cxx:109-131 | for signed types not narrower than int: accepted exactly if a numeral, or a lone minus sign, whose value is in range, the minimum included; and then exact; with the guarded addition, for every signed type |
| StringConversion.NarrowSignedParsesExactly | src/strconv.cxx:109-131 | for signed types narrower than int: accepted exactly if a numeral, or a lone minus sign, whose magnitude is at most ten times a tenth of the limit, and nine; the value is exact up to the limit, and the wrapped one beyond; never undefined |
| StringConversion.SignedInRangeIsExact | src/strconv.cxx:109-131 | every numeral in range of a signed type of any width is accepted with its value |
| StringConversion.NarrowWrapAccepted | src/strconv.cxx:365-368 | 32768 is accepted as -32768, for two bytes |
| StringConversion.SignedUndefinedExactlyWhen | src/strconv.cxx:101-106 | the outcome is undefined exactly if the type is not narrower than int and some prefix of the digits exceeds the limit by its last digit alone |
| StringConversion.GuardedAdditionIsDefined | src/strconv.cxx:91-98 | with the guarded addition it never is |
| StringConversion.UnsignedCongruent | src/strconv.cxx:133-151 | whatever is accepted is congruent to the decimal value modulo the span of the type |
| StringConversion.ReducedParsesAsIntended | src/strconv.cxx:133-151 | the parser does to a text what it should do to the text in which every prefix that leaves the range by its last digit is replaced by the digit that is left of it |
| StringConversion.UnsignedParsesExactlyWhen | src/strconv.cxx:133-151 | in-range numerals are accepted and exact, and what is accepted is congruent; the parser does as intended if and only if the text is in range or its reduced text is not |
| StringConversion.ShortNumeralsWrapExactlyWhen | src/strconv.cxx:133-151 | a text of no more digits than the maximum is accepted wrongly if and only if it is above the maximum and at most ten times a tenth of it, and nine; the value then is less by the span |
| StringConversion.UnsignedGuardedParsesExactly | src/strconv.cxx:91-98 | with the guarded addition it accepts exactly the in-range numerals |
| StringConversion.UnsignedWrapAccepted | src/strconv.cxx:101-106 | 256 is accepted as zero, for one byte |
| StringConversion.FromStringSigned | src/strconv.cxx:109-131 | the loop computes the specified outcome |
| StringConversion.FromStringUnsigned | src/strconv.cxx:133-151 | so does this one |
| StringConversion.BytesFitDigits | src/strconv.cxx:216-218 | a value of k bytes has at most 4k digits |
| StringConversion.DigitsAreCanonical | src/strconv.cxx:212-228 | zero is written as one digit, and no other number with a zero in front |
| StringConversion.ToStringUnsigned | src/strconv.cxx:212-228 | the digits fit the buffer of 4k+1, and are those of the value |
| StringConversion.ToStringSigned | src/strconv.cxx:278-292 | the text is the value's; for the minimum, as the standard library prints it |
| StringConversion.PrintThenParse | src/strconv.cxx:109-292 | parsing what was printed yields the value, for every value of every width, signed and unsigned |
| Sessions.Connection.constructor | src/connection_base.cxx:124-139 | a new connection has no session, and nothing registered |
| Sessions.Connection.Activate | src/connection_base.cxx:182-216 | an open connection is left alone; opening one leaves exactly the registered statements known to the session, none; a broken one is given up first; nothing is done if that is inhibited, or to be avoided; and it throws only if the server was not to be reached or not supported, or if it is inhibited, or the connection was known to be broken |
| Sessions.Connection.SetupState | src/connection_base.cxx:305-369 | in a new session no statement is registered, and exactly the channels with receivers are listened for if the server accepted the batch, and none if not |
| Sessions.Connection.Reset | src/connection_base.cxx:854-877 | a reset keeps the definitions and leaves the connection open, in a new session, if reconnecting is not to be avoided; it throws only if the server was not to be reached or not supported, or if it is inhibited |
| Sessions.Connection.Exec | src/connection_base.cxx:716-733 | when it returns exactly this command was sent, once, and the server did it; an SQL error means that it was sent once and refused; for any other exception the connection is not open, and that has a cause; a command is sent once at most, whatever the number of retries; and the registered statements are exactly those that the session knows |
| Sessions.Connection.MakeResult | src/connection_base.cxx:149-158 | a lost connection is given up, and then this throws, unless reconnecting is to be avoided; all else stays |
| Sessions.Connection.Retry | src/connection_base.cxx:722-727 | the loop that resets the connection and would send the command again never does |
| Sessions.Connection.SendPrepare | src/connection_base.cxx:803-806 | needs that the session has no statement of that name: no PREPARE ever meets a live duplicate |
| Sessions.Connection.SendExecPrepared | src/connection_base.cxx:830-841 | needs that the session has the statement, with the definition remembered |
| Sessions.Connection.Prepare | src/connection_base.cxx:736-759 | throws exactly for another definition under a name in use; otherwise the definition is in force |
| Sessions.Connection.Unprepare | src/connection_base.cxx:768-778 | when it returns the definition is gone, and the session was told exactly if the statement was registered; if it was registered in a session lost since, it always throws, and the definition stays |
| Sessions.Connection.RegisterPrepared | src/connection_base.cxx:792-813 | when it returns the session, if there is one, has the statement as defined; nothing is sent but its definition, once at most |
| Sessions.Connection.PreparedExec | src/connection_base.cxx:822-844 | when it returns what the server executed, once, is the definition in force under the name, and all that was sent before is that definition if need be; an SQL error means that the last thing sent was refused |
| Sessions.Connection.AddReceiver | src/connection_base.cxx:479-505 | the receiver is added unless the server refuses; the first on a channel has the session told to listen, if it is open; channels with receivers are listened for, as long as the session's restore was accepted |
| Sessions.Connection.RemoveReceiver | src/connection_base.cxx:508-542 | one registration less; after the last on a channel that is not listened for any more, if the server did what it was told; nothing is thrown; every other channel with receivers is still listened for |
| Sessions.Connection.Deactivate | src/connection_base.cxx:219-236 | the connection is given up, unless something depends on it |
| Sessions.Perform | src/connection_base.cxx:182-877 | what is told of an operation is exactly what it did, if it succeeded: a definition made or dropped, or one executed |
| Sessions.FaithfulNext | src/connection_base.cxx:736-844 | an execution of the definition in force extends a faithful history |
| Sessions.Run | src/connection_base.cxx:182-877 | in every run, with connections lost at any time, what is executed under a name is the definition last made under it |
| Notices.PiecesAreTheMessage | src/connection_base.cxx:426-445 | each piece ends in a newline and fits the buffer, all but the last are as long as fits and end in the separator, and without separators they make up the message and a newline |
| Notices.ProcessInPieces | src/connection_base.cxx:426-445 | the loop over the buffer writes within it, and emits these pieces |
| Notices.CopyString | src/connection_base.cxx:431 | copying a string writes it and its NUL, and nothing before |
| Notices.ProcessNotice | src/connection_base.cxx:411-446 | a message is passed on with a newline at its end, however much memory there is: at once, with the newline apart, or in these pieces; no message, nothing |

## Left out

- `pipeline::cancel` and the destructor: they erase queries whose results have not been read.
- The query text attached to a pipeline's result; results are attributed by the statement they come from.
- Pipelines.Pipeline.Insert: needs two query ids to spare below the limit, because the limit also stands for no error, so that an error at it could not be told from none; the check in `generate_id` (`src/pipeline.cxx:195`) is not modelled.
- PipelineStates.InsertedSound: likewise.
- The commit check for servers before 8.3, which are rejected when connecting.
- The text of the record lookup in `src/robusttransaction.cxx:318-324`: it is modelled as whether a row with that id exists.
- The focus of a transaction, its pending errors, and variables set within it; a pipeline only meets an occupied focus when it attaches.
- libpq, sockets, waiting and sleeping; connecting asynchronously; protocol versions below 3.
- Cursor streams over adopted cursors, direct reads from a stream that has iterators, changes of stride, destruction of a stream, and failures of the connection while reading.
- The order comparison of cursor stream iterators, which refreshes them as equality does.
- Overflow of positions in cursors and streams, and of query counts.
- Multibyte encodings in COPY text; the COPY protocol itself.
- StringConversion.ToStringSigned: the text of the least value of a signed type, which the code has printed by the standard library, is taken to be correct.
- Conversion of floating-point numbers and booleans, and locales.
- `PQAlloc` objects: what they point at and delete is kept in a book of obtained and freed resources beside the rings; `swap` is left out, being three assignments.
- The string version of `process_notice` on an empty string, which looks at a character before the first.
- Large objects, binary strings, field and row accessors, exception classes, error handlers: thin wrappers.
- Pipelines.Run: its histories record no exceptions but the queries' own failures; which exceptions there may be, and for what cause, is stated by each operation. Runs that come within two ids of the limit are left out, as for Insert.
- Sessions.Run: its histories record no exceptions; which there may be is stated by each operation.
- Sessions.Connection.AddReceiver: does not promise that the channel is listened for in a session whose restore the server had rejected, because it is not: see SetupState.
- Notices.ProcessNotice: which error handlers are called, and their wishes to stop, are not modelled.
