/** The state of a query pipeline and of the server behind it, as a value; what is sound of it;
    and the steps by which it changes, each of which keeps it sound. */
module PipelineStates {
  import opened Basics

  /** The highest value of a query id, which also stands for "no error". */
  const LIMIT := 0x7FFF_FFFF_FFFF_FFFF

  /** What became of a statement.  One that succeeds returns a number of rows, which stands for all its
      data.  One that is run by itself may go unanswered, when the connection is lost; then it may or
      may not have been executed. */
  datatype Fate = Succeeded(count: nat) | Errored | Unanswered

  /** The server was given a statement to execute. */
  datatype Attempt = Attempt(text: string, fate: Fate)

  /** Attempts are numbered in their order. */
  datatype Origin = Statement(serial: nat) | DummyStatement

  datatype Result = Missing | Failure(origin: Origin) | Rows(origin: Origin, count: nat)

  datatype Query = Query(text: string, result: Result)

  predicate HasNoRows(r: Result) {
    r.Rows? ==> r.count == 0
  }

  // ---------- State ----------

  /** Client, server, and history.  An iterator is given by its position: the id it points at, or
      one past the last id for end(). */
  datatype View = View(
    queries: map<nat, Query>,
    first: nat,              // the issued range: first to second are pending,
    second: nat,             // and from second on they are waiting
    waiting: int,
    dummy: bool,
    error: nat,
    busy: bool,              // the server has not yet said that the batch is over
    results: seq<Result>,    // results of the batch still to be read
    log: seq<Attempt>,       // statements attempted so far
    serial: nat,             // number of the statement whose result is to be read next
    inserted: seq<string>,   // every query ever inserted; the first has id 1
    answered: map<nat, nat>, // the statement that answered a query,
    faulted: map<nat, nat>,  // or the one that was its failure,
    start: nat,              // the first query of the latest batch,
    starts: map<nat, nat>)   // and of the batch in which a query was answered or failed

  /** Ids are used in order; from the first pending one on no query is gone. */
  ghost predicate Shaped(queries: map<nat, Query>, first: nat, second: nat, inserted: seq<string>) {
    && 1 <= first <= second <= |inserted| + 1 < LIMIT
    && (forall id :: id in queries ==> 1 <= id <= |inserted| && queries[id].text == inserted[id - 1])
    && (forall id :: first <= id <= |inserted| ==> id in queries)
  }

  /** Without an error, exactly the queries behind the issued range are counted as waiting. */
  predicate Counted(waiting: int, behind: int, error: nat) {
    0 <= waiting <= behind && (error == LIMIT ==> waiting == behind)
  }

  /** An error is behind everything that was answered, and stops the pipeline. */
  predicate Marked(error: nat, first: nat, second: nat) {
    error <= LIMIT && (error < LIMIT ==> error <= first && (first == second || error == 0))
  }

  /** The statement with the given number was the query with the given id, and succeeded. */
  predicate Executes(serial: nat, id: nat, log: seq<Attempt>, inserted: seq<string>) {
    serial < |log| && 1 <= id <= |inserted| && log[serial].text == inserted[id - 1] && log[serial].fate.Succeeded?
  }

  /** It was the query with the given id, and did not succeed. */
  predicate Fails(serial: nat, id: nat, log: seq<Attempt>, inserted: seq<string>) {
    serial < |log| && 1 <= id <= |inserted| && log[serial].text == inserted[id - 1] && !log[serial].fate.Succeeded?
  }

  /** Queries are answered by different executions of their own texts, in the order of their ids. */
  ghost predicate Attributed(answered: map<nat, nat>, first: nat, serial: nat, log: seq<Attempt>, inserted: seq<string>) {
    && serial <= |log|
    && (forall id :: id in answered ==> id < first && answered[id] < serial && Executes(answered[id], id, log, inserted))
    && (forall i, j :: i in answered && j in answered && i < j ==> answered[i] < answered[j])
  }

  /** Queries fail by executions of their own texts, too, in line with the answers. */
  ghost predicate Blamed(answered: map<nat, nat>, faulted: map<nat, nat>, first: nat, serial: nat, log: seq<Attempt>,
                         inserted: seq<string>) {
    && (forall id :: id in faulted ==>
          id < first && id !in answered && faulted[id] < serial && Fails(faulted[id], id, log, inserted))
    && (forall i, j :: i in faulted && j in faulted && i < j ==> faulted[i] < faulted[j])
    && (forall i, j :: i in faulted && j in answered ==>
          if i < j then faulted[i] < answered[j] else answered[j] < faulted[i])
  }

  /** The result is what the statement with the given number returned. */
  predicate IsAnswer(r: Result, serial: nat, log: seq<Attempt>) {
    serial < |log| && log[serial].fate.Succeeded? && r == Rows(Statement(serial), log[serial].fate.count)
  }

  /** The result is the error of that statement, or else the error that its batch had as a whole. */
  predicate IsFailure(r: Result, serial: nat) {
    r == Failure(Statement(serial)) || r == Failure(DummyStatement)
  }

  /** The result held for a query is that answer; or it is a failure, if the query failed; other
      queries have no rows. */
  ghost predicate Received(queries: map<nat, Query>, first: nat, answered: map<nat, nat>, faulted: map<nat, nat>,
                           log: seq<Attempt>) {
    forall id :: id in queries ==>
      if id in answered
      then IsAnswer(queries[id].result, answered[id], log)
      else !queries[id].result.Rows? && (id < first ==> id in faulted && IsFailure(queries[id].result, faulted[id]))
  }

  /** A query is answered, or fails, only if all before it in its batch are answered.  In the latest
      batch all are that are not pending any more, but for the last of them: if it failed, no
      results come behind. */
  ghost predicate Batched(start: nat, first: nat, results: seq<Result>, answered: map<nat, nat>, faulted: map<nat, nat>,
                          starts: map<nat, nat>) {
    && start <= first
    && (forall id :: start <= id < first ==> id in answered || (id == first - 1 && id in faulted && results == []))
    && (forall id :: id in answered || id in faulted ==> id in starts && starts[id] <= id)
    && (forall i, id :: (id in answered || id in faulted) && starts[id] <= i < id ==> i in answered)
  }

  predicate Answer(r: Result, serial: nat, id: nat, log: seq<Attempt>, inserted: seq<string>) {
    IsAnswer(r, serial, log) && Executes(serial, id, log, inserted)
  }

  predicate Failing(r: Result, serial: nat, id: nat, log: seq<Attempt>, inserted: seq<string>) {
    r == Failure(Statement(serial)) && Fails(serial, id, log, inserted)
  }

  /** Results to be read answer the pending queries one by one, up to a failure at most. */
  ghost predicate Answers(results: seq<Result>, first: nat, second: nat, serial: nat, log: seq<Attempt>,
                          inserted: seq<string>) {
    && |results| <= second - first
    && (forall k :: 0 <= k < |results| ==>
          || Answer(results[k], serial + k, first + k, log, inserted)
          || (k == |results| - 1 && Failing(results[k], serial + k, first + k, log, inserted)))
  }

  /** The query fails by itself. */
  predicate Unparsable(id: nat, inserted: seq<string>, parses: string -> bool) {
    1 <= id <= |inserted| && !parses(inserted[id - 1])
  }

  ghost predicate Faulty(first: nat, second: nat, inserted: seq<string>, parses: string -> bool) {
    exists id :: first <= id < second && Unparsable(id, inserted, parses)
  }

  ghost predicate DummyFirst(results: seq<Result>, first: nat, second: nat, serial: nat, log: seq<Attempt>,
                             inserted: seq<string>) {
    results != [] && results[0] == Rows(DummyStatement, 1) && Answers(results[1..], first, second, serial, log, inserted)
  }

  ghost predicate Flowing(v: View, parses: string -> bool) {
    && (!v.busy ==> v.results == [])
    && (if v.dummy then
          && v.second - v.first >= 2 && v.start == v.first
          && (|| v.results == []
              || (v.results == [Failure(DummyStatement)] && Faulty(v.first, v.second, v.inserted, parses))
              || DummyFirst(v.results, v.first, v.second, v.serial, v.log, v.inserted))
        else Answers(v.results, v.first, v.second, v.serial, v.log, v.inserted))
  }

  /** The clauses of the invariant. */
  datatype Clause = Shape | Count | Mark | Attribution | Blame | Reception | Batching | Flow

  ghost predicate Holds(c: Clause, v: View, parses: string -> bool) {
    match c
    case Shape => Shaped(v.queries, v.first, v.second, v.inserted)
    case Count => Counted(v.waiting, |v.inserted| + 1 - v.second, v.error)
    case Mark => Marked(v.error, v.first, v.second)
    case Attribution => Attributed(v.answered, v.first, v.serial, v.log, v.inserted)
    case Blame => Blamed(v.answered, v.faulted, v.first, v.serial, v.log, v.inserted)
    case Reception => Received(v.queries, v.first, v.answered, v.faulted, v.log)
    case Batching => Batched(v.start, v.first, v.results, v.answered, v.faulted, v.starts)
    case Flow => Flowing(v, parses)
  }

  ghost predicate Sound(v: View, parses: string -> bool) {
    forall c: Clause :: Holds(c, v, parses)
  }

  /** All clauses together. */
  ghost predicate Clauses(v: View, parses: string -> bool) {
    && Shaped(v.queries, v.first, v.second, v.inserted)
    && Counted(v.waiting, |v.inserted| + 1 - v.second, v.error)
    && Marked(v.error, v.first, v.second)
    && Attributed(v.answered, v.first, v.serial, v.log, v.inserted)
    && Blamed(v.answered, v.faulted, v.first, v.serial, v.log, v.inserted)
    && Received(v.queries, v.first, v.answered, v.faulted, v.log)
    && Batched(v.start, v.first, v.results, v.answered, v.faulted, v.starts)
    && Flowing(v, parses)
  }

  lemma ClauseHolds(c: Clause, v: View, parses: string -> bool)
    requires Sound(v, parses)
    ensures Holds(c, v, parses)
  {
  }

  lemma SoundMeansClauses(v: View, parses: string -> bool)
    ensures Sound(v, parses) <==> Clauses(v, parses)
  {
    if Sound(v, parses) {
      assert Holds(Shape, v, parses) && Holds(Count, v, parses) && Holds(Mark, v, parses);
      assert Holds(Attribution, v, parses) && Holds(Blame, v, parses) && Holds(Reception, v, parses);
      assert Holds(Batching, v, parses) && Holds(Flow, v, parses);
    }
  }

  /** Attempts, insertions, and queries that are not pending any more leave the answers as they are. */
  lemma AttributedLater(answered: map<nat, nat>, first: nat, first': nat, serial: nat, serial': nat,
                        log: seq<Attempt>, log': seq<Attempt>, inserted: seq<string>, inserted': seq<string>)
    requires Attributed(answered, first, serial, log, inserted)
    requires first <= first' && serial <= serial' <= |log'| && log <= log' && inserted <= inserted'
    ensures Attributed(answered, first', serial', log', inserted')
  {
    assert forall n, id :: Executes(n, id, log, inserted) ==> Executes(n, id, log', inserted');
  }

  lemma BlamedLater(answered: map<nat, nat>, faulted: map<nat, nat>, first: nat, first': nat, serial: nat, serial': nat,
                    log: seq<Attempt>, log': seq<Attempt>, inserted: seq<string>, inserted': seq<string>)
    requires Blamed(answered, faulted, first, serial, log, inserted)
    requires first <= first' && serial <= serial' && log <= log' && inserted <= inserted'
    ensures Blamed(answered, faulted, first', serial', log', inserted')
  {
    assert forall n, id :: Fails(n, id, log, inserted) ==> Fails(n, id, log', inserted');
  }

  // ---------- Steps ----------

  function Inserted(v: View, text: string): View {
    var id := |v.inserted| + 1;
    v.(queries := v.queries[id := Query(text, Missing)], waiting := v.waiting + 1, inserted := v.inserted + [text])
  }

  lemma AnswersExtend(results: seq<Result>, first: nat, second: nat, serial: nat,
                      log: seq<Attempt>, log': seq<Attempt>, inserted: seq<string>, inserted': seq<string>)
    requires Answers(results, first, second, serial, log, inserted)
    requires log <= log' && inserted <= inserted'
    ensures Answers(results, first, second, serial, log', inserted')
  {
    forall k | 0 <= k < |results|
      ensures || Answer(results[k], serial + k, first + k, log', inserted')
              || (k == |results| - 1 && Failing(results[k], serial + k, first + k, log', inserted'))
    {
      assert || Answer(results[k], serial + k, first + k, log, inserted)
             || Failing(results[k], serial + k, first + k, log, inserted);
    }
  }

  lemma InsertedSound(v: View, text: string, parses: string -> bool)
    requires Sound(v, parses) && |v.inserted| + 2 < LIMIT
    ensures Sound(Inserted(v, text), parses)
  {
    var inserted' := v.inserted + [text];
    forall c: Clause ensures Holds(c, Inserted(v, text), parses) {
      ClauseHolds(c, v, parses);
      match c
      case Shape => InsertedShape(v.queries, v.first, v.second, v.inserted, text);
      case Attribution =>
        AttributedLater(v.answered, v.first, v.first, v.serial, v.serial, v.log, v.log, v.inserted, inserted');
      case Blame =>
        BlamedLater(v.answered, v.faulted, v.first, v.first, v.serial, v.serial, v.log, v.log, v.inserted, inserted');
      case Reception =>
        ClauseHolds(Shape, v, parses);
        ClauseHolds(Attribution, v, parses);
        InsertedReceived(v.queries, v.first, v.answered, v.faulted, v.log, |v.inserted| + 1, text);
      case Flow => InsertedFlows(v, text, parses);
      case _ =>
    }
  }

  lemma InsertedShape(queries: map<nat, Query>, first: nat, second: nat, inserted: seq<string>, text: string)
    requires Shaped(queries, first, second, inserted) && |inserted| + 2 < LIMIT
    ensures Shaped(queries[|inserted| + 1 := Query(text, Missing)], first, second, inserted + [text])
  {
  }

  lemma InsertedReceived(queries: map<nat, Query>, first: nat, answered: map<nat, nat>, faulted: map<nat, nat>,
                         log: seq<Attempt>, id: nat, text: string)
    requires Received(queries, first, answered, faulted, log) && id >= first && id !in answered
    ensures Received(queries[id := Query(text, Missing)], first, answered, faulted, log)
  {
  }

  lemma InsertedFlows(v: View, text: string, parses: string -> bool)
    requires Flowing(v, parses)
    ensures Flowing(Inserted(v, text), parses)
  {
    var v' := Inserted(v, text);
    if v.dummy {
      if v.results == [Failure(DummyStatement)] && Faulty(v.first, v.second, v.inserted, parses) {
        var id :| v.first <= id < v.second && Unparsable(id, v.inserted, parses);
        assert Unparsable(id, v'.inserted, parses);
      } else if DummyFirst(v.results, v.first, v.second, v.serial, v.log, v.inserted) {
        AnswersExtend(v.results[1..], v.first, v.second, v.serial, v.log, v.log, v.inserted, v'.inserted);
      }
    } else {
      AnswersExtend(v.results, v.first, v.second, v.serial, v.log, v.log, v.inserted, v'.inserted);
    }
  }

  /** Results may get lost with the connection, from any of them on. */
  function Truncated(v: View, k: nat): View
    requires k <= |v.results|
  {
    v.(results := v.results[..k])
  }

  lemma AnswersTruncated(results: seq<Result>, k: nat, first: nat, second: nat, serial: nat, log: seq<Attempt>,
                         inserted: seq<string>)
    requires Answers(results, first, second, serial, log, inserted) && k <= |results|
    ensures Answers(results[..k], first, second, serial, log, inserted)
  {
  }

  lemma TruncatedSound(v: View, k: nat, parses: string -> bool)
    requires Sound(v, parses) && k <= |v.results|
    ensures Sound(Truncated(v, k), parses)
  {
    SoundMeansClauses(v, parses);
    SoundMeansClauses(Truncated(v, k), parses);
    var v' := Truncated(v, k);
    if !v.dummy {
      AnswersTruncated(v.results, k, v.first, v.second, v.serial, v.log, v.inserted);
    } else if k > 0 {
      if v.results[0].Failure? {
        assert v'.results == v.results;
      } else {
        AnswersTruncated(v.results[1..], k - 1, v.first, v.second, v.serial, v.log, v.inserted);
        assert v'.results[1..] == v.results[1..][..k - 1];
      }
    }
  }

  /** The server says that the batch is over. */
  function Drained(v: View): View {
    v.(busy := false, results := [])
  }

  lemma DrainedSound(v: View, parses: string -> bool)
    requires Sound(v, parses)
    ensures Sound(Drained(v), parses)
  {
    SoundMeansClauses(v, parses);
    SoundMeansClauses(Drained(v), parses);
  }

  /** When no queries are pending there are no results to be read. */
  lemma NothingPending(v: View, parses: string -> bool)
    requires Sound(v, parses) && v.first >= v.second
    ensures !v.dummy && v.results == []
  {
    ClauseHolds(Flow, v, parses);
  }

  /** The batch is over too soon: the oldest pending query is in error, and so are all behind. */
  function CutShort(v: View): View {
    Drained(v).(second := v.first, error := if v.first < v.error then v.first else v.error)
  }

  lemma CutShortSound(v: View, parses: string -> bool)
    requires Sound(v, parses) && !v.dummy && v.first < v.second
    ensures Sound(CutShort(v), parses) && CutShort(v).error < LIMIT
  {
    forall c: Clause ensures Holds(c, CutShort(v), parses) {
      ClauseHolds(c, v, parses);
      ClauseHolds(Shape, v, parses);
      ClauseHolds(Mark, v, parses);
      ClauseHolds(Count, v, parses);
    }
    ClauseHolds(Shape, v, parses);
    ClauseHolds(Mark, v, parses);
  }

  /** A result is read, and is for the oldest pending query. */
  function Read(v: View): View
    requires v.results != [] && v.first in v.queries
  {
    var r := v.results[0];
    v.(queries := v.queries[v.first := v.queries[v.first].(result := r)], first := v.first + 1, results := v.results[1..],
       serial := v.serial + 1, starts := v.starts[v.first := v.start],
       answered := if r.Rows? then v.answered[v.first := v.serial] else v.answered,
       faulted := if r.Rows? then v.faulted else v.faulted[v.first := v.serial])
  }

  lemma OldestPending(v: View, parses: string -> bool)
    requires Sound(v, parses) && v.first <= |v.inserted|
    ensures 1 <= v.first && v.first in v.queries && v.first !in v.answered && v.queries[v.first].text == v.inserted[v.first - 1]
  {
    ClauseHolds(Shape, v, parses);
    ClauseHolds(Attribution, v, parses);
  }

  /** A result that there is to read answers the oldest pending query, or is its failure. */
  lemma OldestResult(v: View, parses: string -> bool)
    requires Sound(v, parses) && !v.dummy && v.results != []
    ensures v.first < v.second && v.first <= |v.inserted| && v.first in v.queries && v.first !in v.answered
    ensures HasNoRows(v.queries[v.first].result)
    ensures || Answer(v.results[0], v.serial, v.first, v.log, v.inserted)
            || (|v.results| == 1 && Failing(v.results[0], v.serial, v.first, v.log, v.inserted))
  {
    ClauseHolds(Flow, v, parses);
    ClauseHolds(Shape, v, parses);
    assert Answers(v.results, v.first, v.second, v.serial, v.log, v.inserted);
    OldestPending(v, parses);
    ClauseHolds(Reception, v, parses);
  }

  lemma ReadSound(v: View, parses: string -> bool)
    requires Sound(v, parses) && !v.dummy && v.results != []
    ensures v.first < v.second && v.first in v.queries && HasNoRows(v.queries[v.first].result)
    ensures Sound(Read(v), parses)
  {
    OldestResult(v, parses);
    if v.results[0].Rows? { ReadRowsSound(v, parses); } else { ReadFailureSound(v, parses); }
  }

  lemma ReadRowsSound(v: View, parses: string -> bool)
    requires Sound(v, parses) && !v.dummy && v.results != [] && v.results[0].Rows?
    requires v.first < v.second && v.first in v.queries && v.first !in v.answered
    requires Answer(v.results[0], v.serial, v.first, v.log, v.inserted)
    ensures Sound(Read(v), parses)
  {
    ClauseHolds(Shape, v, parses);
    forall c: Clause ensures Holds(c, Read(v), parses) {
      ClauseHolds(c, v, parses);
      match c
      case Shape => ShapedNext(v.queries, v.first, v.second, v.second, v.inserted, v.results[0]);
      case Attribution => AnsweredNext(v.answered, v.first, v.serial, v.log, v.inserted);
      case Blame =>
        ClauseHolds(Attribution, v, parses);
        BlamedAnswered(v.answered, v.faulted, v.first, v.serial, v.log, v.inserted);
      case Reception => ReceivedNext(v.queries, v.first, v.answered, v.faulted, v.log, v.log, v.results[0], v.serial);
      case Batching =>
        BatchedNext(v.start, v.first, v.results, v.answered, v.faulted, v.starts, v.serial, v.results[1..]);
      case Flow => ReadFlows(v, parses);
      case _ =>
    }
  }

  lemma ReadFailureSound(v: View, parses: string -> bool)
    requires Sound(v, parses) && !v.dummy && |v.results| == 1
    requires Failing(v.results[0], v.serial, v.first, v.log, v.inserted)
    requires v.first < v.second && v.first in v.queries && v.first !in v.answered
    ensures Sound(Read(v), parses)
  {
    ClauseHolds(Shape, v, parses);
    forall c: Clause ensures Holds(c, Read(v), parses) {
      ClauseHolds(c, v, parses);
      match c
      case Shape => ShapedNext(v.queries, v.first, v.second, v.second, v.inserted, v.results[0]);
      case Attribution =>
        AttributedLater(v.answered, v.first, v.first + 1, v.serial, v.serial + 1, v.log, v.log, v.inserted, v.inserted);
      case Blame =>
        ClauseHolds(Attribution, v, parses);
        BlamedNext(v.answered, v.faulted, v.first, v.serial, v.log, v.inserted);
      case Reception => ReceivedNext(v.queries, v.first, v.answered, v.faulted, v.log, v.log, v.results[0], v.serial);
      case Batching => BatchedFailing(v.start, v.first, v.results, v.answered, v.faulted, v.starts, v.serial);
      case _ =>
    }
  }

  /** Another query is answered, behind all that are. */
  lemma AnsweredNext(answered: map<nat, nat>, first: nat, serial: nat, log: seq<Attempt>, inserted: seq<string>)
    requires Attributed(answered, first, serial, log, inserted) && Executes(serial, first, log, inserted)
    ensures Attributed(answered[first := serial], first + 1, serial + 1, log, inserted)
  {
  }

  lemma BlamedAnswered(answered: map<nat, nat>, faulted: map<nat, nat>, first: nat, serial: nat, log: seq<Attempt>,
                       inserted: seq<string>)
    requires Attributed(answered, first, serial, log, inserted) && Blamed(answered, faulted, first, serial, log, inserted)
    ensures Blamed(answered[first := serial], faulted, first + 1, serial + 1, log, inserted)
  {
  }

  /** Another query failed, behind all that did, or were answered. */
  lemma BlamedNext(answered: map<nat, nat>, faulted: map<nat, nat>, first: nat, serial: nat, log: seq<Attempt>,
                   inserted: seq<string>)
    requires Attributed(answered, first, serial, log, inserted) && Blamed(answered, faulted, first, serial, log, inserted)
    requires Fails(serial, first, log, inserted)
    ensures Blamed(answered, faulted[first := serial], first + 1, serial + 1, log, inserted)
  {
  }

  lemma ShapedNext(queries: map<nat, Query>, first: nat, second: nat, second': nat, inserted: seq<string>, r: Result)
    requires Shaped(queries, first, second, inserted) && first in queries && first < second' <= |inserted| + 1
    ensures Shaped(queries[first := queries[first].(result := r)], first + 1, second', inserted)
  {
  }

  /** The next query's result is received; and more statements may have been attempted. */
  lemma ReceivedNext(queries: map<nat, Query>, first: nat, answered: map<nat, nat>, faulted: map<nat, nat>,
                     log: seq<Attempt>, log': seq<Attempt>, r: Result, serial: nat)
    requires Received(queries, first, answered, faulted, log) && log <= log'
    requires first in queries && first !in answered
    requires if r.Rows? then IsAnswer(r, serial, log') else IsFailure(r, serial)
    ensures Received(queries[first := queries[first].(result := r)], first + 1,
                     if r.Rows? then answered[first := serial] else answered,
                     if r.Rows? then faulted else faulted[first := serial], log')
  {
    ReceivedLater(queries, first, answered, faulted, log, log');
  }

  lemma ReceivedLater(queries: map<nat, Query>, first: nat, answered: map<nat, nat>, faulted: map<nat, nat>,
                      log: seq<Attempt>, log': seq<Attempt>)
    requires Received(queries, first, answered, faulted, log) && log <= log'
    ensures Received(queries, first, answered, faulted, log')
  {
    forall id | id in queries && id in answered ensures IsAnswer(queries[id].result, answered[id], log') {
      assert IsAnswer(queries[id].result, answered[id], log);
    }
  }

  lemma BatchedNext(start: nat, first: nat, results: seq<Result>, answered: map<nat, nat>, faulted: map<nat, nat>,
                    starts: map<nat, nat>, serial: nat, rest: seq<Result>)
    requires Batched(start, first, results, answered, faulted, starts) && first !in answered
    requires results == [] ==> forall id :: start <= id < first ==> id in answered
    ensures Batched(start, first + 1, rest, answered[first := serial], faulted, starts[first := start])
  {
  }

  lemma BatchedFailing(start: nat, first: nat, results: seq<Result>, answered: map<nat, nat>, faulted: map<nat, nat>,
                       starts: map<nat, nat>, serial: nat)
    requires Batched(start, first, results, answered, faulted, starts) && first !in answered
    requires results == [] ==> forall id :: start <= id < first ==> id in answered
    ensures Batched(start, first + 1, [], answered, faulted[first := serial], starts[first := start])
  {
  }

  lemma ReadFlows(v: View, parses: string -> bool)
    requires Flowing(v, parses) && !v.dummy && v.results != [] && v.first in v.queries
    ensures Flowing(Read(v), parses)
  {
    forall k | 0 <= k < |v.results[1..]|
      ensures || Answer(v.results[1..][k], v.serial + 1 + k, v.first + 1 + k, v.log, v.inserted)
              || (&& k == |v.results[1..]| - 1
                  && Failing(v.results[1..][k], v.serial + 1 + k, v.first + 1 + k, v.log, v.inserted))
    {
      assert v.results[1..][k] == v.results[k + 1];
    }
  }

  /** The dummy query's result is read, and is as it should be. */
  function DummyRead(v: View): View
    requires v.results != []
  {
    v.(dummy := false, results := v.results[1..])
  }

  lemma DummyReadSound(v: View, parses: string -> bool)
    requires Sound(v, parses) && v.dummy && v.results != [] && !v.results[0].Failure?
    ensures v.results[0] == Rows(DummyStatement, 1) && Sound(DummyRead(v), parses)
  {
    SoundMeansClauses(v, parses);
    SoundMeansClauses(DummyRead(v), parses);
  }

  /** There is no result even for the dummy: an internal error. */
  function DummyMissing(v: View): View {
    Drained(v).(dummy := false, error := 0)
  }

  lemma DummyMissingSound(v: View, parses: string -> bool)
    requires Sound(v, parses)
    ensures Sound(DummyMissing(v), parses)
  {
    SoundMeansClauses(v, parses);
    SoundMeansClauses(DummyMissing(v), parses);
  }

  function FailRange(queries: map<nat, Query>, a: nat, b: nat): map<nat, Query> {
    map id | id in queries :: if a <= id < b then queries[id].(result := Failure(DummyStatement)) else queries[id]
  }

  lemma FailOneMore(queries: map<nat, Query>, a: nat, b: nat)
    requires a <= b && b in queries
    ensures var failed := FailRange(queries, a, b);
            failed[b := failed[b].(result := Failure(DummyStatement))] == FailRange(queries, a, b + 1)
  {
  }

  /** The dummy failed, and with it the whole batch. */
  function Botched(v: View): View
    requires v.results != []
  {
    v.(dummy := false, results := v.results[1..], queries := FailRange(v.queries, v.first, v.second))
  }

  lemma BotchedSound(v: View, parses: string -> bool)
    requires Sound(v, parses) && v.dummy && v.results != [] && v.results[0].Failure?
    ensures Sound(Botched(v), parses) && Botched(v).results == [] && Faulty(v.first, v.second, v.inserted, parses)
  {
    ClauseHolds(Flow, v, parses);
    ClauseHolds(Attribution, v, parses);
    forall c: Clause ensures Holds(c, Botched(v), parses) {
      ClauseHolds(c, v, parses);
      match c
      case Shape => FailedShape(v.queries, v.first, v.second, v.inserted);
      case Reception => FailedReceived(v.queries, v.first, v.second, v.answered, v.faulted, v.log);
      case _ =>
    }
  }

  lemma FailedShape(queries: map<nat, Query>, first: nat, second: nat, inserted: seq<string>)
    requires Shaped(queries, first, second, inserted)
    ensures Shaped(FailRange(queries, first, second), first, second, inserted)
  {
  }

  lemma FailedReceived(queries: map<nat, Query>, first: nat, second: nat, answered: map<nat, nat>, faulted: map<nat, nat>,
                       log: seq<Attempt>)
    requires Received(queries, first, answered, faulted, log) && forall id :: id in answered ==> id < first
    ensures Received(FailRange(queries, first, second), first, answered, faulted, log)
  {
  }

  /** The batch counts as waiting again. */
  function Rewound(v: View): View {
    v.(waiting := v.waiting + (v.second - v.first), second := v.first)
  }

  lemma RewoundSound(v: View, parses: string -> bool)
    requires Sound(v, parses) && !v.dummy && v.results == [] && !v.busy
    ensures Sound(Rewound(v), parses)
  {
    forall c: Clause ensures Holds(c, Rewound(v), parses) {
      ClauseHolds(c, v, parses);
      ClauseHolds(Shape, v, parses);
      ClauseHolds(Count, v, parses);
    }
  }

  /** All queries of the latest batch are answered that are not pending, or waiting again. */
  ghost predicate BatchAnswered(v: View) {
    forall id :: v.start <= id < v.first ==> id in v.answered
  }

  /** The oldest waiting query is run by itself, and answered. */
  function RunAlone(v: View, text: string, count: nat): View
    requires v.first in v.queries
  {
    var r := Rows(Statement(|v.log|), count);
    v.(queries := v.queries[v.first := v.queries[v.first].(result := r)], first := v.first + 1, second := v.first + 1,
       waiting := v.waiting - 1, log := v.log + [Attempt(text, Succeeded(count))], serial := |v.log| + 1,
       answered := v.answered[v.first := |v.log|],
       starts := v.starts[v.first := v.start])
  }

  lemma RunAloneSound(v: View, count: nat, parses: string -> bool)
    requires Sound(v, parses) && v.first == v.second <= |v.inserted| && !v.dummy && v.results == [] && v.waiting > 0
    requires BatchAnswered(v)
    ensures v.first in v.queries && Sound(RunAlone(v, v.queries[v.first].text, count), parses)
    ensures BatchAnswered(RunAlone(v, v.queries[v.first].text, count))
  {
    OldestPending(v, parses);
    assert BatchAnswered(RunAlone(v, v.queries[v.first].text, count));
    var v' := RunAlone(v, v.queries[v.first].text, count);
    forall c: Clause ensures Holds(c, v', parses) {
      ClauseHolds(c, v, parses);
      match c
      case Attribution =>
        assert Executes(|v.log|, v.first, v'.log, v.inserted);
        AttributedLater(v.answered, v.first, v.first, v.serial, |v.log|, v.log, v'.log, v.inserted, v.inserted);
        AnsweredNext(v.answered, v.first, |v.log|, v'.log, v.inserted);
      case Blame =>
        ClauseHolds(Attribution, v, parses);
        AttributedLater(v.answered, v.first, v.first, v.serial, |v.log|, v.log, v'.log, v.inserted, v.inserted);
        BlamedLater(v.answered, v.faulted, v.first, v.first, v.serial, |v.log|, v.log, v'.log, v.inserted, v.inserted);
        BlamedAnswered(v.answered, v.faulted, v.first, |v.log|, v'.log, v.inserted);
      case Reception =>
        ReceivedNext(v.queries, v.first, v.answered, v.faulted, v.log, v'.log, Rows(Statement(|v.log|), count), |v.log|);
      case Batching => BatchedNext(v.start, v.first, v.results, v.answered, v.faulted, v.starts, |v.log|, []);
      case _ =>
    }
  }

  /** The oldest waiting query is run by itself, and is at fault, or goes unanswered. */
  function Thud(v: View, fate: Fate): View
    requires v.first in v.queries
  {
    v.(first := v.first + 1, second := v.first + 1, waiting := v.waiting - 1,
       error := if v.first + 1 < v.error then v.first + 1 else v.error,
       log := v.log + [Attempt(v.queries[v.first].text, fate)], serial := |v.log| + 1,
       faulted := v.faulted[v.first := |v.log|], starts := v.starts[v.first := v.start])
  }

  lemma ThudSound(v: View, fate: Fate, parses: string -> bool)
    requires Sound(v, parses) && v.first == v.second <= |v.inserted| && !v.dummy && v.results == [] && v.waiting > 0
    requires v.first in v.queries && v.queries[v.first].result == Failure(DummyStatement) && BatchAnswered(v)
    requires !fate.Succeeded?
    ensures Sound(Thud(v, fate), parses)
  {
    OldestPending(v, parses);
    var v' := Thud(v, fate);
    forall c: Clause ensures Holds(c, v', parses) {
      ClauseHolds(c, v, parses);
      match c
      case Attribution =>
        AttributedLater(v.answered, v.first, v.first + 1, v.serial, |v'.log|, v.log, v'.log, v.inserted, v.inserted);
      case Blame =>
        ClauseHolds(Attribution, v, parses);
        AttributedLater(v.answered, v.first, v.first, v.serial, |v.log|, v.log, v'.log, v.inserted, v.inserted);
        BlamedLater(v.answered, v.faulted, v.first, v.first, v.serial, |v.log|, v.log, v'.log, v.inserted, v.inserted);
        BlamedNext(v.answered, v.faulted, v.first, |v.log|, v'.log, v.inserted);
      case Reception =>
        ReceivedNext(v.queries, v.first, v.answered, v.faulted, v.log, v'.log, Failure(DummyStatement), |v.log|);
        assert v.queries[v.first := v.queries[v.first].(result := Failure(DummyStatement))] == v.queries;
      case Batching => BatchedFailing(v.start, v.first, v.results, v.answered, v.faulted, v.starts, |v.log|);
      case _ => ClauseHolds(Shape, v, parses);
    }
  }

  /** All waiting queries are sent to the server. */
  function Issued(v: View, dummy: bool, results: seq<Result>, log: seq<Attempt>): View {
    v.(second := |v.inserted| + 1, waiting := v.waiting - (|v.inserted| + 1 - v.second), dummy := dummy,
       busy := true, results := results, log := log, serial := |v.log|, start := v.second)
  }

  /** The texts of consecutive queries. */
  function Texts(inserted: seq<string>, a: nat): seq<string> {
    if 1 <= a <= |inserted| then inserted[a - 1..] else []
  }

  /** What the server makes of a batch: it cannot parse it; or it executes its statements in
      order, up to the first that fails.  (A lost connection may take away the results later.) */
  ghost predicate BatchResults(dummy: bool, texts: seq<string>, results: seq<Result>, log: seq<Attempt>,
                               log': seq<Attempt>,
                               parses: string -> bool) {
    || (dummy && results == [Failure(DummyStatement)] && log' == log && exists t :: t in texts && !parses(t))
    || (dummy && results != [] && results[0] == Rows(DummyStatement, 1) && Executed(texts, results[1..], log, log'))
    || (!dummy && Executed(texts, results, log, log'))
  }

  ghost predicate Executed(texts: seq<string>, results: seq<Result>, log: seq<Attempt>, log': seq<Attempt>) {
    && |results| <= |texts| && log <= log'
    && (forall k :: 0 <= k < |results| ==>
          && !results[k].Missing? && results[k].origin == Statement(|log| + k) && |log| + k < |log'|
          && log'[|log| + k] == Attempt(texts[k], if results[k].Rows? then Succeeded(results[k].count) else Errored)
          && (results[k].Rows? || k == |results| - 1))
  }

  lemma ExecutedAnswers(results: seq<Result>, first: nat, log: seq<Attempt>, log': seq<Attempt>, inserted: seq<string>)
    requires 1 <= first <= |inserted| + 1 && Executed(Texts(inserted, first), results, log, log')
    ensures Answers(results, first, |inserted| + 1, |log|, log', inserted)
  {
    forall k | 0 <= k < |results|
      ensures || Answer(results[k], |log| + k, first + k, log', inserted)
              || (k == |results| - 1 && Failing(results[k], |log| + k, first + k, log', inserted))
    {
      assert inserted[first + k - 1] == Texts(inserted, first)[k];
    }
  }

  lemma IssuedSound(v: View, dummy: bool, results: seq<Result>, log: seq<Attempt>, parses: string -> bool)
    requires Sound(v, parses) && v.first == v.second <= |v.inserted| && !v.dummy && v.error == LIMIT
    requires dummy ==> |v.inserted| > v.second
    requires BatchResults(dummy, Texts(v.inserted, v.second), results, v.log, log, parses) && v.log <= log
    ensures Sound(Issued(v, dummy, results, log), parses)
  {
    var v' := Issued(v, dummy, results, log);
    forall c: Clause ensures Holds(c, v', parses) {
      ClauseHolds(c, v, parses);
      ClauseHolds(Shape, v, parses);
      match c
      case Count => assert v.waiting == |v.inserted| + 1 - v.second;
      case Attribution =>
        AttributedLater(v.answered, v.first, v.first, v.serial, |v.log|, v.log, log, v.inserted, v.inserted);
      case Blame =>
        ClauseHolds(Attribution, v, parses);
        BlamedLater(v.answered, v.faulted, v.first, v.first, v.serial, |v.log|, v.log, log, v.inserted, v.inserted);
      case Reception => ReceivedLater(v.queries, v.first, v.answered, v.faulted, v.log, log);
      case Flow => IssuedFlows(v, dummy, results, log, parses);
      case _ =>
    }
  }

  lemma IssuedFlows(v: View, dummy: bool, results: seq<Result>, log: seq<Attempt>, parses: string -> bool)
    requires v.first == v.second <= |v.inserted| && v.first >= 1
    requires dummy ==> |v.inserted| > v.second
    requires BatchResults(dummy, Texts(v.inserted, v.second), results, v.log, log, parses)
    ensures Flowing(Issued(v, dummy, results, log), parses)
  {
    var texts := Texts(v.inserted, v.second);
    if dummy && results == [Failure(DummyStatement)] && exists t :: t in texts && !parses(t) {
      var t :| t in texts && !parses(t);
      var k :| 0 <= k < |texts| && texts[k] == t;
      assert Unparsable(v.second + k, v.inserted, parses);
    } else if dummy {
      ExecutedAnswers(results[1..], v.second, v.log, log, v.inserted);
    } else {
      ExecutedAnswers(results, v.second, v.log, log, v.inserted);
    }
  }

  /** A retrieved query is forgotten. */
  function Erased(v: View, id: nat): View {
    v.(queries := v.queries - {id})
  }

  lemma ErasedSound(v: View, id: nat, parses: string -> bool)
    requires Sound(v, parses) && id < v.first
    ensures Sound(Erased(v, id), parses)
  {
    SoundMeansClauses(v, parses);
    SoundMeansClauses(Erased(v, id), parses);
  }

  /** Everything is forgotten, but for an error. */
  function Flushed(v: View): View {
    v.(queries := map[], first := |v.inserted| + 1, second := |v.inserted| + 1, waiting := 0, dummy := false,
       start := |v.inserted| + 1)
  }

  lemma FlushedSound(v: View, parses: string -> bool)
    requires Sound(v, parses) && v.first == v.second && !v.dummy
    ensures Sound(Flushed(v), parses)
  {
    forall c: Clause ensures Holds(c, Flushed(v), parses) {
      ClauseHolds(c, v, parses);
      ClauseHolds(Shape, v, parses);
    }
  }

  // ---------- Positions ----------

  /** The end() iterator. */
  const END := LIMIT + 1

  /** The iterator behind a given one. */
  function Successor(queries: map<nat, Query>, it: nat, last: nat): nat
    decreases last - it
  {
    if it >= last then END else if it + 1 in queries then it + 1 else Successor(queries, it + 1, last)
  }

  lemma {:induction false} OldestQuery(queries: map<nat, Query>, it: nat, last: nat)
    requires forall id :: id in queries ==> it < id <= last
    ensures var oldest := Successor(queries, it, last);
            if queries == map[] then oldest == END else oldest in queries && forall id :: id in queries ==> oldest <= id
    decreases last - it
  {
    if it >= last {
      assert queries.Keys == {};
    } else if it + 1 !in queries {
      OldestQuery(queries, it + 1, last);
    }
  }

  /** The number of queries from one position up to another. */
  function Distance(queries: map<nat, Query>, a: nat, b: nat): nat
    decreases b - a
  {
    if a >= b then 0 else (if a in queries then 1 else 0) + Distance(queries, a + 1, b)
  }

  lemma {:induction false} DistanceContiguous(queries: map<nat, Query>, a: nat, b: nat)
    requires a <= b && forall id :: a <= id < b ==> id in queries
    ensures Distance(queries, a, b) == b - a
    decreases b - a
  {
    if a < b { DistanceContiguous(queries, a + 1, b); }
  }

  datatype Aspect = Queries | History | Range

  /** What receiving may do: more queries are answered or fail, and more statements are attempted; but
      what was answered or failed stays as it is, no query comes or goes, and an error is never forgotten. */
  ghost predicate Keeps(a: Aspect, v: View, v': View) {
    match a
    case Queries =>
      && v'.queries.Keys == v.queries.Keys
      && forall id :: id in v.queries && id < v.first ==> v'.queries[id] == v.queries[id]
    case History =>
      && v'.inserted == v.inserted && v.log <= v'.log
      && Extends(v.answered, v'.answered) && Extends(v.faulted, v'.faulted)
    case Range => v'.first >= v.first && v'.error <= v.error
  }

  ghost predicate Extends(answered: map<nat, nat>, answered': map<nat, nat>) {
    forall id :: id in answered ==> id in answered' && answered'[id] == answered[id]
  }

  ghost predicate Later(v: View, v': View) {
    forall a: Aspect :: Keeps(a, v, v')
  }

  lemma LaterMeans(v: View, v': View)
    ensures Later(v, v') <==> Keeps(Queries, v, v') && Keeps(History, v, v') && Keeps(Range, v, v')
  {
  }

  /** Moreover, no more queries are issued; and without an error the issued range ends where it did. */
  ghost predicate Onward(v: View, v': View) {
    && Later(v, v') && v'.second <= v.second
    && (v'.error >= LIMIT ==> v'.second == v.second && v'.waiting == v.waiting)
  }

  lemma LaterTrans(u: View, v: View, w: View)
    requires Later(u, v) && Later(v, w)
    ensures Later(u, w)
  {
    LaterMeans(u, v);
    LaterMeans(v, w);
  }

  lemma NoErrorBefore(v: View, v': View, parses: string -> bool)
    requires Sound(v, parses) && Later(v, v') && v'.error >= LIMIT
    ensures v.error == LIMIT
  {
    LaterMeans(v, v');
    ClauseHolds(Mark, v, parses);
  }

  lemma OnwardTrans(u: View, v: View, w: View)
    requires Onward(u, v) && Onward(v, w)
    ensures Onward(u, w)
  {
    LaterMeans(v, w);
    LaterTrans(u, v, w);
  }

  lemma OnwardSteps(v: View)
    ensures Onward(v, v) && Onward(v, Drained(v)) && Onward(v, DummyMissing(v))
    ensures v.results != [] ==> Onward(v, DummyRead(v)) && Onward(v, Botched(v))
  {
  }

  lemma OnwardRead(v: View, parses: string -> bool)
    requires Sound(v, parses) && v.results != [] && v.first in v.queries
    ensures Onward(v, Read(v))
  {
    ClauseHolds(Attribution, v, parses);
    ClauseHolds(Blame, v, parses);
  }

  lemma OnwardCutShort(v: View, parses: string -> bool)
    requires Sound(v, parses)
    ensures Onward(v, CutShort(v))
  {
    ClauseHolds(Shape, v, parses);
  }

  lemma OnwardObtained(v: View, v': View, parses: string -> bool)
    requires Sound(v, parses)
    requires (v.results != [] && v.first in v.queries && v' == Read(v)) || v' == CutShort(v) || v' == Drained(v)
    ensures Onward(v, v')
  {
    if v' == Drained(v) {
      OnwardSteps(v);
    } else if v' == CutShort(v) {
      OnwardCutShort(v, parses);
    } else {
      OnwardRead(v, parses);
    }
  }

  lemma LaterIssued(v: View, dummy: bool, results: seq<Result>, log: seq<Attempt>)
    requires v.log <= log
    ensures Later(v, Issued(v, dummy, results, log))
  {
  }

  lemma OnwardTruncated(v: View, k: nat)
    requires k <= |v.results|
    ensures Onward(v, Truncated(v, k))
  {
  }

  /** An error found in the meantime is not before what was received by then. */
  predicate Spares(v: View, v': View) {
    v'.error == v.error || v'.error >= v.first
  }

  lemma SparesTrans(u: View, v: View, w: View)
    requires Later(u, v) && Spares(u, v) && Spares(v, w)
    ensures Spares(u, w)
  {
    LaterMeans(u, v);
  }

  // ---------- Replay ----------

  /** The queries up to stop are those of a batch that failed, one of which is at fault. */
  ghost predicate Failed(v: View, stop: nat, parses: string -> bool) {
    && v.first == v.second <= stop <= |v.inserted| + 1
    && !v.dummy && !v.busy && v.results == []
    && v.waiting >= stop - v.first && BatchAnswered(v)
    && (forall id :: v.first <= id < stop ==> id in v.queries && v.queries[id].result == Failure(DummyStatement))
    && Faulty(v.first, stop, v.inserted, parses)
  }

  lemma RunAloneInBatch(v: View, stop: nat, count: nat, parses: string -> bool)
    requires Sound(v, parses) && Failed(v, stop, parses) && 1 <= v.first < stop && parses(v.inserted[v.first - 1])
    ensures var v' := RunAlone(v, v.queries[v.first].text, count);
            Sound(v', parses) && Failed(v', stop, parses) && Later(v, v')
  {
    RunAloneSound(v, count, parses);
    SoundMeansClauses(v, parses);
    var id :| v.first <= id < stop && Unparsable(id, v.inserted, parses);
    assert id != v.first;
  }

  lemma ThudInBatch(v: View, stop: nat, fate: Fate, parses: string -> bool)
    requires Sound(v, parses) && Failed(v, stop, parses) && v.first < stop && !fate.Succeeded?
    ensures Sound(Thud(v, fate), parses) && Later(v, Thud(v, fate))
  {
    ThudSound(v, fate, parses);
    ClauseHolds(Blame, v, parses);
  }

  /** The part of the state that the replay of a failed batch is about. */
  datatype Window = Window(first: nat, second: nat, waiting: int, error: nat)

  /** Run the queries of a batch one by one, from the j-th on, up to the first that fails; alone
      tells which of them succeed by themselves.  While nothing fails, the end of the issued range
      stays behind at the batch's start. */
  function Replayed(j: nat, start: nat, waiting: int, error: nat, alone: seq<bool>): Window
    requires j <= |alone|
    decreases |alone| - j
  {
    if j == |alone| then Window(start + j, start, waiting, error)
    else if alone[j] then Replayed(j + 1, start, waiting - 1, error, alone)
    else Window(start + j + 1, start + j + 1, waiting - 1, Min(error, start + j + 1))
  }

  lemma {:induction false} ReplayStopsAt(j: nat, start: nat, waiting: int, error: nat, alone: seq<bool>, thud: nat)
    requires j <= thud < |alone| && !alone[thud] && forall k :: j <= k < thud ==> alone[k]
    ensures Replayed(j, start, waiting, error, alone)
            == Window(start + thud + 1, start + thud + 1, waiting - (thud + 1 - j), Min(error, start + thud + 1))
    decreases thud - j
  {
    if j < thud { ReplayStopsAt(j + 1, start, waiting - 1, error, alone, thud); }
  }

  lemma {:induction false} ReplayRunsThrough(j: nat, start: nat, waiting: int, error: nat, alone: seq<bool>)
    requires j <= |alone| && forall k :: j <= k < |alone| ==> alone[k]
    ensures Replayed(j, start, waiting, error, alone) == Window(start + |alone|, start, waiting - (|alone| - j), error)
    decreases |alone| - j
  {
    if j < |alone| { ReplayRunsThrough(j + 1, start, waiting - 1, error, alone); }
  }

  /** The state is what the replay makes of a failed batch, whose queries all count as waiting: some
      query is found at fault, and those before it are answered. */
  ghost predicate ReplayOf(v: View, v': View, alone: seq<bool>) {
    && Window(v'.first, v'.second, v'.waiting, v'.error) == Replayed(0, v.first, v.waiting, v.error, alone)
    && (exists k :: 0 <= k < |alone| && !alone[k])
    && (forall id :: v.first <= id < v'.first ==> (id in v'.answered <==> id + 1 < v'.first))
  }

  /** The replay has got to some query of the batch, and all went well so far. */
  ghost predicate Underway(v: View, w: View, stop: nat, alone: seq<bool>, parses: string -> bool) {
    && Sound(w, parses) && Failed(w, stop, parses) && Later(v, w)
    && |alone| == w.first - v.first && (forall k :: 0 <= k < |alone| ==> alone[k])
    && w.waiting == v.waiting - |alone| && w.error == v.error
    && (forall id :: v.first <= id ==> (id in w.answered <==> id < w.first))
  }

  lemma ReplayStarts(v: View, stop: nat, parses: string -> bool)
    requires Sound(v, parses) && Failed(v, stop, parses)
    ensures Underway(v, v, stop, [], parses)
  {
    SoundMeansClauses(v, parses);
    LaterMeans(v, v);
  }

  lemma ReplayProceeds(v: View, w: View, stop: nat, alone: seq<bool>, count: nat, parses: string -> bool)
    requires Underway(v, w, stop, alone, parses) && 1 <= w.first < stop && parses(w.inserted[w.first - 1])
    ensures Underway(v, RunAlone(w, w.queries[w.first].text, count), stop, alone + [true], parses)
  {
    RunAloneInBatch(w, stop, count, parses);
    LaterTrans(v, w, RunAlone(w, w.queries[w.first].text, count));
  }

  lemma ReplayEnds(v: View, w: View, stop: nat, alone: seq<bool>, fate: Fate,
                   parses: string -> bool) returns (all: seq<bool>)
    requires Underway(v, w, stop, alone, parses) && w.first < stop && !fate.Succeeded?
    ensures var v' := Thud(w, fate); Sound(v', parses) && Later(v, v') && Spares(v, v') && v'.error < LIMIT && v'.first <= stop
    ensures |all| == stop - v.first && ReplayOf(v, Thud(w, fate), all)
  {
    ThudInBatch(w, stop, fate, parses);
    ClauseHolds(Shape, w, parses);
    LaterTrans(v, w, Thud(w, fate));
    all := alone + [false] + seq(stop - w.first - 1, _ => true);
    ReplayStopsAt(0, v.first, v.waiting, v.error, all, |alone|);
    assert !all[|alone|];
  }

  /** After the dummy's failure, and with the batch counted as waiting again. */
  function Forgotten(v: View): View
    requires v.results != []
  {
    Rewound(Drained(Botched(v)))
  }

  lemma ForgottenFails(v: View, parses: string -> bool)
    requires Sound(v, parses) && v.dummy && v.results != [] && v.results[0].Failure?
    ensures Later(v, Drained(Botched(v)))
    ensures Sound(Forgotten(v), parses) && Failed(Forgotten(v), v.second, parses) && Later(v, Forgotten(v))
    ensures forall id :: v.first <= id < v.second ==> id in Botched(v).queries
  {
    BotchedSound(v, parses);
    DrainedSound(Botched(v), parses);
    RewoundSound(Drained(Botched(v)), parses);
    SoundMeansClauses(v, parses);
    SoundMeansClauses(Forgotten(v), parses);
  }

  /** The replay leaves the pipeline in shape, and counts the waiting queries right, exactly if
      some query of the batch fails by itself.  If all succeed - the dummy having failed for
      another reason than the server's not parsing the batch - then the issued range ends before
      it begins. */
  lemma ReplayInShapeExactlyWhen(start: nat, behind: nat, error: nat, alone: seq<bool>)
    requires alone != []
    ensures var w := Replayed(0, start, |alone| + behind, error, alone);
            && (w.first <= w.second <==> exists k :: 0 <= k < |alone| && !alone[k])
            && (w.waiting == start + |alone| + behind - w.second <==> exists k :: 0 <= k < |alone| && !alone[k])
  {
    if k :| 0 <= k < |alone| && !alone[k] {
      var thud := FirstFailure(alone, k);
      ReplayStopsAt(0, start, |alone| + behind, error, alone, thud);
    } else {
      ReplayRunsThrough(0, start, |alone| + behind, error, alone);
    }
  }

  lemma {:induction false} FirstFailure(alone: seq<bool>, k: nat) returns (thud: nat)
    requires k < |alone| && !alone[k]
    ensures thud <= k && !alone[thud] && forall j :: 0 <= j < thud ==> alone[j]
    decreases k
  {
    if j :| 0 <= j < k && !alone[j] {
      thud := FirstFailure(alone, j);
    } else {
      thud := k;
    }
  }

  // ---------- Failures within a batch ----------

  /** The query is pending, and one before it in its batch failed. */
  ghost predicate BehindFailure(v: View, q: nat) {
    v.first <= q < v.second && exists failed :: v.start <= failed < v.first && failed !in v.answered
  }

  /** Queries are pending that will get no results any more. */
  predicate Stalled(v: View) {
    !v.dummy && v.results == [] && v.first < v.second
  }

  /** A query of the latest batch failed while others were pending behind it: then these will get
      no results any more, and the next attempt to read one puts the error right behind it. */
  lemma FailureStopsBatch(v: View, q: nat, parses: string -> bool)
    requires Sound(v, parses) && BehindFailure(v, q)
    ensures Stalled(v) && v.first > v.start && v.first - 1 in v.faulted
    ensures CutShort(v).error == Min(v.error, v.first) <= q
  {
    ClauseHolds(Batching, v, parses);
    ClauseHolds(Flow, v, parses);
  }

  /** No query is answered, or fails, behind one of the same batch that is not answered; and
      different queries are answered, or fail, by different statements, in their order. */
  lemma AnsweredInOrder(v: View, i: nat, j: nat, parses: string -> bool)
    requires Sound(v, parses) && i < j && (j in v.answered || j in v.faulted)
    ensures j in v.starts && (v.starts[j] <= i ==> i in v.answered)
    ensures i in v.answered || i in v.faulted ==> SettledBy(v, i) < SettledBy(v, j)
  {
    ClauseHolds(Attribution, v, parses);
    ClauseHolds(Blame, v, parses);
    ClauseHolds(Batching, v, parses);
  }

  /** The statement that answered a query, or was its failure. */
  ghost function SettledBy(v: View, id: nat): nat
    requires id in v.answered || id in v.faulted
  {
    if id in v.answered then v.answered[id] else v.faulted[id]
  }

  /** Once there was an error no query waiting now, or inserted later, can be retrieved: its id is
      not below the error.  (Nothing ever forgets an error, see Later and Flushed.) */
  lemma ErrorRefuses(v: View, text: string, id: nat, parses: string -> bool)
    requires Sound(v, parses) && v.error < LIMIT
    requires id == |v.inserted| + 1 || v.second <= id <= |v.inserted|
    ensures Inserted(v, text).error == Flushed(v).error == v.error <= id
  {
    ClauseHolds(Mark, v, parses);
    ClauseHolds(Shape, v, parses);
  }

  /** For instance: a query is sent, and the connection lost before its result is read; everything is
      flushed; and another query is inserted. */
  ghost function FlushRun(log: seq<Attempt>, a: string, b: string): View {
    var start := View(map[], 1, 1, 0, false, LIMIT, false, [], log, |log|, [], map[], map[], 1, map[]);
    var issued := Issued(Inserted(start, a), false, [], log + [Attempt(a, Succeeded(0))]);
    Inserted(Flushed(CutShort(issued)), b)
  }

  /** Then the query inserted last is there, and all is in order; but the error is still set, at the
      first query, so that no query can be retrieved ever after (see Retrieve). */
  lemma FlushDoesNotClear(log: seq<Attempt>, a: string, b: string, parses: string -> bool)
    ensures var v := FlushRun(log, a, b);
            Sound(v, parses) && v.queries == map[2 := Query(b, Missing)] && v.error == 1
  {
    var start := View(map[], 1, 1, 0, false, LIMIT, false, [], log, |log|, [], map[], map[], 1, map[]);
    SoundMeansClauses(start, parses);
    InsertedSound(start, a, parses);
    var inserted := Inserted(start, a);
    var log' := log + [Attempt(a, Succeeded(0))];
    assert Texts(inserted.inserted, 1) == [a];
    assert Executed([a], [], log, log');
    IssuedSound(inserted, false, [], log', parses);
    var issued := Issued(inserted, false, [], log');
    CutShortSound(issued, parses);
    FlushedSound(CutShort(issued), parses);
    InsertedSound(Flushed(CutShort(issued)), b, parses);
  }

  // ---------- Histories ----------

  /** What the user sees: a query got an id; a query's answer came from a statement; or there was
      the query's failure instead. */
  datatype Event = Entered(id: nat, text: string) | Answered(id: nat, serial: nat, count: nat) | Refused(id: nat)

  ghost predicate Grown(v: View, v': View) {
    && v.inserted <= v'.inserted && v.log <= v'.log && Extends(v.answered, v'.answered) && Extends(v.faulted, v'.faulted)
    && (forall id :: id in v'.queries ==> id in v.queries || id > |v.inserted|)
  }

  lemma GrownMeans(v: View, v': View)
    ensures Later(v, v') ==> Grown(v, v')
    ensures forall text :: Later(Inserted(v, text), v') ==> Grown(v, v') && v'.inserted == v.inserted + [text]
    ensures forall id :: Later(Erased(v, id), v') ==> Grown(v, v') && id !in v'.queries
  {
    LaterMeans(v, v');
    forall text | Later(Inserted(v, text), v') ensures Grown(v, v') && v'.inserted == v.inserted + [text] {
      LaterMeans(Inserted(v, text), v');
    }
    forall id | Later(Erased(v, id), v') ensures Grown(v, v') && id !in v'.queries {
      LaterMeans(Erased(v, id), v');
      assert id !in Erased(v, id).queries;
    }
  }

  /** The event agrees with the state; a query that was answered or refused is gone. */
  predicate Agrees(e: Event, v: View) {
    match e
    case Entered(id, text) => 1 <= id <= |v.inserted| && v.inserted[id - 1] == text
    case Answered(id, serial, count) =>
      && id <= |v.inserted| && id in v.answered && v.answered[id] == serial && id !in v.queries
      && serial < |v.log| && v.log[serial].fate == Succeeded(count)
    case Refused(id) => id <= |v.inserted| && id in v.faulted && id !in v.queries
  }

  ghost predicate Told(trace: seq<Event>, v: View) {
    && (forall k :: 0 <= k < |trace| ==> Agrees(trace[k], v))
    && (forall j, k :: 0 <= j < k < |trace| && !trace[j].Entered? && !trace[k].Entered? ==> trace[j].id != trace[k].id)
  }

  /** The texts of the queries that were entered. */
  function Entries(trace: seq<Event>): seq<string> {
    if trace == [] then []
    else (if trace[0].Entered? then [trace[0].text] else []) + Entries(trace[1..])
  }

  lemma {:induction false} EntriesNext(trace: seq<Event>, events: seq<Event>)
    ensures Entries(trace + events) == Entries(trace) + Entries(events)
  {
    if trace == [] {
      assert trace + events == events;
    } else {
      EntriesNext(trace[1..], events);
      assert (trace + events)[1..] == trace[1..] + events;
    }
  }

  /** The query's answer, or its failure, was told. */
  ghost predicate Mentions(trace: seq<Event>, id: nat) {
    exists e :: e in trace && !e.Entered? && e.id == id
  }

  /** A query that was there before, or was inserted since, is there, or its answer or failure was told. */
  ghost predicate Unforgotten(v: View, v': View, trace: seq<Event>) {
    forall id :: id in v.queries || |v.inserted| < id <= |v'.inserted| ==> id in v'.queries || Mentions(trace, id)
  }

  lemma UnforgottenNext(u: View, v: View, v': View, trace: seq<Event>, events: seq<Event>)
    requires Unforgotten(u, v, trace) && Unforgotten(v, v', events)
    ensures Unforgotten(u, v', trace + events)
  {
    forall id | id in u.queries || |u.inserted| < id <= |v'.inserted| ensures id in v'.queries || Mentions(trace + events, id) {
      if Mentions(trace, id) {
        var e :| e in trace && !e.Entered? && e.id == id;
        assert e in trace + events;
      } else if Mentions(events, id) {
        var e :| e in events && !e.Entered? && e.id == id;
        assert e in trace + events;
      }
    }
  }

  lemma InsertionTold(text: string, v: View, v': View, events: seq<Event>)
    requires if events == [] then Later(v, v') else Later(Inserted(v, text), v')
    requires events == [] || events == [Entered(|v.inserted| + 1, text)]
    ensures Unforgotten(v, v', events) && v'.inserted == v.inserted + Entries(events)
  {
    LaterMeans(Inserted(v, text), v');
    LaterMeans(v, v');
    assert forall id :: id in v.queries ==> id in Inserted(v, text).queries;
  }

  /** A query whose result was retrieved is told of; others stay. */
  lemma RetrievalTold(id: nat, v: View, v': View, events: seq<Event>)
    requires if events == [] then Later(v, v') else Later(Erased(v, id), v')
    requires events == [] || (|events| == 1 && !events[0].Entered? && events[0].id == id)
    ensures Unforgotten(v, v', events) && v'.inserted == v.inserted + Entries(events)
  {
    LaterMeans(v, v');
    LaterMeans(Erased(v, id), v');
    if events != [] {
      assert events[0] in events;
    }
  }

  /** An answer is told while the query is still there, and then it is gone. */
  lemma ToldNext(trace: seq<Event>, v: View, v': View, events: seq<Event>)
    requires Told(trace, v) && Grown(v, v') && |events| <= 1
    requires forall e :: e in events ==> Agrees(e, v') && (!e.Entered? ==> e.id in v.queries)
    ensures Told(trace + events, v')
  {
    var all := trace + events;
    forall k | 0 <= k < |all| ensures Agrees(all[k], v') {
      if k < |trace| {
        assert Agrees(trace[k], v);
      } else {
        assert all[k] in events;
      }
    }
    forall j, k | 0 <= j < k < |all| && !all[j].Entered? && !all[k].Entered? ensures all[j].id != all[k].id {
      assert Agrees(trace[j], v);
      if k == |trace| {
        assert all[k] in events;
      }
    }
  }

  /** The query was answered by the statement told, or failed. */
  ghost predicate TruthIs(e: Event, text: string, v: View) {
    match e
    case Entered(_, _) => true
    case Answered(_, serial, count) => serial < |v.log| && v.log[serial] == Attempt(text, Succeeded(count))
    case Refused(id) =>
      && id in v.faulted && v.faulted[id] < |v.log|
      && v.log[v.faulted[id]].text == text && !v.log[v.faulted[id]].fate.Succeeded?
  }

  lemma ToldIsTrue(e: Event, text: string, v: View, parses: string -> bool)
    requires Sound(v, parses) && Agrees(e, v) && Agrees(Entered(e.id, text), v)
    ensures TruthIs(e, text, v)
  {
    ClauseHolds(Attribution, v, parses);
    ClauseHolds(Blame, v, parses);
  }

  /** What is told to the user is true: an answer under some id is what a statement returned that is the
      text entered under that id, and a failure comes from one that is that text and did not succeed;
      each is told once; they come from different statements, in the order in which the queries
      were entered; and what is told of a query behind one that failed is of a later batch. */
  lemma ToldMeans(trace: seq<Event>, v: View, parses: string -> bool)
    requires Told(trace, v) && Sound(v, parses)
    ensures forall j, k :: 0 <= j < |trace| && 0 <= k < |trace| && trace[j].Entered? && trace[j].id == trace[k].id ==>
              TruthIs(trace[k], trace[j].text, v)
    ensures forall k :: 0 <= k < |trace| && !trace[k].Entered? ==> trace[k].id in v.answered || trace[k].id in v.faulted
    ensures forall k :: 0 <= k < |trace| && trace[k].Answered? ==> SettledBy(v, trace[k].id) == trace[k].serial
    ensures forall j, k :: 0 <= j < |trace| && 0 <= k < |trace| && !trace[j].Entered? && !trace[k].Entered? ==>
              && (j != k ==> trace[j].id != trace[k].id)
              && (trace[j].id < trace[k].id ==>
                    && SettledBy(v, trace[j].id) < SettledBy(v, trace[k].id)
                    && (trace[j].Refused? ==> trace[k].id in v.starts && trace[j].id < v.starts[trace[k].id]))
  {
    forall j, k | 0 <= j < |trace| && 0 <= k < |trace| && trace[j].Entered? && trace[j].id == trace[k].id
      ensures TruthIs(trace[k], trace[j].text, v)
    {
      assert Agrees(trace[j], v) && Agrees(trace[k], v);
      ToldIsTrue(trace[k], trace[j].text, v, parses);
    }
    forall k | 0 <= k < |trace| ensures Agrees(trace[k], v) {
    }
    forall j, k | 0 <= j < |trace| && 0 <= k < |trace| && !trace[j].Entered? && !trace[k].Entered? && trace[j].id < trace[k].id
      ensures SettledBy(v, trace[j].id) < SettledBy(v, trace[k].id)
      ensures trace[j].Refused? ==> trace[k].id in v.starts && trace[j].id < v.starts[trace[k].id]
    {
      assert Agrees(trace[j], v) && Agrees(trace[k], v) && Holds(Blame, v, parses);
      AnsweredInOrder(v, trace[j].id, trace[k].id, parses);
    }
  }
}
