/** A pipeline of queries: they are sent in batches, and their results come in at any time.

    A batch of several queries starts with a dummy query.  If the server cannot parse the batch
    it executes nothing, and already the dummy fails; then the queries are run one by one, to find
    out which of them is at fault. */
module Pipelines {
  import opened Basics
  import opened PipelineStates

  // ---------- The server ----------

  datatype Got = Got(result: Result) | NoResult | NoConnection

  /** The server, with the connection to it.  It may be slow, and the connection may be lost at
      any time; then the results not read so far are lost with it. */
  class Backend {
    const parses: string -> bool
    var busy: bool
    var results: seq<Result>
    var log: seq<Attempt>

    /** How often it was not to be reached, or results were lost. */
    ghost var troubles: nat

    /** How often the client took in what had arrived. */
    ghost var looks: nat

    constructor (parses: string -> bool)
      ensures this.parses == parses && !busy && results == [] && log == []
    {
      this.parses := parses;
      busy, results, log, troubles, looks := false, [], [], 0, 0;
    }

    /** Send a batch.  The server must be through with the one before. */
    method StartExec(dummy: bool, texts: seq<string>) returns (sent: bool)
      requires !busy && texts != [] && (dummy <==> |texts| > 1)
      modifies this
      ensures !sent ==> !busy && results == old(results) && log == old(log)
      ensures troubles == old(troubles) + (if sent then 0 else 1) && looks == old(looks)
      ensures sent ==> busy && old(log) <= log && BatchResults(dummy, texts, results, old(log), log, parses)
    {
      sent := *;
      if !sent {
        troubles := troubles + 1;
        return;
      }
      busy := true;
      if t :| dummy && t in texts && !parses(t) {
        results := [Failure(DummyStatement)];
        return;
      }
      ghost var before := log;
      var answers: seq<Result> := [];
      var k := 0;
      var failed := false;
      while k < |texts| && !failed
        invariant 0 <= k <= |texts| && before <= log && busy && troubles == old(troubles) && looks == old(looks)
        invariant |log| == |before| + k && |answers| == k
        invariant forall j :: 0 <= j < k ==>
                    && !answers[j].Missing? && answers[j].origin == Statement(|before| + j)
                    && log[|before| + j] == Attempt(texts[j], if answers[j].Rows? then Succeeded(answers[j].count) else Errored)
                    && (answers[j].Rows? || (failed && j == k - 1))
      {
        failed := *;
        failed := failed || !parses(texts[k]);
        var count: nat := *;
        answers := answers + [if failed then Failure(Statement(|log|)) else Rows(Statement(|log|), count)];
        log := log + [Attempt(texts[k], if failed then Errored else Succeeded(count))];
        k := k + 1;
      }
      results := if dummy then [Rows(DummyStatement, 1)] + answers else answers;
      assert dummy ==> results[1..] == answers;
      assert Executed(texts, answers, before, log);
    }

    /** Wait for the next result of the batch, or its end. */
    method GetResult() returns (g: Got)
      modifies this`busy, this`results, this`troubles
      ensures troubles == old(troubles) + if g.NoConnection? || (g.NoResult? && old(results) != []) then 1 else 0
      ensures g.Got? ==> old(results) != [] && g.result == old(results)[0] && results == old(results)[1..] && busy == old(busy)
      ensures !g.Got? ==> !busy && results == []
    {
      var lost: bool := *;
      if lost || results == [] {
        var usable: bool := *;
        troubles := troubles + if usable && results == [] then 0 else 1;
        busy, results := false, [];
        return if usable then NoResult else NoConnection;
      }
      g := Got(results[0]);
      results := results[1..];
    }

    /** Would waiting for a result take time? */
    method IsBusy() returns (b: bool)
      ensures b ==> busy
    {
      b := *;
      b := b && busy;
    }

    method ConsumeInput() returns (ok: bool)
      modifies this`results, this`troubles, this`looks
      ensures looks == old(looks) + 1 && troubles == old(troubles) + (if ok then 0 else 1) && (ok ==> results == old(results))
      ensures exists k :: 0 <= k <= |old(results)| && results == old(results)[..k]
    {
      looks := looks + 1;
      ok := *;
      var k := |results|;
      if !ok {
        k := *;
        if k < 0 || k > |results| {
          k := 0;
        }
        troubles := troubles + 1;
      }
      results := results[..k];
    }

    /** Execute one statement by itself.  One that cannot be parsed fails; so may any other; and the
        connection may be lost, before or after the statement was executed. */
    method ExecAlone(text: string) returns (r: Result, ghost fate: Fate)
      requires !busy
      modifies this`log
      ensures log == old(log) + [Attempt(text, fate)] && (parses(text) || !fate.Succeeded?)
      ensures if fate.Succeeded? then r == Rows(Statement(|old(log)|), fate.count) else r.Failure?
    {
      var answered: bool, fails: bool := *, *;
      var count: nat := *;
      var actual := if !answered then Unanswered else if fails || !parses(text) then Errored else Succeeded(count);
      r := if actual.Succeeded? then Rows(Statement(|log|), count) else Failure(Statement(|log|));
      log := log + [Attempt(text, actual)];
      fate := actual;
    }
  }

  // ---------- The pipeline ----------

  datatype Why =
    | FocusTaken
    | Broken
    | SendFailed
    | InternalError
    | TooManyResults
    | MultipleResults
    | UnknownQuery
    | EmptyPipeline
    | EarlierError
    | SqlError
    | NegativeRetain

  datatype Outcome = Done | Thrown(why: Why)

  /** What may happen on the connection. */
  const TROUBLE := {Done, Thrown(Broken), Thrown(InternalError), Thrown(SendFailed)}

  /** What the pipeline did so far, for the sake of specification. */
  datatype Past = Past(
    serial: nat,
    inserted: seq<string>,
    answered: map<nat, nat>,
    faulted: map<nat, nat>,
    start: nat,
    starts: map<nat, nat>)

  /** A query was answered, or failed. */
  function Noted(p: Past, id: nat, r: Result): Past {
    var q := p.(serial := p.serial + 1, starts := p.starts[id := p.start]);
    if r.Rows? then q.(answered := p.answered[id := p.serial]) else q.(faulted := p.faulted[id := p.serial])
  }

  class Pipeline {
    const backend: Backend

    var queries: map<nat, Query>
    var first: nat            // the issued range, as iterators
    var second: nat
    var retainMax: int
    var numWaiting: int
    var lastId: nat
    var dummyPending: bool
    var error: nat
    var registered: bool

    ghost var past: Past

    function Position(it: nat): nat
      reads this`lastId
    {
      if it == END then lastId + 1 else it
    }

    ghost function V(): View
      reads this, backend
    {
      View(queries, Position(first), Position(second), numWaiting, dummyPending, error,
           backend.busy, backend.results, backend.log, past.serial, past.inserted, past.answered, past.faulted,
           past.start, past.starts)
    }

    ghost predicate Valid()
      reads this, backend
    {
      && Sound(V(), backend.parses)
      && lastId == |past.inserted| && retainMax >= 0
      && (first == END || first <= lastId) && (second == END || second <= lastId)
    }

    constructor (backend: Backend)
      requires !backend.busy && backend.results == []
      ensures Valid() && this.backend == backend && past.inserted == [] && error == LIMIT
    {
      this.backend := backend;
      queries, first, second := map[], END, END;
      retainMax, numWaiting, lastId := 0, 0, 0;
      dummyPending, error, registered := false, LIMIT, true;
      past := Past(|backend.log|, [], map[], map[], 1, map[]);
    }

    predicate HavePending()
      reads this
    {
      first != second
    }

    /** What is pending is being waited for: if the server is through then all its results are in. */
    predicate Attended()
      reads this, backend
    {
      HavePending() ==> backend.busy
    }

    /** The dummy's result is due, but was lost. */
    ghost predicate Dummyless()
      reads this, backend
    {
      dummyPending && backend.results == []
    }

    /** Nothing is thrown without cause: the server was not to be reached, or results were lost.  Only
        for a lost result of the dummy there is an exception later, when it is due; and then the pipeline
        cannot be used any more. */
    ghost predicate Excused(o: Outcome, troubles: nat, dummyless: bool)
      reads this`error, backend
    {
      && troubles <= backend.troubles
      && (o in {Thrown(Broken), Thrown(SendFailed)} ==> troubles < backend.troubles)
      && (o == Thrown(InternalError) ==> error == 0 && (troubles < backend.troubles || dummyless))
    }

    /** The iterators are different exactly if their positions are; and a pending query is there. */
    lemma PendingPositions()
      requires Valid()
      ensures HavePending() <==> V().first < V().second
      ensures HavePending() ==> first != END && first == V().first && first in queries
      ensures HavePending() ==> var next := Successor(queries, first, lastId);
                                Position(next) == first + 1 && (next == END || next <= lastId)
    {
      SoundMeansClauses(V(), backend.parses);
    }

    method SetErrorAt(id: nat)
      modifies this`error
      ensures error == Min(id, old(error))
    {
      if id < error {
        error := id;
      }
    }

    /** There is no result where one was due: the oldest pending query is in error. */
    method NoneForPending()
      requires first != END
      modifies this`error, this`second
      ensures error == Min(first, old(error)) && second == first
    {
      SetErrorAt(first);
      second := first;
    }

    /** The result is for the oldest pending query. */
    method SetResult(r: Result)
      requires first in queries && lastId == |past.inserted|
      modifies this`queries, this`first, this`past
      ensures queries == old(queries)[old(first) := old(queries[first]).(result := r)]
      ensures first == Successor(old(queries), old(first), lastId)
      ensures past == Noted(old(past), old(first), r)
    {
      var here := first;
      first := Successor(queries, here, lastId);
      queries := queries[here := queries[here].(result := r)];
      past := Noted(past, here, r);
    }

    /** Read one result, if there is any, for the oldest pending query. */
    method ObtainResult(expectNone: bool) returns (got: bool, o: Outcome)
      requires Valid() && !dummyPending
      requires expectNone ==> backend.results == []
      modifies this`queries, this`first, this`second, this`error, this`past
      modifies backend`busy, backend`results, backend`troubles
      ensures backend.troubles == old(backend.troubles) + if o != Done || (!got && old(backend.results) != []) then 1 else 0
      ensures Valid()
      ensures o == Done || o == Thrown(Broken)
      ensures got ==> o == Done && old(backend.results) != [] && old(V().first) in old(queries) && V() == Read(old(V()))
      ensures !got ==> V() == if o == Done && old(HavePending()) && !expectNone then CutShort(old(V())) else Drained(old(V()))
    {
      ghost var v := V();
      ghost var parses := backend.parses;
      DrainedSound(v, parses);
      PendingPositions();
      var g := backend.GetResult();
      match g {
        case NoConnection => return false, Thrown(Broken);
        case NoResult =>
          if HavePending() && !expectNone {
            CutShortSound(v, parses);
            NoneForPending();
            assert V() == CutShort(v);
          }
          return false, Done;
        case Got(r) =>
          StoreResult(r, v);
          return true, Done;
      }
    }

    /** The result that was read is stored. */
    method StoreResult(r: Result, ghost v: View)
      requires Sound(v, backend.parses) && !v.dummy && v.results != [] && r == v.results[0]
      requires V() == v.(results := v.results[1..]) && lastId == |past.inserted| && retainMax >= 0
      requires (first == END || first <= lastId) && (second == END || second <= lastId)
      modifies this`queries, this`first, this`past
      ensures Valid() && v.first in v.queries && V() == Read(v)
    {
      ReadSound(v, backend.parses);
      SoundMeansClauses(v, backend.parses);
      // There cannot be more results than there were queries, nor several for one query.
      if !HavePending() || !HasNoRows(queries[first].result) {
        assert false;
      }
      SetResult(r);
      assert V() == Read(v);
    }

    /** The queries of the issued range get the batch's error for a result. */
    method FailPending()
      requires Position(first) <= Position(second) <= lastId + 1 && lastId < LIMIT
      requires (first == END || first <= lastId) && (second == END || second <= lastId)
      requires forall id :: Position(first) <= id <= lastId ==> id in queries
      modifies this`queries
      ensures queries == FailRange(old(queries), old(Position(first)), old(Position(second)))
    {
      ghost var a, b := Position(first), Position(second);
      ghost var before := queries;
      var i: nat := first;
      assert queries == FailRange(before, a, a);
      while i != second
        invariant i == END || i <= lastId
        invariant a <= Position(i) <= b
        invariant queries == FailRange(before, a, Position(i))
        decreases b - Position(i)
      {
        FailOneMore(before, a, i);
        queries := queries[i := queries[i].(result := Failure(DummyStatement))];
        i := Successor(queries, i, lastId);
      }
    }

    /** The state, with the end of the issued range drawn back to its beginning. */
    ghost function Replaying(): View
      reads this, backend
    {
      V().(second := V().first)
    }

    /** The query is the one at fault: stop behind it. */
    method StopBehind()
      requires first in queries && first <= lastId == |past.inserted|
      modifies this`first, this`second, this`error
      ensures first == second == Successor(queries, old(first), lastId)
      ensures error == Min(if first == END then old(first) + 1 else first, old(error))
    {
      var thud := first;
      first := Successor(queries, first, lastId);
      second := first;
      SetErrorAt(if first == END then thud + 1 else first);
    }

    /** Run the oldest query of a failed batch by itself. */
    method RunOne(ghost stop: nat) returns (ok: bool, ghost count: nat, ghost fate: Fate)
      requires Sound(Replaying(), backend.parses) && Failed(Replaying(), stop, backend.parses)
      requires lastId == |past.inserted| && first <= lastId && V().first < stop
      modifies this`queries, this`first, this`second, this`numWaiting, this`error, this`past, backend`log
      ensures var v := old(Replaying());
              && 1 <= v.first <= |v.inserted| && v.first in v.queries
              && (if ok
                  then backend.parses(v.inserted[v.first - 1]) && Replaying() == RunAlone(v, v.queries[v.first].text, count)
                  else !fate.Succeeded? && V() == Thud(v, fate))
      ensures first == END || first <= lastId
      ensures second == if ok then old(second) else first
    {
      ghost var v := Replaying();
      ReplayingPosition();
      count := 0;
      numWaiting := numWaiting - 1;
      var text := queries[first].text;
      var r;
      r, fate := backend.ExecAlone(text);
      past := past.(serial := |v.log|);
      ok := r.Rows?;
      if ok {
        count := r.count;
        SetResult(r);
      } else {
        Accuse(r, v, fate);
      }
    }

    /** The query that was run by itself did not succeed. */
    method Accuse(r: Result, ghost v: View, ghost fate: Fate)
      requires r.Failure? && first == v.first && v.first in v.queries && first <= lastId == |past.inserted|
      requires var next := Successor(queries, first, lastId); Position(next) == first + 1 && (next == END || next <= lastId)
      requires Replaying() == v.(waiting := v.waiting - 1, serial := |v.log|,
                                 log := v.log + [Attempt(v.queries[v.first].text, fate)])
      modifies this`first, this`second, this`error, this`past
      ensures V() == Thud(v, fate) && second == first && (first == END || first <= lastId)
    {
      past := Noted(past, first, r);
      StopBehind();
    }

    lemma ReplayingPosition()
      requires Sound(Replaying(), backend.parses) && lastId == |past.inserted| && first <= lastId
      ensures 1 <= first == Replaying().first && first in queries && queries[first].text == past.inserted[first - 1]
      ensures var next := Successor(queries, first, lastId);
              Position(next) == first + 1 && (next == END || next <= lastId)
    {
      SoundMeansClauses(Replaying(), backend.parses);
    }

    /** Run the queries of a failed batch one by one, until the one at fault fails. */
    method Replay(stop: nat, ghost v: View) returns (ghost alone: seq<bool>)
      requires Valid() && V() == v && (stop == END || stop <= lastId)
      requires Failed(v, Position(stop), backend.parses)
      modifies this`queries, this`first, this`second, this`numWaiting, this`error, this`past, backend`log
      ensures Valid() && Later(v, V()) && !HavePending() && error < LIMIT && V().first <= Position(stop)
      ensures Spares(v, V())
      ensures |alone| == Position(stop) - v.first && ReplayOf(v, V(), alone)
    {
      ghost var parses, end := backend.parses, Position(stop);
      ghost var w := v;
      alone := [];
      ReplayStarts(v, end, parses);
      while first != stop
        invariant Replaying() == w && Underway(v, w, end, alone, parses)
        invariant (first == END || first <= lastId) && lastId == |w.inserted|
        decreases end - w.first
      {
        var ok, count, fate := RunOne(end);
        if !ok {
          alone := ReplayEnds(v, w, end, alone, fate, parses);
          return;
        }
        ReplayProceeds(v, w, end, alone, count, parses);
        w, alone := Replaying(), alone + [true];
      }
      assert false;
    }

    /** Read the dummy's result, without looking at it. */
    method FetchDummy() returns (g: Got, o: Outcome)
      requires Valid() && dummyPending
      modifies this`dummyPending, this`error, backend`busy, backend`results, backend`troubles
      ensures Excused(o, old(backend.troubles), old(Dummyless()))
      ensures g.Got? ==>
                && o == Done && old(backend.results) != [] && g.result == old(backend.results)[0]
                && V() == old(V()).(dummy := false, results := old(backend.results)[1..])
      ensures !g.Got? ==>
                || (o == Thrown(Broken) && V() == Drained(old(V())))
                || (o == Thrown(InternalError) && V() == DummyMissing(old(V())))
    {
      g := backend.GetResult();
      if g.NoConnection? {
        return g, Thrown(Broken);
      }
      dummyPending := false;
      if g.NoResult? {
        error := 0;
        return g, Thrown(InternalError);
      }
      o := Done;
    }

    /** Read the dummy's result.  If it is an error then the batch is replayed, query by query; alone
        then tells which of the queries were tried, and with what success. */
    method ObtainDummy() returns (o: Outcome, ghost alone: seq<bool>)
      requires Valid() && dummyPending
      modifies this`queries, this`first, this`second, this`numWaiting, this`dummyPending, this`error, this`registered
      modifies this`past, backend
      ensures backend.looks >= old(backend.looks)
      ensures Excused(o, old(backend.troubles), old(Dummyless()))
      ensures Valid() && Onward(old(V()), V())
      ensures o in {Done, Thrown(Broken), Thrown(InternalError)} && (o == Done ==> !dummyPending)
      ensures o == Done ==> old(backend.results) != [] && Spares(old(V()), V())
      ensures o == Done && alone == [] ==> V() == DummyRead(old(V()))
      ensures o == Done && alone != [] ==>
                && !HavePending() && !registered && |alone| == old(V().second - V().first) && ReplayOf(Forgotten(old(V())), V(), alone)
    {
      ghost var v := V();
      alone := [];
      OnwardSteps(v);
      DrainedSound(v, backend.parses);
      DummyMissingSound(v, backend.parses);
      var g;
      g, o := FetchDummy();
      if !g.Got? {
        return;
      }
      if g.result.Failure? {
        o, alone := ReplayBatch(v);
        return;
      }
      DummyReadSound(v, backend.parses);
      // The dummy query returns one row with its own value.
      if g.result.count > 1 || g.result.origin != DummyStatement {
        assert false;
      }
    }

    /** The dummy failed: none of the batch was executed. */
    method ReplayBatch(ghost v: View) returns (o: Outcome, ghost alone: seq<bool>)
      requires Sound(v, backend.parses) && v.dummy && v.results != [] && v.results[0].Failure?
      requires V() == v.(dummy := false, results := v.results[1..]) && lastId == |past.inserted|
      requires (first == END || first <= lastId) && (second == END || second <= lastId) && retainMax >= 0
      modifies this`queries, this`first, this`second, this`numWaiting, this`error, this`registered
      modifies this`past, backend
      ensures backend.looks >= old(backend.looks)
      ensures Excused(o, old(backend.troubles), old(Dummyless()))
      ensures Valid() && Onward(v, V()) && dummyPending == old(dummyPending)
      ensures o == Thrown(Broken) ||
              (&& o == Done && |alone| == v.second - v.first > 0 && !HavePending() && !registered && Spares(v, V())
               && ReplayOf(Forgotten(v), V(), alone))
    {
      ghost var parses := backend.parses;
      alone := [];
      var stop := second;
      ForgottenFails(v, parses);
      o := DiscardBatch(v);
      if o == Done {
        Rewind(v);
        registered := false;
        alone := Replay(stop, Forgotten(v));
        LaterTrans(v, Forgotten(v), V());
      }
    }

    /** The whole batch counts as waiting again. */
    method Rewind(ghost v: View)
      requires v.results != [] && V() == Drained(Botched(v)) && v.first <= v.second
      requires forall id :: v.first <= id < v.second ==> id in queries
      modifies this`second, this`numWaiting
      ensures V() == Forgotten(v) && second == first
    {
      DistanceContiguous(queries, v.first, v.second);
      numWaiting := numWaiting + Distance(queries, Position(first), Position(second));
      second := first;
    }

    /** All queries of the batch get the error; and the batch is over. */
    method DiscardBatch(ghost v: View) returns (o: Outcome)
      requires Sound(v, backend.parses) && v.dummy && v.results != [] && v.results[0].Failure?
      requires V() == v.(dummy := false, results := v.results[1..]) && lastId == |past.inserted|
      requires (first == END || first <= lastId) && (second == END || second <= lastId) && retainMax >= 0
      modifies this`queries, this`first, this`second, this`error, this`past, backend`busy, backend`results, backend`troubles
      ensures Excused(o, old(backend.troubles), old(Dummyless()))
      ensures Valid() && V() == Drained(Botched(v)) && (o == Done || o == Thrown(Broken))
      ensures first == old(first) && second == old(second)
    {
      BotchedSound(v, backend.parses);
      SoundMeansClauses(v, backend.parses);
      FailPending();
      assert V() == Botched(v);
      var got;
      got, o := ObtainResult(true);
    }

    // ---------- Receiving ----------

    /** Read whatever has come in already: until the server is busy, or nothing is pending. */
    method GetFurtherAvailableResults() returns (o: Outcome, ghost busy: bool)
      requires Valid() && !dummyPending
      modifies this`queries, this`first, this`second, this`error, this`past,
               backend`busy, backend`results, backend`troubles, backend`looks
      ensures backend.looks >= old(backend.looks)
      ensures Excused(o, old(backend.troubles), old(Dummyless()))
      ensures Valid() && Onward(old(V()), V()) && (o == Done || o == Thrown(Broken))
      ensures o == Done ==> if busy then backend.busy else !HavePending()
      ensures Spares(old(V()), V())
    {
      ghost var v := V();
      OnwardSteps(v);
      o, busy := Done, false;
      var more := true;
      while more
        invariant Excused(o, old(backend.troubles), old(Dummyless()))
        invariant Spares(v, V()) && backend.looks >= old(backend.looks)
        invariant Valid() && Onward(v, V()) && (o == Done || (o == Thrown(Broken) && !more))
        invariant o == Done && !more ==> if busy then backend.busy else !HavePending()
        decreases |backend.results|, more
      {
        more := false;
        var wait := backend.IsBusy();
        busy := wait;
        if !wait {
          o, more := ObtainAndConsume(v);
        }
      }
    }

    /** Read one result, and take in what else has arrived. */
    method ObtainAndConsume(ghost v: View) returns (o: Outcome, got: bool)
      requires Valid() && !dummyPending && Onward(v, V()) && Spares(v, V())
      modifies this`queries, this`first, this`second, this`error, this`past,
               backend`busy, backend`results, backend`troubles, backend`looks
      ensures backend.looks >= old(backend.looks)
      ensures Excused(o, old(backend.troubles), old(Dummyless()))
      ensures Spares(v, V())
      ensures Valid() && Onward(v, V()) && (o == Done || (o == Thrown(Broken) && !got))
      ensures |backend.results| <= |old(backend.results)| - (if got then 1 else 0)
      ensures o == Done && !got ==> !HavePending()
    {
      o, got := ReceiveOne(v);
      if got {
        got := ConsumeBehind(v);
        o := if got then Done else Thrown(Broken);
      }
    }

    method ConsumeBehind(ghost v: View) returns (ok: bool)
      requires Valid() && Onward(v, V()) && Spares(v, V())
      modifies backend`results, backend`troubles, backend`looks
      ensures Valid() && Onward(v, V()) && Spares(v, V()) && |backend.results| <= |old(backend.results)|
      ensures backend.looks > old(backend.looks) && backend.troubles == old(backend.troubles) + if ok then 0 else 1
    {
      ghost var w := V();
      ok := ConsumeInput();
      OnwardTrans(v, w, V());
    }

    method ConsumeInput() returns (ok: bool)
      requires Valid()
      modifies backend`results, backend`troubles, backend`looks
      ensures backend.looks > old(backend.looks) && backend.troubles == old(backend.troubles) + (if ok then 0 else 1)
              && (ok ==> V() == old(V()))
      ensures Valid() && Onward(old(V()), V()) && |backend.results| <= |old(backend.results)|
    {
      ghost var v := V();
      ok := backend.ConsumeInput();
      ghost var k :| 0 <= k <= |v.results| && backend.results == v.results[..k];
      TruncatedSound(v, k, backend.parses);
      OnwardTruncated(v, k);
    }

    /** Receive results, but do not wait for any: until the server is busy, or nothing is pending. */
    method ReceiveIfAvailable() returns (o: Outcome, ghost busy: bool)
      requires Valid()
      modifies this`queries, this`first, this`second, this`numWaiting, this`dummyPending, this`error, this`registered
      modifies this`past, backend
      ensures backend.looks > old(backend.looks)
      ensures o == Done && Dummyless() ==> old(Dummyless())
      ensures Excused(o, old(backend.troubles), old(Dummyless()))
      ensures Valid() && Onward(old(V()), V()) && o in {Done, Thrown(Broken), Thrown(InternalError)}
      ensures o == Done ==> if busy then backend.busy else !HavePending() && !dummyPending
      ensures o == Done ==> Spares(old(V()), V())
    {
      ghost var v := V();
      busy := false;
      var ok := ConsumeInput();
      if !ok {
        return Thrown(Broken), false;
      }
      var wait := backend.IsBusy();
      if wait {
        return Done, true;
      }
      o, busy := ReceiveFurther(v);
    }

    method ReceiveFurther(ghost v: View) returns (o: Outcome, ghost busy: bool)
      requires Valid() && Onward(v, V()) && Spares(v, V())
      modifies this`queries, this`first, this`second, this`numWaiting, this`dummyPending, this`error, this`registered
      modifies this`past, backend
      ensures backend.looks >= old(backend.looks)
      ensures Excused(o, old(backend.troubles), old(Dummyless()))
      ensures Valid() && Onward(v, V()) && o in {Done, Thrown(Broken), Thrown(InternalError)}
      ensures o == Done ==> !dummyPending && if busy then backend.busy else !HavePending()
      ensures o == Done ==> Spares(v, V())
    {
      busy := false;
      o := ObtainDummyIfPending(v);
      if o == Done && HavePending() {
        ghost var w := V();
        o, busy := GetFurtherAvailableResults();
        SparesTrans(v, w, V());
        OnwardTrans(v, w, V());
      }
    }

    method ObtainDummyIfPending(ghost v: View) returns (o: Outcome)
      requires Valid() && Onward(v, V())
      modifies this`queries, this`first, this`second, this`numWaiting, this`dummyPending, this`error, this`registered
      modifies this`past, backend
      ensures backend.looks >= old(backend.looks)
      ensures Excused(o, old(backend.troubles), old(Dummyless()))
      ensures Valid() && Onward(v, V()) && o in {Done, Thrown(Broken), Thrown(InternalError)}
      ensures o == Done ==> !dummyPending
      ensures !old(dummyPending) ==> o == Done && V() == old(V())
      ensures o == Done ==> Spares(old(V()), V()) && (Spares(v, old(V())) ==> Spares(v, V()))
    {
      o := Done;
      if dummyPending {
        ghost var w := V();
        ghost var alone;
        o, alone := ObtainDummy();
        LaterMeans(v, w);
        OnwardTrans(v, w, V());
      }
    }

    /** Wait for results, one by one, until the given query is the oldest pending one. */
    method ReceiveUpTo(stop: nat) returns (o: Outcome)
      requires Valid() && !dummyPending && (stop == END || stop <= lastId)
      modifies this`queries, this`first, this`second, this`error, this`past, backend`busy, backend`results, backend`troubles
      ensures old(V().first) < Position(stop) ==> V().first <= Position(stop)
      ensures Excused(o, old(backend.troubles), old(Dummyless()))
      ensures Valid() && Onward(old(V()), V()) && Spares(old(V()), V()) && (o == Done || o == Thrown(Broken))
      ensures o == Done ==> first == stop || !HavePending()
      ensures o == Done && Stalled(old(V())) ==> error <= old(V().first)
    {
      ghost var u := V();
      OnwardSteps(u);
      o := Done;
      var more := true;
      while more
        invariant Excused(o, old(backend.troubles), old(Dummyless()))
        invariant Valid() && Onward(u, V()) && Spares(u, V())
        invariant o == Done && (more || first == stop || !HavePending())
        invariant u.first < Position(stop) ==> V().first <= Position(stop) && (more ==> V().first < Position(stop))
        invariant Stalled(u) ==> if more then V() == u else error <= u.first
        decreases |backend.results|, more
      {
        var got;
        o, got := ReceiveOne(u);
        if o != Done {
          return;
        }
        more := got && first != stop;
      }
    }

    /** Wait for one result.  If there is none then nothing is pending any more. */
    method ReceiveOne(ghost u: View) returns (o: Outcome, got: bool)
      requires Valid() && !dummyPending && Onward(u, V()) && Spares(u, V())
      modifies this`queries, this`first, this`second, this`error, this`past, backend`busy, backend`results, backend`troubles
      ensures V().first == old(V().first) + if got then 1 else 0
      ensures Excused(o, old(backend.troubles), old(Dummyless()))
      ensures Valid() && Onward(u, V()) && Spares(u, V()) && (o == Done || o == Thrown(Broken))
      ensures |backend.results| <= |old(backend.results)| - (if got then 1 else 0)
      ensures o == Done && !got ==> !HavePending()
      ensures o == Done && Stalled(old(V())) ==> !got && error <= old(V().first)
    {
      ghost var w := V();
      PendingPositions();
      got, o := ObtainResult(false);
      OnwardObtained(w, V(), backend.parses);
      SparesTrans(u, w, V());
      OnwardTrans(u, w, V());
    }

    /** Wait for the results of all pending queries before the given one. */
    method Receive(stop: nat) returns (o: Outcome)
      requires Valid() && (stop == END || stop <= lastId)
      modifies this`queries, this`first, this`second, this`numWaiting, this`dummyPending, this`error, this`registered
      modifies this`past, backend
      ensures Excused(o, old(backend.troubles), old(Dummyless()))
      ensures Valid() && Onward(old(V()), V()) && o in {Done, Thrown(Broken), Thrown(InternalError)}
      ensures o == Done ==> !dummyPending && (V().first >= Position(stop) || !HavePending())
      ensures o == Done ==> Attended() && Spares(old(V()), V())
      ensures o == Done && Stalled(old(V())) ==> error <= old(V().first)
    {
      ghost var v := V();
      OnwardSteps(v);
      o := ObtainDummyIfPending(v);
      if o != Done {
        return;
      }
      ghost var u := V();
      o := ReceiveUpTo(stop);
      SparesTrans(v, u, V());
      OnwardTrans(v, u, V());
      if o == Done && first == stop {
        o := HaulIn(v);
      }
    }

    /** Also haul in what else has come in. */
    method HaulIn(ghost v: View) returns (o: Outcome)
      requires Valid() && !dummyPending && Onward(v, V()) && Spares(v, V())
      modifies this`queries, this`first, this`second, this`error, this`past,
               backend`busy, backend`results, backend`troubles, backend`looks
      ensures Excused(o, old(backend.troubles), false)
      ensures Valid() && Onward(v, V()) && Spares(v, V()) && (o == Done || o == Thrown(Broken))
      ensures V().first >= old(V().first) && error <= old(error) && (o == Done ==> Attended())
    {
      ghost var w := V();
      ghost var busy;
      o, busy := GetFurtherAvailableResults();
      SparesTrans(v, w, V());
      OnwardTrans(v, w, V());
      LaterMeans(w, V());
    }

    // ---------- Sending ----------

    /** The texts of the queries from the oldest waiting one on. */
    method BatchTexts() returns (texts: seq<string>)
      requires Shaped(queries, V().first, V().second, past.inserted) && lastId == |past.inserted| && second <= lastId
      ensures texts == Texts(past.inserted, second)
    {
      texts := [];
      var i := second;
      while i != END
        invariant i == END || second <= i <= lastId
        invariant texts == Texts(past.inserted, second)[..Position(i) - second]
        decreases lastId + 1 - Position(i)
      {
        texts := texts + [queries[i].text];
        i := Successor(queries, i, lastId);
      }
    }

    /** Send all waiting queries in one batch, behind a dummy query if there are several. */
    method Send(texts: seq<string>, ghost v: View) returns (sent: bool)
      requires V() == v && 1 <= v.second <= |v.inserted| == lastId < LIMIT && second != END
      requires texts == Texts(v.inserted, v.second)
      requires v.first == v.second && !v.busy && !v.dummy && v.error == LIMIT
      modifies this`first, this`second, this`numWaiting, this`dummyPending, this`past, backend
      ensures backend.looks == old(backend.looks)
      ensures !sent ==> V() == v && first == old(first) && second == old(second)
      ensures backend.troubles == old(backend.troubles) + if sent then 0 else 1
      ensures sent ==>
                && v.log <= backend.log && V() == Issued(v, |texts| > 1, backend.results, backend.log)
                && BatchResults(|texts| > 1, texts, backend.results, v.log, backend.log, backend.parses)
                && first == old(second) && second == END
    {
      var oldest := second;
      var prependDummy := |texts| > 1;
      sent := backend.StartExec(prependDummy, texts);
      if sent {
        dummyPending := prependDummy;
        first := oldest;
        second := END;
        numWaiting := numWaiting - |texts|;
        past := past.(serial := |v.log|, start := oldest);
      }
    }

    /** Send all waiting queries, unless there was an error. */
    method Issue() returns (o: Outcome)
      requires Valid() && !HavePending() && second != END
      modifies this`queries, this`first, this`second, this`numWaiting, this`dummyPending, this`error, this`past, backend
      ensures backend.looks == old(backend.looks)
      ensures o == Done ==> !Dummyless()
      ensures Excused(o, old(backend.troubles), old(Dummyless()))
      ensures Valid() && Later(old(V()), V()) && o in {Done, Thrown(Broken), Thrown(SendFailed)}
      ensures error == old(error) && V().first == old(V().first)
      ensures o != Done || error < LIMIT ==> !HavePending() && numWaiting == old(numWaiting) && V().second == old(V().second)
      ensures o == Done && error == LIMIT ==> HavePending() && second == END && numWaiting == 0 && backend.busy
      ensures o == Done && error == LIMIT ==> (dummyPending <==> V().second - V().first > 1)
    {
      ghost var v := V();
      OnwardSteps(v);
      NothingPending(v, backend.parses);
      PendingPositions();
      var got;
      got, o := ObtainResult(false);
      assert V() == Drained(v);
      if o == Done && error == LIMIT {
        ghost var w := V();
        o := SendBatch();
        LaterTrans(v, w, V());
      }
    }

    /** Send all waiting queries; there was no error. */
    method SendBatch() returns (o: Outcome)
      requires Valid() && !HavePending() && second != END && error == LIMIT
      requires !backend.busy && !dummyPending
      modifies this`first, this`second, this`numWaiting, this`dummyPending, this`past, backend
      ensures backend.looks == old(backend.looks)
      ensures o == Done ==> !Dummyless()
      ensures Excused(o, old(backend.troubles), old(Dummyless()))
      ensures Valid() && Later(old(V()), V()) && o in {Done, Thrown(SendFailed)}
      ensures V().first == old(V().first)
      ensures o != Done ==> !HavePending() && numWaiting == old(numWaiting) && V().second == old(V().second)
      ensures o == Done ==> HavePending() && second == END && numWaiting == 0 && backend.busy
      ensures o == Done ==> (dummyPending <==> V().second - V().first > 1)
    {
      ghost var w := V();
      SoundMeansClauses(w, backend.parses);
      OnwardSteps(w);
      var texts := BatchTexts();
      var sent := Send(texts, w);
      if !sent {
        return Thrown(SendFailed);
      }
      o := Done;
      IssuedSound(w, dummyPending, backend.results, backend.log, backend.parses);
      LaterIssued(w, dummyPending, backend.results, backend.log);
    }

    // ---------- What the user may do ----------

    method Attach() returns (o: Outcome)
      modifies this`registered
      ensures o == Done || (o == Thrown(FocusTaken) && !old(registered))
      ensures o == Done ==> registered
    {
      o := Done;
      if !registered {
        var taken: bool := *;
        if taken {
          return Thrown(FocusTaken);
        }
        registered := true;
      }
    }

    /** Add a query, with the next id. */
    method AddQuery(text: string) returns (id: nat)
      requires V().first <= V().second && lastId == |past.inserted| && lastId + 2 < LIMIT
      requires (first == END || first <= lastId) && (second == END || second <= lastId)
      modifies this`queries, this`first, this`second, this`numWaiting, this`lastId, this`past
      ensures V() == Inserted(old(V()), text) && id == lastId == old(lastId) + 1
      ensures first <= lastId && second <= lastId
    {
      lastId := lastId + 1;
      id := lastId;
      queries := queries[id := Query(text, Missing)];
      if second == END {
        second := id;
        if first == END {
          first := id;
        }
      }
      numWaiting := numWaiting + 1;
      past := past.(inserted := past.inserted + [text]);
    }

    method Insert(text: string) returns (o: Outcome, id: nat)
      requires Valid() && lastId + 2 < LIMIT
      modifies this, backend
      ensures Excused(o, old(backend.troubles), old(Dummyless()))
      ensures Valid()
      ensures retainMax == old(retainMax)
      ensures o == Thrown(FocusTaken) ==> V() == old(V()) && !old(registered)
      ensures o in TROUBLE + {Thrown(FocusTaken)}
      ensures o != Thrown(FocusTaken) ==>
                && id == lastId == old(lastId) + 1 && past.inserted == old(past).inserted + [text]
                && Later(Inserted(old(V()), text), V())
      ensures o == Done && error == LIMIT ==> numWaiting <= retainMax || HavePending()
      ensures o == Done && old(numWaiting) >= old(retainMax) ==> Attended()
      ensures o == Done && old(numWaiting) < old(retainMax) ==> V() == Inserted(old(V()), text) && registered
    {
      id := 0;
      o := Attach();
      if o != Done {
        return;
      }
      SoundMeansClauses(V(), backend.parses);
      InsertedSound(V(), text, backend.parses);
      id := AddQuery(text);
      ghost var v := V();
      OnwardSteps(v);
      if numWaiting > retainMax {
        o := SendNow(v);
      }
      LaterMeans(v, V());
    }

    /** Send waiting queries, if the server has done with those before. */
    method SendNow(ghost v: View) returns (o: Outcome)
      requires Valid() && V() == v && second != END
      modifies this`queries, this`first, this`second, this`numWaiting, this`dummyPending, this`error, this`registered
      modifies this`past, backend
      ensures Excused(o, old(backend.troubles), old(Dummyless()))
      ensures Valid() && Later(v, V()) && o in TROUBLE
      ensures o == Done ==> Attended() && (error == LIMIT ==> HavePending())
    {
      OnwardSteps(v);
      o := Done;
      if HavePending() {
        ghost var busy;
        o, busy := ReceiveIfAvailable();
      }
      ClauseHolds(Mark, V(), backend.parses);
      if o == Done && !HavePending() {
        ghost var w := V();
        o := Issue();
        LaterTrans(v, w, V());
      }
    }

    /** Send whatever is waiting, and do not let queries wait for more to come. */
    method Resume() returns (o: Outcome)
      requires Valid()
      modifies this`queries, this`first, this`second, this`numWaiting, this`dummyPending, this`error, this`registered
      modifies this`past, backend
      ensures o == Done && old(HavePending() || numWaiting > 0) ==> backend.looks > old(backend.looks)
      ensures Excused(o, old(backend.troubles), old(Dummyless()))
      ensures Valid() && Later(old(V()), V())
      ensures o in TROUBLE && (o == Done && error == LIMIT ==> numWaiting == 0 || HavePending())
      ensures o == Done ==> Attended()
    {
      ghost var v := V();
      OnwardSteps(v);
      o := Done;
      if HavePending() {
        ghost var busy;
        o, busy := ReceiveIfAvailable();
      }
      ClauseHolds(Count, V(), backend.parses);
      if o == Done && !HavePending() && numWaiting > 0 {
        o := IssueAndReceive(v);
      }
    }

    method IssueAndReceive(ghost v: View) returns (o: Outcome)
      requires Valid() && Later(v, V()) && !HavePending() && numWaiting > 0
      modifies this`queries, this`first, this`second, this`numWaiting, this`dummyPending, this`error, this`registered
      modifies this`past, backend
      ensures o == Done ==> backend.looks > old(backend.looks)
      ensures Excused(o, old(backend.troubles), old(Dummyless()))
      ensures Valid() && Later(v, V())
      ensures o in TROUBLE && (o == Done && error == LIMIT ==> numWaiting == 0)
      ensures o == Done ==> Attended()
    {
      ghost var w := V();
      SoundMeansClauses(w, backend.parses);
      o := Issue();
      LaterTrans(v, w, V());
      if o == Done {
        ghost var u := V();
        ghost var busy;
        o, busy := ReceiveIfAvailable();
        LaterTrans(v, u, V());
        if error == LIMIT {
          NoErrorBefore(u, V(), backend.parses);
        }
      }
    }

    /** Have up to some number of queries wait for more to come. */
    method Retain(max: int) returns (o: Outcome, oldMax: int)
      requires Valid()
      modifies this, backend
      ensures Excused(o, old(backend.troubles), old(Dummyless()))
      ensures Valid() && Later(old(V()), V()) && lastId == old(lastId)
      ensures o == Thrown(NegativeRetain) <==> max < 0
      ensures o == Thrown(NegativeRetain) ==> V() == old(V()) && retainMax == old(retainMax)
      ensures o != Thrown(NegativeRetain) ==> retainMax == max && oldMax == old(retainMax)
      ensures o == Done && error == LIMIT ==> numWaiting < max || numWaiting == 0 || HavePending()
      ensures o == Done && old(numWaiting) >= max ==> Attended()
      ensures o == Done && old(numWaiting) < max ==> V() == old(V())
    {
      OnwardSteps(V());
      if max < 0 {
        return Thrown(NegativeRetain), retainMax;
      }
      oldMax := retainMax;
      retainMax := max;
      o := Done;
      if numWaiting >= retainMax {
        o := Resume();
      }
    }

    method Detach()
      modifies this`registered
      ensures !registered
    {
      registered := false;
    }

    /** Receive the results of all pending queries. */
    method ReceivePending(ghost v: View) returns (o: Outcome)
      requires Valid() && V() == v
      modifies this`queries, this`first, this`second, this`numWaiting, this`dummyPending, this`error, this`registered
      modifies this`past, backend
      ensures Excused(o, old(backend.troubles), old(Dummyless()))
      ensures Valid() && Onward(v, V()) && o in TROUBLE
      ensures o == Done ==> !dummyPending && !HavePending() && Spares(v, V())
    {
      OnwardSteps(v);
      ClauseHolds(Flow, v, backend.parses);
      PendingPositions();
      o := Done;
      if HavePending() {
        o := Receive(second);
        PendingPositions();
      }
    }

    /** Have all queries executed. */
    method Complete() returns (o: Outcome)
      requires Valid()
      modifies this`queries, this`first, this`second, this`numWaiting, this`dummyPending, this`error, this`registered
      modifies this`past, backend
      ensures Excused(o, old(backend.troubles), old(Dummyless()))
      ensures Valid() && Later(old(V()), V()) && o in TROUBLE
      ensures o == Done ==> !HavePending() && !dummyPending && !registered
      ensures o == Done && error == LIMIT ==> numWaiting == 0 && V().first == lastId + 1
    {
      ghost var v := V();
      o := ReceivePending(v);
      if o == Done && numWaiting > 0 && error == LIMIT {
        o := IssueAndComplete(v);
      }
      if o == Done {
        ClauseHolds(Count, V(), backend.parses);
        PendingPositions();
        Detach();
      }
    }

    method IssueAndComplete(ghost v: View) returns (o: Outcome)
      requires Valid() && Later(v, V()) && !HavePending() && !dummyPending && numWaiting > 0 && error == LIMIT
      modifies this`queries, this`first, this`second, this`numWaiting, this`dummyPending, this`error, this`registered
      modifies this`past, backend
      ensures Excused(o, old(backend.troubles), old(Dummyless()))
      ensures Valid() && Later(v, V()) && o in TROUBLE
      ensures o == Done ==> !HavePending() && !dummyPending
      ensures o == Done && error == LIMIT ==> numWaiting == 0
    {
      ghost var w := V();
      SoundMeansClauses(w, backend.parses);
      o := Issue();
      LaterTrans(v, w, V());
      if o == Done {
        ghost var u := V();
        o := Receive(END);
        LaterTrans(v, u, V());
        PendingPositions();
      }
    }

    /** Forget all queries, and what became of them; but not an error. */
    method Flush() returns (o: Outcome)
      requires Valid()
      modifies this, backend
      ensures Excused(o, old(backend.troubles), old(Dummyless()))
      ensures Valid() && lastId == old(lastId) && error <= old(error) && o in TROUBLE
      ensures past.inserted == old(past).inserted && old(backend.log) <= backend.log
      ensures Extends(old(past).answered, past.answered) && Extends(old(past).faulted, past.faulted)
      ensures retainMax == old(retainMax)
      ensures o == Done ==> queries == map[] && !HavePending() && numWaiting == 0 && !dummyPending && !registered
      ensures o == Done ==> error == old(error) || error >= old(V().first)
      ensures o != Done ==> Later(old(V()), V())
    {
      ghost var v := V();
      o := Done;
      OnwardSteps(v);
      LaterMeans(v, v);
      if queries != map[] {
        o := ReceivePending(v);
        LaterMeans(v, V());
        if o != Done {
          return;
        }
        Forget();
      } else {
        SoundMeansClauses(v, backend.parses);
        PendingPositions();
      }
      Detach();
    }

    method Forget()
      requires Valid() && !HavePending() && !dummyPending
      modifies this`queries, this`first, this`second, this`numWaiting, this`past, this`dummyPending
      ensures Valid() && V() == Flushed(old(V())) && first == second == END
    {
      FlushedSound(V(), backend.parses);
      first, second := END, END;
      numWaiting := 0;
      dummyPending := false;
      queries := map[];
      past := past.(start := lastId + 1);
    }

    // ---------- Retrieving ----------

    /** May the query's result be had without waiting for the server? */
    method IsFinished(q: nat) returns (o: Outcome, finished: bool)
      requires Valid()
      ensures o == if q in queries then Done else Thrown(UnknownQuery)
      ensures o == Done && finished ==> q < V().first && queries[q].result != Missing
      ensures o == Done && !finished ==> V().first <= q || error <= q
    {
      if q !in queries {
        return Thrown(UnknownQuery), false;
      }
      SoundMeansClauses(V(), backend.parses);
      o := Done;
      finished := first == END || (q < first && q < error);
    }

    /** Have the query sent to the server. */
    method EnsureIssued(q: nat) returns (o: Outcome)
      requires Valid() && q in queries
      modifies this`queries, this`first, this`second, this`numWaiting, this`dummyPending, this`error, this`registered
      modifies this`past, backend
      ensures o == Done && Dummyless() ==> old(Dummyless())
      ensures Excused(o, old(backend.troubles), old(Dummyless()))
      ensures Valid() && Later(old(V()), V()) && o in TROUBLE
      ensures o == Done ==> q < V().second || error <= q
      ensures q < old(V().second) ==> o == Done && V() == old(V())
    {
      ghost var v := V();
      OnwardSteps(v);
      ClauseHolds(Shape, v, backend.parses);
      o := Done;
      if second != END && q >= second {
        o := ReceivePending(v);
        if o == Done && error == LIMIT {
          o := IssueNext(v);
        } else {
          ClauseHolds(Mark, V(), backend.parses);
          PendingPositions();
        }
      }
    }

    method IssueNext(ghost v: View) returns (o: Outcome)
      requires Valid() && Onward(v, V()) && !HavePending() && error == LIMIT && v.second <= lastId
      modifies this`queries, this`first, this`second, this`numWaiting, this`dummyPending, this`error, this`past, backend
      ensures o == Done ==> !Dummyless()
      ensures Excused(o, old(backend.troubles), old(Dummyless()))
      ensures Valid() && Later(v, V()) && o in TROUBLE && error == LIMIT
      ensures o == Done ==> second == END
    {
      ghost var w := V();
      o := Issue();
      LaterTrans(v, w, V());
    }

    /** Have the result of the query in, if it is to have one. */
    method EnsureReceived(q: nat) returns (o: Outcome)
      requires Valid() && q in queries && (q < V().second || error <= q)
      modifies this`queries, this`first, this`second, this`numWaiting, this`dummyPending, this`error, this`registered
      modifies this`past, backend
      ensures Excused(o, old(backend.troubles), old(Dummyless()))
      ensures Valid() && Onward(old(V()), V()) && o in TROUBLE
      ensures o == Done ==> q < V().first || error <= q
      ensures o == Done && Stalled(old(V())) && old(V().first) <= q ==> error <= q
      ensures o == Done ==> Attended()
      ensures o == Done && q < old(V().first) ==> Spares(old(V()), V())
    {
      ghost var v := V();
      OnwardSteps(v);
      ClauseHolds(Shape, v, backend.parses);
      PendingPositions();
      o := Done;
      if HavePending() {
        if q >= first {
          o := Receive(Successor(queries, q, lastId));
        } else {
          ghost var busy;
          o, busy := ReceiveIfAvailable();
        }
        LaterMeans(v, V());
      }
      ClauseHolds(Mark, V(), backend.parses);
      PendingPositions();
    }

    /** Do not leave the server idle while queries are waiting. */
    method KeepBusy() returns (o: Outcome)
      requires Valid() && Attended()
      modifies this`queries, this`first, this`second, this`numWaiting, this`dummyPending, this`error, this`past, backend
      ensures o != Thrown(InternalError)
      ensures Excused(o, old(backend.troubles), old(Dummyless()))
      ensures Valid() && Later(old(V()), V()) && o in TROUBLE && error == old(error) && V().first == old(V().first)
      ensures o == Done ==> Attended()
      ensures o == Done && error == LIMIT ==> numWaiting == 0 || HavePending()
    {
      OnwardSteps(V());
      SoundMeansClauses(V(), backend.parses);
      o := Done;
      if numWaiting > 0 && !HavePending() && error == LIMIT {
        o := Issue();
      }
    }

    /** Wait for the query's result, unless an error before it was found. */
    method Await(q: nat) returns (o: Outcome)
      requires Valid() && q in queries && q < error
      modifies this`queries, this`first, this`second, this`numWaiting, this`dummyPending, this`error, this`registered
      modifies this`past, backend
      ensures Excused(o, old(backend.troubles), old(Dummyless()))
      ensures Valid() && Later(old(V()), V()) && o in TROUBLE + {Thrown(EarlierError)}
      ensures o == Done ==> q < V().first && q < error
      ensures o == Done ==> Attended()
      ensures o == Done && error == LIMIT ==> numWaiting == 0 || HavePending()
      ensures o == Thrown(EarlierError) ==> error <= q
      ensures Stalled(old(V())) && old(V().first) <= q < old(V().second) ==> o != Done
      ensures q < old(V().first) ==> o != Thrown(EarlierError)
    {
      ghost var v := V();
      ClauseHolds(Shape, v, backend.parses);
      o := EnsureIssued(q);
      LaterMeans(v, V());
      if o == Done {
        ghost var w := V();
        o := EnsureReceived(q);
        LaterTrans(v, w, V());
        if o == Done {
          o := AwaitBehind(q, v);
        }
      }
    }

    method AwaitBehind(q: nat, ghost v: View) returns (o: Outcome)
      requires Valid() && Attended() && Later(v, V()) && (q < V().first || error <= q)
      modifies this`queries, this`first, this`second, this`numWaiting, this`dummyPending, this`error, this`past, backend
      ensures o != Thrown(InternalError)
      ensures Excused(o, old(backend.troubles), old(Dummyless()))
      ensures Valid() && Later(v, V()) && o in TROUBLE + {Thrown(EarlierError)}
      ensures o == Done ==> q < V().first && q < error
      ensures o == Done ==> Attended()
      ensures o == Done && error == LIMIT ==> numWaiting == 0 || HavePending()
      ensures o == Thrown(EarlierError) ==> error <= q
      ensures old(error) <= q ==> o == Thrown(EarlierError) && V() == old(V())
      ensures q < old(error) ==> o != Thrown(EarlierError)
    {
      if q >= error {
        return Thrown(EarlierError);
      }
      ghost var w := V();
      o := KeepBusy();
      LaterTrans(v, w, V());
    }

    /** Retrieve a query's result, which then is forgotten.  A result with rows is the server's answer
        to the very text that was inserted under that id; and if the query's failure is thrown, then
        an attempt to execute this text did not succeed.  No query is retrieved, nor its failure
        thrown, at or behind an error, or behind a failed query of its batch.  An answer before any
        error can be had, unless there is trouble on the connection. */
    method Retrieve(q: nat) returns (o: Outcome, r: Result)
      requires Valid()
      modifies this`queries, this`first, this`second, this`numWaiting, this`dummyPending, this`error, this`registered
      modifies this`past, backend
      ensures Excused(o, old(backend.troubles), old(Dummyless()))
      ensures Valid()
      ensures o == Thrown(UnknownQuery) <==> q !in old(queries)
      ensures o == Thrown(UnknownQuery) ==> V() == old(V())
      ensures o == Done ==>
                && q in past.answered && IsAnswer(r, past.answered[q], backend.log)
                && Executes(past.answered[q], q, backend.log, past.inserted)
      ensures o == Thrown(SqlError) ==>
                && q in past.faulted && q !in past.answered && IsFailure(r, past.faulted[q])
                && Fails(past.faulted[q], q, backend.log, past.inserted)
      ensures q in old(queries) && old(error) <= q ==> o == Thrown(EarlierError) && V() == old(V())
      ensures BehindFailure(old(V()), q) ==> o !in {Done, Thrown(SqlError)}
      ensures q in old(queries) && q in old(past).answered && q < old(error) ==> o in TROUBLE
      ensures o in {Done, Thrown(SqlError)} ==> q < error && Later(Erased(old(V()), q), V())
      ensures o !in {Done, Thrown(SqlError)} ==> Later(old(V()), V())
      ensures o in {Done, Thrown(SqlError)} ==> Attended()
      ensures o in {Done, Thrown(SqlError)} && error == LIMIT ==> numWaiting == 0 || HavePending()
      ensures o == Thrown(EarlierError) ==> error <= q
      ensures o in TROUBLE + {Thrown(UnknownQuery), Thrown(EarlierError), Thrown(SqlError)}
    {
      ghost var v := V();
      OnwardSteps(v);
      r := Missing;
      if q !in queries {
        return Thrown(UnknownQuery), r;
      }
      if q >= error {
        return Thrown(EarlierError), r;
      }
      if BehindFailure(v, q) {
        FailureStopsBatch(v, q, backend.parses);
      }
      ClauseHolds(Attribution, v, backend.parses);
      o := Await(q);
      LaterMeans(v, V());
      if o == Done {
        o, r := TakeOut(q, v);
      }
    }

    method TakeOut(q: nat, ghost v: View) returns (o: Outcome, r: Result)
      requires Valid() && Later(v, V()) && q in v.queries && q < V().first
      modifies this`queries
      ensures Valid() && Later(Erased(v, q), V())
      ensures o in {Done, Thrown(SqlError)} && (old(Attended()) ==> Attended())
      ensures o == Done ==>
                && q in past.answered && IsAnswer(r, past.answered[q], backend.log)
                && Executes(past.answered[q], q, backend.log, past.inserted)
      ensures o == Thrown(SqlError) ==>
                && q in past.faulted && q !in past.answered && IsFailure(r, past.faulted[q])
                && Fails(past.faulted[q], q, backend.log, past.inserted)
    {
      ghost var w := V();
      LaterMeans(v, w);
      ErasedSound(w, q, backend.parses);
      ClauseHolds(Blame, w, backend.parses);
      ClauseHolds(Reception, w, backend.parses);
      ClauseHolds(Attribution, w, backend.parses);
      r := queries[q].result;
      queries := queries - {q};
      LaterMeans(Erased(v, q), V());
      o := if r.Failure? then Thrown(SqlError) else Done;
    }

    /** Retrieve the result of the oldest query. */
    method RetrieveNext() returns (o: Outcome, q: nat, r: Result)
      requires Valid()
      modifies this`queries, this`first, this`second, this`numWaiting, this`dummyPending, this`error, this`registered
      modifies this`past, backend
      ensures Excused(o, old(backend.troubles), old(Dummyless()))
      ensures Valid()
      ensures o == Thrown(EmptyPipeline) <==> old(queries) == map[]
      ensures o == Thrown(EmptyPipeline) ==> V() == old(V())
      ensures o != Thrown(EmptyPipeline) ==> q in old(queries) && forall id :: id in old(queries) ==> q <= id
      ensures o == Done ==>
                && q in past.answered && IsAnswer(r, past.answered[q], backend.log)
                && Executes(past.answered[q], q, backend.log, past.inserted)
      ensures o == Thrown(SqlError) ==>
                && q in past.faulted && q !in past.answered && IsFailure(r, past.faulted[q])
                && Fails(past.faulted[q], q, backend.log, past.inserted)
      ensures q in old(queries) && old(error) <= q ==> o == Thrown(EarlierError) && V() == old(V())
      ensures BehindFailure(old(V()), q) ==> o !in {Done, Thrown(SqlError)}
      ensures q in old(queries) && q in old(past).answered && q < old(error) ==> o in TROUBLE
      ensures o in {Done, Thrown(SqlError)} ==> Attended() && (error == LIMIT ==> numWaiting == 0 || HavePending())
      ensures o in {Done, Thrown(SqlError)} ==> Later(Erased(old(V()), q), V())
      ensures o !in {Done, Thrown(SqlError)} ==> Later(old(V()), V())
    {
      OnwardSteps(V());
      if queries == map[] {
        return Thrown(EmptyPipeline), 0, Missing;
      }
      ClauseHolds(Shape, V(), backend.parses);
      q := Successor(queries, 0, lastId);
      OldestQuery(queries, 0, lastId);
      o, r := Retrieve(q);
    }
  }

  // ---------- Whole runs ----------

  datatype Operation =
    | Insert(text: string)
    | Retain(max: int)
    | Resume
    | Complete
    | Flush
    | Retrieve(id: nat)
    | RetrieveNext

  /** Nothing but a flush makes queries go away untold; and all that are inserted are told. */
  ghost predicate Recorded(op: Operation, o: Outcome, v: View, v': View, events: seq<Event>) {
    && (!op.Flush? ==> Unforgotten(v, v', events))
    && v'.inserted == v.inserted + Entries(events)
    && (op.Insert? ==> events != [] || o == Thrown(FocusTaken))
    && (op.Retrieve? || op.RetrieveNext? ==> (events == [] <==> o !in {Done, Thrown(SqlError)}))
  }

  /** Insert a query, and tell of it. */
  method PerformInsertion(p: Pipeline, text: string) returns (o: Outcome, events: seq<Event>)
    requires p.Valid() && p.lastId + 2 < LIMIT
    modifies p, p.backend
    ensures p.Valid() && Grown(old(p.V()), p.V()) && p.lastId <= old(p.lastId) + 1
    ensures |events| <= 1 && Recorded(Insert(text), o, old(p.V()), p.V(), events)
    ensures forall e :: e in events ==> Agrees(e, p.V()) && e.Entered? && e.text == text
    ensures p.Excused(o, old(p.backend.troubles), old(p.Dummyless()))
  {
    ghost var v := p.V();
    OnwardSteps(v);
    var id;
    o, id := p.Insert(text);
    events := if o == Thrown(FocusTaken) then [] else [Entered(id, text)];
    GrownMeans(v, p.V());
    InsertionTold(text, v, p.V(), events);
  }

  /** The other operations do what they are for. */
  ghost predicate Achieved(p: Pipeline, op: Operation, o: Outcome)
    reads p, p.backend
  {
    match op
    case Retain(max) => if max < 0 then o == Thrown(NegativeRetain) else p.retainMax == max
    case Resume => o == Done && p.error == LIMIT ==> p.numWaiting == 0 || p.HavePending()
    case Complete => o == Done && p.error == LIMIT ==> p.V().first == p.lastId + 1
    case Flush => o == Done ==> p.queries == map[]
    case _ => true
  }

  /** Retrieve a query's result, or the oldest query's, and tell of it. */
  method PerformRetrieval(p: Pipeline, op: Operation) returns (o: Outcome, events: seq<Event>)
    requires p.Valid() && (op.Retrieve? || op.RetrieveNext?)
    modifies p, p.backend
    ensures p.Valid() && Grown(old(p.V()), p.V()) && p.lastId == old(p.lastId)
    ensures |events| <= 1 && Recorded(op, o, old(p.V()), p.V(), events)
    ensures forall e :: e in events ==> Agrees(e, p.V()) && !e.Entered? && e.id in old(p.queries)
    ensures p.Excused(o, old(p.backend.troubles), old(p.Dummyless()))
    ensures op.Retrieve? && op.id !in old(p.queries) ==> o == Thrown(UnknownQuery)
  {
    ghost var v := p.V();
    var q, r;
    if op.Retrieve? {
      q := op.id;
      o, r := p.Retrieve(q);
    } else {
      o, q, r := p.RetrieveNext();
    }
    GrownMeans(v, p.V());
    events := if o == Done then [Answered(q, r.origin.serial, r.count)] else if o == Thrown(SqlError) then [Refused(q)] else [];
    RetrievalTold(q, v, p.V(), events);
  }

  /** Carry out an operation, and tell of insertions, answers and failures. */
  method Perform(p: Pipeline, op: Operation) returns (o: Outcome, events: seq<Event>)
    requires p.Valid() && p.lastId + 2 < LIMIT
    modifies p, p.backend
    ensures p.Valid() && Grown(old(p.V()), p.V()) && p.lastId <= old(p.lastId) + 1
    ensures |events| <= 1 && Recorded(op, o, old(p.V()), p.V(), events)
    ensures forall e :: e in events ==> Agrees(e, p.V()) && (!e.Entered? ==> e.id in old(p.queries))
    ensures p.Excused(o, old(p.backend.troubles), old(p.Dummyless()))
    ensures Achieved(p, op, o)
  {
    ghost var v := p.V();
    OnwardSteps(v);
    events := [];
    match op {
      case Insert(text) =>
        o, events := PerformInsertion(p, text);
        return;
      case Retrieve(_) =>
        o, events := PerformRetrieval(p, op);
        return;
      case RetrieveNext =>
        o, events := PerformRetrieval(p, op);
        return;
      case Retain(max) =>
        var oldMax;
        o, oldMax := p.Retain(max);
      case Resume => o := p.Resume();
      case Complete => o := p.Complete();
      case Flush => o := p.Flush();
    }
    GrownMeans(v, p.V());
    if !op.Flush? {
      RetrievalTold(0, v, p.V(), []);
    }
  }

  /** Whatever is done with a pipeline, in whatever order, and whatever happens to the connection:
      answers and failures are told as ToldMeans says; and unless it is flushed, every query that
      was ever inserted is still there, or was told of. */
  method Run(p: Pipeline, ops: seq<Operation>) returns (trace: seq<Event>)
    requires p.Valid() && p.lastId + |ops| + 2 < LIMIT
    modifies p, p.backend
    ensures p.Valid() && Told(trace, p.V()) && p.past.inserted == old(p.past).inserted + Entries(trace)
    ensures Flush !in ops ==> Unforgotten(old(p.V()), p.V(), trace)
  {
    trace := [];
    var i := 0;
    while i < |ops|
      invariant 0 <= i <= |ops| && p.Valid() && Told(trace, p.V())
      invariant p.lastId <= old(p.lastId) + i && p.past.inserted == old(p.past).inserted + Entries(trace)
      invariant Flush !in ops ==> Unforgotten(old(p.V()), p.V(), trace)
    {
      ghost var v := p.V();
      var o, events := Perform(p, ops[i]);
      ToldNext(trace, v, p.V(), events);
      EntriesNext(trace, events);
      if Flush !in ops {
        UnforgottenNext(old(p.V()), v, p.V(), trace, events);
      }
      trace := trace + events;
      i := i + 1;
    }
  }
}
