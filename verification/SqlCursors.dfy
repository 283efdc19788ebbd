/** SQL cursors whose position is inferred from row counts alone, and random access on top. */
module SqlCursors {

  /** Distances from here on are sent as ALL and BACKWARD ALL. */
  const ALL := 0x7FFF_FFFE
  const BACKWARD_ALL := -0x7FFF_FFFF

  // ---------- The server's cursor ----------

  /** Where the server's cursor over n rows goes from position p, and how many rows it passes.
      Positions 1 to n are rows; 0 and n + 1 are the ends. */
  datatype Step = Step(pos: nat, count: nat)

  function Available(n: nat, p: nat, distance: int): nat
    requires p <= n + 1
  {
    if distance > 0 then (if p <= n then n - p else 0) else (if p >= 1 then p - 1 else 0)
  }

  predicate Unlimited(distance: int) {
    distance >= ALL || distance <= BACKWARD_ALL
  }

  function ServerStep(n: nat, p: nat, distance: int): (s: Step)
    requires p <= n + 1
    ensures s.pos <= n + 1
  {
    var available := Available(n, p, distance);
    if distance == 0 then Step(p, 0)
    else if !Unlimited(distance) && Abs(distance) <= available then Step(p + distance, Abs(distance))
    else Step(if distance > 0 then n + 1 else 0, available)
  }

  /** count rows from index first on, in descending order. */
  function Descending<T>(rows: seq<T>, first: int, count: nat): (r: seq<T>)
    requires count > 0 ==> count - 1 <= first < |rows|
    ensures |r| == count
  {
    if count == 0 then [] else [rows[first]] + Descending(rows, first - 1, count - 1)
  }

  /** The rows that a fetch returns: those passed, in the direction of travel. */
  function FetchedRows<T>(rows: seq<T>, p: nat, distance: int): (r: seq<T>)
    requires p <= |rows| + 1
    ensures |r| == ServerStep(|rows|, p, distance).count
  {
    var count := ServerStep(|rows|, p, distance).count;
    if count == 0 then [] else if distance > 0 then rows[p..p + count] else Descending(rows, p - 2, count)
  }

  // ---------- Position tracking ----------

  function Abs(d: int): nat {
    if d < 0 then -d else d
  }

  function Direction(d: int): int {
    if d < 0 then -1 else 1
  }

  /** What the client remembers: which end it is past, its position and the end position, where
      -1 stands for an unknown position. */
  datatype Tracker = Tracker(atEnd: int, pos: int, endpos: int)

  datatype Fault = NegativeRows | TooManyRows | WrongBeginning | InconsistentEnd

  datatype Adjustment = Adjusted(tracker: Tracker, displacement: int) | Faulty(tracker: Tracker, fault: Fault)

  /** Infer the displacement and the new position from the requested and the reported rows. */
  function Adjust(t: Tracker, hoped: int, actual: int): Adjustment {
    if actual < 0 then Faulty(t, NegativeRows)
    else if hoped == 0 then Adjusted(t, 0)
    else if actual > Abs(hoped) then Faulty(t, TooManyRows)
    else
      var direction := Direction(hoped);
      if actual == Abs(hoped) then
        Adjusted(Tracker(0, if t.pos >= 0 then t.pos + direction * actual else t.pos, t.endpos), direction * actual)
      else
        var moved := if t.atEnd != direction then actual + 1 else actual;
        if direction < 0 && t.pos != -1 && t.pos != moved then Faulty(t, WrongBeginning)
        else
          var from := if direction < 0 && t.pos == -1 then moved else t.pos;
          var pos := if from >= 0 then from + direction * moved else from;
          if direction < 0 then Adjusted(Tracker(direction, pos, t.endpos), direction * moved)
          else if t.endpos >= 0 && pos != t.endpos then Faulty(Tracker(direction, pos, t.endpos), InconsistentEnd)
          else Adjusted(Tracker(direction, pos, pos), direction * moved)
  }

  function EndOf(n: nat, p: nat): int {
    if p == 0 then -1 else if p == n + 1 then 1 else 0
  }

  /** Everything the client claims to know is true of a cursor at position p over n rows. */
  predicate Tracks(t: Tracker, n: nat, p: nat) {
    && p <= n + 1
    && (t.pos == -1 || t.pos == p)
    && (t.endpos == -1 || (t.endpos == n + 1 && t.pos != -1))
    && (t.atEnd == EndOf(n, p) || (t.atEnd == 0 && t.pos == -1))
  }

  /** It also knows whether it is past an end, as it does from its first movement on. */
  predicate Settled(t: Tracker, n: nat, p: nat) {
    Tracks(t, n, p) && t.atEnd == EndOf(n, p)
  }

  /** A request is within the counting's reach: "all" is more than what there is. */
  predicate Countable(n: nat, p: nat, distance: int)
    requires p <= n + 1
  {
    Unlimited(distance) ==> Available(n, p, distance) < Abs(distance)
  }

  /** The row too many that is reported for a cursor which never moved, and was past the very end
      that the movement runs into. */
  function Surplus(t: Tracker, n: nat, p: nat, distance: int): int {
    if distance != 0 && !Settled(t, n, p) && EndOf(n, p) == Direction(distance) then Direction(distance) else 0
  }

  /** One movement of any distance and sign, from any known or unknown position.  No internal
      error fires; what is known stays true, nothing known is forgotten, and the position
      becomes known at the latest when the beginning is hit.  The reported displacement is the
      true one, but for the surplus row. */
  lemma AdjustTracks(t: Tracker, n: nat, p: nat, distance: int)
    requires Tracks(t, n, p) && Countable(n, p, distance) && distance != 0
    ensures var s := ServerStep(n, p, distance);
            var a := Adjust(t, distance, s.count);
            && a.Adjusted?
            && Settled(a.tracker, n, s.pos)
            && (t.pos != -1 ==> a.tracker.pos != -1)
            && (t.endpos != -1 ==> a.tracker.endpos != -1)
            && (s.pos == 0 ==> a.tracker.pos == 0)
            && (s.pos == n + 1 && t.pos != -1 ==> a.tracker.endpos == n + 1)
            && a.displacement == s.pos - p + Surplus(t, n, p, distance)
  {
  }

  /** For a settled cursor with a known position, a movement is tracked exactly when it is not
      an "all" request that meets at least as many rows as the number that stands for it. */
  lemma TracksExactlyWhenCountable(t: Tracker, n: nat, p: nat, distance: int)
    requires Settled(t, n, p) && t.pos == p && distance != 0
    ensures var s := ServerStep(n, p, distance);
            var a := Adjust(t, distance, s.count);
            a.Adjusted? && Settled(a.tracker, n, s.pos) && a.displacement == s.pos - p
            <==> Countable(n, p, distance)
  {
    if Countable(n, p, distance) {
      AdjustTracks(t, n, p, distance);
    }
  }

  /** The states that a run of movements goes through, and the displacements it reports. */
  datatype Run = Run(tracker: Tracker, pos: nat, reported: seq<int>, passed: seq<int>, faulty: bool)

  function RunOf(t: Tracker, n: nat, p: nat, distances: seq<int>): (r: Run)
    requires p <= n + 1
    ensures r.pos <= n + 1 && (!r.faulty ==> |r.reported| == |r.passed| == |distances|)
  {
    if distances == [] then Run(t, p, [], [], false)
    else
      var before := RunOf(t, n, p, distances[..|distances| - 1]);
      var d := distances[|distances| - 1];
      var s := ServerStep(n, before.pos, d);
      if before.faulty then before
      else if d == 0 then before.(reported := before.reported + [0], passed := before.passed + [0])
      else match Adjust(before.tracker, d, s.count)
           case Faulty(tracker, _) => before.(tracker := tracker, pos := s.pos, faulty := true)
           case Adjusted(tracker, displacement) =>
             Run(tracker, s.pos, before.reported + [displacement], before.passed + [s.pos - before.pos], false)
  }

  lemma {:induction false} RunTracks(t: Tracker, n: nat, p: nat, distances: seq<int>)
    requires Tracks(t, n, p) && n < ALL
    ensures var r := RunOf(t, n, p, distances);
            && !r.faulty && Tracks(r.tracker, n, r.pos)
            && (t.pos != -1 ==> r.tracker.pos != -1)
            && ((Settled(t, n, p) || exists k :: 0 <= k < |distances| && distances[k] != 0) ==> Settled(r.tracker, n, r.pos))
  {
    if distances != [] {
      var rest := distances[..|distances| - 1];
      RunTracks(t, n, p, rest);
      var before, d := RunOf(t, n, p, rest), distances[|distances| - 1];
      if d != 0 {
        AdjustTracks(before.tracker, n, before.pos, d);
      } else if k :| 0 <= k < |distances| && distances[k] != 0 {
        assert rest[k] != 0;
      }
    }
  }

  /** A cursor that the class created itself: after any sequence of fetches and moves of any size
      and sign its position and end state are exact, its end position is unknown or right, no
      internal error has fired, and every reported displacement was the true one. */
  lemma {:induction false} CreatedCursorIsExact(n: nat, distances: seq<int>)
    requires n < ALL
    ensures var r := RunOf(Tracker(-1, 0, -1), n, 0, distances);
            && !r.faulty && r.reported == r.passed
            && r.tracker.pos == r.pos && r.tracker.atEnd == EndOf(n, r.pos)
            && (r.tracker.endpos == -1 || r.tracker.endpos == n + 1)
  {
    var t := Tracker(-1, 0, -1);
    RunTracks(t, n, 0, distances);
    if distances != [] {
      var rest, d := distances[..|distances| - 1], distances[|distances| - 1];
      CreatedCursorIsExact(n, rest);
      RunTracks(t, n, 0, rest);
      if d != 0 {
        AdjustTracks(RunOf(t, n, 0, rest).tracker, n, RunOf(t, n, 0, rest).pos, d);
      }
    }
  }

  /** Nothing before the k-th distance moves the cursor. */
  predicate FirstMovement(distances: seq<int>, k: nat)
    requires k <= |distances|
  {
    forall j :: 0 <= j < k ==> distances[j] == 0
  }

  predicate ReportAcceptable(distances: seq<int>, r: Run, k: nat)
    requires k < |distances| && |r.reported| == |r.passed| == |distances|
  {
    if FirstMovement(distances, k) then Abs(r.reported[k] - r.passed[k]) <= 1 else r.reported[k] == r.passed[k]
  }

  lemma LastReport(n: nat, p: nat, distances: seq<int>)
    requires n < ALL && p <= n + 1 && distances != []
    ensures var r := RunOf(Tracker(0, -1, -1), n, p, distances);
            !r.faulty && ReportAcceptable(distances, r, |distances| - 1)
  {
    var t := Tracker(0, -1, -1);
    var last := |distances| - 1;
    var rest, d := distances[..last], distances[last];
    RunTracks(t, n, p, distances);
    RunTracks(t, n, p, rest);
    var before := RunOf(t, n, p, rest);
    if d != 0 {
      AdjustTracks(before.tracker, n, before.pos, d);
    }
    if j :| 0 <= j < last && distances[j] != 0 {
      assert rest[j] != 0;
    }
  }

  lemma EarlierReports(n: nat, p: nat, distances: seq<int>)
    requires n < ALL && p <= n + 1 && distances != []
    ensures var t := Tracker(0, -1, -1);
            var r, before := RunOf(t, n, p, distances), RunOf(t, n, p, distances[..|distances| - 1]);
            && !r.faulty && !before.faulty
            && forall k :: 0 <= k < |distances| - 1 ==>
                 r.reported[k] == before.reported[k] && r.passed[k] == before.passed[k]
  {
    RunTracks(Tracker(0, -1, -1), n, p, distances);
    RunTracks(Tracker(0, -1, -1), n, p, distances[..|distances| - 1]);
  }

  /** A cursor adopted at an unknown position, possibly an end: whatever becomes known is true,
      no internal error fires, and among the displacements reported only that of the first
      actual movement may be off, by one row. */
  lemma {:induction false} AdoptedCursorIsExact(n: nat, p: nat, distances: seq<int>)
    requires n < ALL && p <= n + 1
    ensures var r := RunOf(Tracker(0, -1, -1), n, p, distances);
            && !r.faulty && Tracks(r.tracker, n, r.pos)
            && forall k :: 0 <= k < |distances| ==> ReportAcceptable(distances, r, k)
  {
    var t := Tracker(0, -1, -1);
    RunTracks(t, n, p, distances);
    if distances != [] {
      var rest := distances[..|distances| - 1];
      AdoptedCursorIsExact(n, p, rest);
      EarlierReports(n, p, distances);
      LastReport(n, p, distances);
      ReportsExtend(distances, rest, RunOf(t, n, p, distances), RunOf(t, n, p, rest));
    }
  }

  lemma ReportsExtend(distances: seq<int>, rest: seq<int>, r: Run, before: Run)
    requires distances != [] && rest == distances[..|distances| - 1] && |r.reported| == |r.passed| == |distances|
    requires |before.reported| == |before.passed| == |rest|
    requires forall k :: 0 <= k < |rest| ==>
               r.reported[k] == before.reported[k] && r.passed[k] == before.passed[k]
    requires forall k :: 0 <= k < |rest| ==> ReportAcceptable(rest, before, k)
    requires ReportAcceptable(distances, r, |distances| - 1)
    ensures forall k :: 0 <= k < |distances| ==> ReportAcceptable(distances, r, k)
  {
    forall k | 0 <= k < |distances| ensures ReportAcceptable(distances, r, k) {
      if k < |rest| {
        assert ReportAcceptable(rest, before, k);
        assert FirstMovement(rest, k) <==> FirstMovement(distances, k);
      }
    }
  }

  // ---------- The cursor object ----------

  datatype Fetch<T> = Fetch(rows: seq<T>, displacement: int) | FetchFault(fault: Fault)
  datatype Movement = Movement(count: nat, displacement: int) | MoveFault(fault: Fault)
  datatype Retrieval<T> = Retrieved(rows: seq<T>) | OutOfRange | RetrievalFault(fault: Fault)

  class SqlCursor<T> {
    /** The server's side: the result set and the cursor's true position in it. */
    const rows: seq<T>
    var serverPos: nat

    /** The client's side. */
    var atEnd: int
    var pos: int
    var endpos: int

    ghost function Known(): Tracker
      reads this
    {
      Tracker(atEnd, pos, endpos)
    }

    ghost predicate Valid()
      reads this
    {
      Tracks(Known(), |rows|, serverPos) && |rows| < ALL
    }

    /** The position is known and exact. */
    ghost predicate Positioned()
      reads this
    {
      Valid() && Settled(Known(), |rows|, serverPos) && pos == serverPos
    }

    constructor Create(rows: seq<T>)
      requires |rows| < ALL
      ensures Positioned()
      ensures this.rows == rows && serverPos == 0 && Known() == Tracker(-1, 0, -1)
    {
      this.rows := rows;
      serverPos := 0;
      atEnd, pos, endpos := -1, 0, -1;
    }

    constructor Adopt(rows: seq<T>, position: nat)
      requires |rows| < ALL && position <= |rows| + 1
      ensures Valid()
      ensures this.rows == rows && serverPos == position && Known() == Tracker(0, -1, -1)
    {
      this.rows := rows;
      serverPos := position;
      atEnd, pos, endpos := 0, -1, -1;
    }

    /** Compute the actual displacement, and update what is known of the position. */
    method AdjustPosition(hoped: int, rowCount: int) returns (a: Adjustment)
      modifies this`atEnd, this`pos, this`endpos
      ensures a == Adjust(old(Known()), hoped, rowCount) && Known() == a.tracker
    {
      var actual := rowCount;
      if actual < 0 {
        return Faulty(Tracker(atEnd, pos, endpos), NegativeRows);
      }
      if hoped == 0 {
        return Adjusted(Tracker(atEnd, pos, endpos), 0);
      }
      var direction := if hoped < 0 then -1 else 1;
      var hitEnd := false;
      if actual != Abs(hoped) {
        if actual > Abs(hoped) {
          return Faulty(Tracker(atEnd, pos, endpos), TooManyRows);
        }
        if atEnd != direction {
          actual := actual + 1;
        }
        if direction > 0 {
          hitEnd := true;
        } else if pos == -1 {
          pos := actual;
        } else if pos != actual {
          return Faulty(Tracker(atEnd, pos, endpos), WrongBeginning);
        }
        atEnd := direction;
      } else {
        atEnd := 0;
      }
      if pos >= 0 {
        pos := pos + direction * actual;
      }
      if hitEnd {
        if endpos >= 0 && pos != endpos {
          return Faulty(Tracker(atEnd, pos, endpos), InconsistentEnd);
        }
        endpos := pos;
      }
      return Adjusted(Tracker(atEnd, pos, endpos), direction * actual);
    }

    method FetchRows(distance: int) returns (f: Fetch<T>)
      requires Valid()
      modifies this
      ensures Valid() && serverPos == ServerStep(|rows|, old(serverPos), distance).pos
      ensures f.Fetch? && f.rows == FetchedRows(rows, old(serverPos), distance)
      ensures f.displacement == serverPos - old(serverPos) + old(Surplus(Known(), |rows|, serverPos, distance))
      ensures distance != 0 || old(Settled(Known(), |rows|, serverPos)) ==> Settled(Known(), |rows|, serverPos)
      ensures old(pos) != -1 || (distance != 0 && serverPos == 0) ==> pos == serverPos
      ensures old(endpos) != -1 || (old(pos) != -1 && distance > 0 && serverPos == |rows| + 1) ==> endpos == |rows| + 1
    {
      if distance == 0 {
        return Fetch([], 0);
      }
      AdjustTracks(Known(), |rows|, serverPos, distance);
      var r := FetchedRows(rows, serverPos, distance);
      serverPos := ServerStep(|rows|, serverPos, distance).pos;
      var a := AdjustPosition(distance, |r|);
      match a {
        case Faulty(_, fault) => return FetchFault(fault);
        case Adjusted(_, displacement) => return Fetch(r, displacement);
      }
    }

    method MoveRows(distance: int) returns (m: Movement)
      requires Valid()
      modifies this
      ensures Valid() && serverPos == ServerStep(|rows|, old(serverPos), distance).pos
      ensures m.Movement? && m.count == ServerStep(|rows|, old(serverPos), distance).count
      ensures m.displacement == serverPos - old(serverPos) + old(Surplus(Known(), |rows|, serverPos, distance))
      ensures distance != 0 || old(Settled(Known(), |rows|, serverPos)) ==> Settled(Known(), |rows|, serverPos)
      ensures old(pos) != -1 || (distance != 0 && serverPos == 0) ==> pos == serverPos
      ensures old(endpos) != -1 || (old(pos) != -1 && distance > 0 && serverPos == |rows| + 1) ==> endpos == |rows| + 1
    {
      if distance == 0 {
        return Movement(0, 0);
      }
      AdjustTracks(Known(), |rows|, serverPos, distance);
      var d := ServerStep(|rows|, serverPos, distance).count;
      serverPos := ServerStep(|rows|, serverPos, distance).pos;
      var a := AdjustPosition(distance, d);
      match a {
        case Faulty(_, fault) => return MoveFault(fault);
        case Adjusted(_, displacement) => return Movement(d, displacement);
      }
    }

    // ---------- Random access ----------

    /** Adoption by a stateless cursor: scroll back, so as to know the position. */
    constructor AdoptStateless(rows: seq<T>, position: nat)
      requires |rows| < ALL && position <= |rows| + 1
      ensures Positioned()
      ensures this.rows == rows && serverPos == 0
    {
      this.rows := rows;
      serverPos := position;
      atEnd, pos, endpos := 0, -1, -1;
      new;
      var m := MoveRows(BACKWARD_ALL);
    }

    method Size() returns (size: int)
      requires Positioned()
      modifies this
      ensures Positioned()
      ensures size == |rows| && endpos == |rows| + 1
    {
      if endpos == -1 {
        var m := MoveRows(ALL);
      }
      return endpos - 1;
    }

    method Retrieve(begin: int, end: int) returns (r: Retrieval<T>)
      requires Positioned()
      modifies this
      ensures Positioned() && endpos == |rows| + 1
      ensures r == RetrievalOf(rows, begin, end) && (r.OutOfRange? <==> begin < 0 || begin > |rows|)
    {
      var size := Size();
      if begin < 0 || begin > size {
        return OutOfRange;
      }
      var endPos := end;
      if endPos < -1 {
        endPos := -1;
      } else if endPos > size {
        endPos := size;
      }
      if begin == endPos {
        AsWrittenClamped(rows, begin, end);
        return Retrieved([]);
      }
      var direction := if begin < endPos then 1 else -1;
      PositionedForFetch(size, serverPos, begin, endPos);
      var m := MoveRows((begin - direction) - (pos - 1));
      r := FetchUpTo(begin, endPos);
      AsWrittenClamped(rows, begin, end);
    }

    /** The fetch at the end of a retrieval, when the cursor is in its place. */
    method FetchUpTo(begin: int, e: int) returns (r: Retrieval<T>)
      requires Positioned() && endpos == |rows| + 1
      requires 0 <= begin <= |rows| && -1 <= e <= |rows| && begin != e
      requires serverPos == StartOf(|rows|, begin, e)
      modifies this
      ensures Positioned() && endpos == |rows| + 1
      ensures r == Retrieved(AsWritten(rows, begin, e))
    {
      FetchIsAsWritten(rows, begin, e);
      var f := FetchRows(e - begin);
      match f {
        case FetchFault(fault) => return RetrievalFault(fault);
        case Fetch(found, _) => return Retrieved(found);
      }
    }
  }

  function Clamp(end: int, size: nat): int {
    if end < -1 then -1 else if end > size then size else end
  }

  /** Rows begin, begin + 1, ... up to but excluding end, or begin, begin - 1, ... down to but
      excluding end; only rows that exist. */
  function Documented<T>(rows: seq<T>, begin: int, end: int): seq<T>
    requires 0 <= begin <= |rows|
  {
    var e := Clamp(end, |rows|);
    if begin <= e then rows[begin..e]
    else
      var first := if begin == |rows| then begin - 1 else begin;
      Descending(rows, first, first - e)
  }

  /** What retrieval does: it counts the one-past-end position as a row to be fetched. */
  function AsWritten<T>(rows: seq<T>, begin: int, end: int): seq<T>
    requires 0 <= begin <= |rows|
  {
    var e := Clamp(end, |rows|);
    if begin == |rows| && 0 <= e < |rows|
    then Descending(rows, |rows| - 1, |rows| - e)
    else Documented(rows, begin, end)
  }

  function RetrievalOf<T>(rows: seq<T>, begin: int, end: int): Retrieval<T> {
    if 0 <= begin <= |rows| then Retrieved(AsWritten(rows, begin, end)) else OutOfRange
  }

  /** The move before a retrieval puts the cursor on the row before the first one in its
      direction, or behind the last row. */
  lemma PositionedForFetch(n: nat, p: nat, begin: int, e: int)
    requires p <= n + 1 && 0 <= begin <= n < ALL && -1 <= e <= n && begin != e
    ensures var direction := if begin < e then 1 else -1;
            ServerStep(n, p, (begin - direction) - (p - 1)).pos == StartOf(n, begin, e)
  {
  }

  function StartOf(n: nat, begin: nat, e: int): (p: nat)
    requires begin <= n
    ensures p <= n + 1
  {
    if begin < e then begin else if begin < n then begin + 2 else n + 1
  }

  lemma FetchCount(n: nat, begin: int, e: int)
    requires 0 <= begin <= n < ALL && -1 <= e <= n && begin != e
    ensures ServerStep(n, StartOf(n, begin, e), e - begin).count
            == if begin < e then e - begin else if begin < n then begin - e else if e == -1 then n else n - e
  {
  }

  lemma AsWrittenClamped<T>(rows: seq<T>, begin: int, end: int)
    requires 0 <= begin <= |rows|
    ensures AsWritten(rows, begin, end) == AsWritten(rows, begin, Clamp(end, |rows|))
    ensures begin == Clamp(end, |rows|) ==> AsWritten(rows, begin, end) == []
  {
  }

  /** From that place, the fetch returns what AsWritten says. */
  lemma FetchIsAsWritten<T>(rows: seq<T>, begin: int, e: int)
    requires 0 <= begin <= |rows| < ALL && -1 <= e <= |rows| && begin != e
    ensures FetchedRows(rows, StartOf(|rows|, begin, e), e - begin) == AsWritten(rows, begin, e)
  {
    var n := |rows|;
    var start := StartOf(n, begin, e);
    var count := ServerStep(n, start, e - begin).count;
    FetchCount(n, begin, e);
    if begin < e {
      assert AsWritten(rows, begin, e) == rows[begin..e];
    } else if begin < n {
      assert AsWritten(rows, begin, e) == Descending(rows, begin, begin - e);
    } else if e == -1 {
      assert AsWritten(rows, begin, e) == Descending(rows, n - 1, n);
      assert count == 0 ==> Descending(rows, n - 1, 0) == [];
    } else {
      assert AsWritten(rows, begin, e) == Descending(rows, n - 1, n - e);
    }
  }

  /** Retrieval does what its documentation says exactly when it does not run backward from the
      position behind the last row to a row that exists; then it returns that row as well. */
  lemma RetrievalAsDocumentedExactlyWhen<T>(rows: seq<T>, begin: int, end: int)
    requires 0 <= begin <= |rows|
    ensures |AsWritten(rows, begin, end)| == |Documented(rows, begin, end)|
            <==> !(begin == |rows| && 0 <= end < |rows|)
    ensures AsWritten(rows, begin, end) == Documented(rows, begin, end)
            <==> !(begin == |rows| && 0 <= end < |rows|)
    ensures begin == |rows| && 0 <= end < |rows| ==>
              AsWritten(rows, begin, end) == Documented(rows, begin, end) + [rows[end]]
  {
    if begin == |rows| && 0 <= end < |rows| {
      DescendingLast(rows, |rows| - 1, |rows| - end);
      assert AsWritten(rows, begin, end) == Descending(rows, |rows| - 1, |rows| - end);
      assert Documented(rows, begin, end) == Descending(rows, |rows| - 1, |rows| - end - 1);
    } else {
      assert AsWritten(rows, begin, end) == Documented(rows, begin, end);
    }
  }

  lemma {:induction false} DescendingLast<T>(rows: seq<T>, first: int, count: nat)
    requires 0 < count <= first + 1 <= |rows|
    ensures Descending(rows, first, count) == Descending(rows, first, count - 1) + [rows[first - (count - 1)]]
  {
    if count > 1 {
      DescendingLast(rows, first - 1, count - 1);
    }
  }
}
