/** A transaction that finds out what became of it when the connection breaks during its commit.

    Before it begins, the client commits a log record; inside the transaction it deletes the
    record.  So once the transaction is over, the record is there exactly if it failed.  The
    model has the client, the server, and a link that may lose any message in either direction,
    or deliver a commit after the client has given up on the connection. */
module RobustTransactions {

  // ---------- Server and link ----------

  datatype Stage = Unbegun | Open | Committed | Aborted

  datatype Command =
    | CleanUp
    | NextId
    | InsertRecord(id: nat)
    | DeleteRecord(id: nat)
    | FindRecord(id: nat)
    | AskXid
    | AskStillRunning
    | CreateLog
    | SetConstraints
    | UserStatement
    | Begin
    | Commit
    | Rollback

  /** What happens to one message.  Done: it is processed and answered.  Deaf: it is processed,
      but the link breaks before the answer.  Lost: the link breaks before it arrives.  Late:
      the link breaks, but the message is still under way.  Refused: the server reports an
      error.  Unsent: the client fails before sending anything. */
  datatype Fate = Done | Deaf | Lost | Late | Refused | Unsent

  /** One round of chance: whether an abandoned backend acts now, whether a commit that is
      processed succeeds, whether a broken connection can be reactivated, the fate of the
      message, and whether the snapshot still covers a transaction that is over. */
  datatype Event = Event(backendActs: bool, commitSucceeds: bool, reconnects: bool, fate: Fate, stillCovered: bool)

  datatype World = World(
    linked: bool,           // the connection is open, as far as the client knows
    attached: bool,         // it is the session in which the transaction is open
    stage: Stage,           // of the transaction, at the server
    failed: bool,           // the open transaction has seen an error, and can only roll back
    stuck: bool,            // a ROLLBACK was refused, or not sent, in the open transaction
    work: nat,              // the user's statements executed in the transaction
    commitUnderWay: bool,   // a commit may yet reach the abandoned backend
    records: set<nat>,      // committed log records
    inserted: set<nat>,     // log records inserted, and deleted, by the open transaction
    deleted: set<nat>,
    sequence: nat,          // the last record number handed out
    script: seq<Event>)

  datatype Reply = Ok(answer: nat) | SqlError | Broken | LocalError

  datatype Step = Step(world: World, reply: Reply)

  const UNEVENTFUL := Event(false, true, true, Done, false)

  function Chance(w: World): Event {
    if w.script == [] then UNEVENTFUL else w.script[0]
  }

  function Pass(w: World): World {
    w.(script := if w.script == [] then [] else w.script[1..])
  }

  function Ended(w: World, success: bool): World {
    w.(stage := if success then Committed else Aborted, attached := false, failed := false, commitUnderWay := false,
       work := if success then w.work else 0,
       records := if success then w.records + w.inserted - w.deleted else w.records, inserted := {}, deleted := {})
  }

  /** The backend of a broken session commits if a commit reaches it, or else gives up. */
  function BackendActs(w: World, e: Event): World {
    if e.backendActs && w.stage == Open && !w.attached
    then Ended(w, w.commitUnderWay && e.commitSucceeds && !w.failed) else w
  }

  /** The server processes a command in the client's session. */
  function Process(w: World, c: Command, e: Event): Step {
    if w.attached && w.failed && !c.Commit? && !c.Rollback? then Step(w, SqlError)
    else match c
    case CleanUp => Step(w, Ok(0))
    case NextId => Step(w.(sequence := w.sequence + 1), Ok(w.sequence + 1))
    case InsertRecord(id) =>
      Step(if w.attached then w.(inserted := w.inserted + {id}) else w.(records := w.records + {id}), Ok(0))
    case DeleteRecord(id) =>
      Step(if w.attached then w.(deleted := w.deleted + {id}) else w.(records := w.records - {id}), Ok(0))
    case FindRecord(id) => Step(w, Ok(if id in w.records then 1 else 0))
    case AskXid => Step(w, Ok(0))
    case AskStillRunning => Step(w, Ok(if w.stage == Open || e.stillCovered then 1 else 0))
    case CreateLog => Step(w, Ok(0))
    case SetConstraints => Step(w, Ok(0))
    case UserStatement => Step(if w.attached then w.(work := w.work + 1) else w, Ok(0))
    case Begin =>
      // Inside a transaction this draws a warning only.
      if w.attached then Step(w, Ok(0))
      else Step(w.(stage := Open, attached := true, failed := false, stuck := false, work := 0, commitUnderWay := false,
                      inserted := {}, deleted := {}), Ok(0))
    case Commit =>
      // Outside a transaction this draws a warning only.  A failed transaction is rolled back,
      // which is not reported as an error.
      if !w.attached then Step(w, Ok(0))
      else if w.failed then Step(Ended(w, false), Ok(0))
      else Step(Ended(w, e.commitSucceeds), if e.commitSucceeds then Ok(0) else SqlError)
    case Rollback => Step(if w.attached then Ended(w, false) else w, Ok(0))
  }

  function Unlinked(w: World): World {
    w.(linked := false, attached := false)
  }

  function Stuck(w: World, c: Command): World {
    w.(stuck := w.stuck || (c.Rollback? && w.attached))
  }

  /** Send one command and wait for its answer, on a connection that is open. */
  function Send(w: World, c: Command, e: Event): Step {
    match e.fate
    case Done => Process(w, c, e)
    case Deaf => Step(Unlinked(Process(w, c, e).world), Broken)
    case Lost => Step(Unlinked(w), Broken)
    case Late => Step(Unlinked(w).(commitUnderWay := w.commitUnderWay || (c.Commit? && w.attached)), Broken)
    case Refused =>
      if c.Commit? && w.attached then Step(Ended(w, false), SqlError)
      else Step(Stuck(w, c).(failed := w.failed || w.attached), SqlError)
    case Unsent => Step(Stuck(w, c), LocalError)
  }

  /** One attempt to execute a command, activating the connection first if need be. */
  function Attempt(w: World, c: Command): Step {
    var e := Chance(w);
    var w1 := BackendActs(Pass(w), e);
    if !w1.linked && !e.reconnects then Step(w1, Broken) else Send(w1.(linked := true), c, e)
  }

  /** Is the connection open, or can be reactivated? */
  predicate Reachable(w: World) {
    BackendActs(Pass(w), Chance(w)).linked || Chance(w).reconnects
  }

  /** Try again in a new session for as long as the connection breaks and retries are left; but not
      if it could not be reactivated.  That is how the loop reads.  In fact it is never entered, as
      making a result of a missing reply throws (see Sessions); this is the case in which the
      connection could not be reactivated. */
  function Exec(w: World, c: Command, retries: nat): Step
    decreases retries
  {
    var s := Attempt(w, c);
    if s.reply.Broken? && Reachable(w) && retries > 0 then Exec(s.world, c, retries - 1) else s
  }

  // ---------- Client ----------

  datatype Status = Nascent | Active | StCommitted | StAborted | InDoubt

  datatype Outcome = Returned | Threw | ThrewInDoubt

  /** What the transaction object remembers. */
  datatype Client = Client(status: Status, recordId: nat)

  /** The state after an operation, and how it ended. */
  datatype Result = Result(world: World, client: Client, outcome: Outcome)

  function ThenUnlessThrown(s: Step, c: Client): Result {
    Result(s.world, c, if s.reply.Ok? then Returned else Threw)
  }

  function CreateTransactionRecord(w: World, c: Client): Result {
    var cleaned := Exec(w, CleanUp, 0);
    if !cleaned.reply.Ok? then Result(cleaned.world, c, Threw)
    else
      var id := Exec(cleaned.world, NextId, 0);
      if !id.reply.Ok? then Result(id.world, c, Threw)
      else
        var c1 := c.(recordId := id.reply.answer);
        ThenUnlessThrown(Exec(id.world, InsertRecord(c1.recordId), 0), c1)
  }

  /** BEGIN, delete the record inside the transaction, and ask for the transaction's number. */
  function BeginAndDelete(w: World, c: Client): Result {
    var begun := Exec(w, Begin, 2);
    if !begun.reply.Ok? then Result(begun.world, c, Threw)
    else
      var deleted := Exec(begun.world, DeleteRecord(c.recordId), 0);
      if !deleted.reply.Ok? then Result(deleted.world, c, Threw)
      else ThenUnlessThrown(Exec(deleted.world, AskXid, 0), c)
  }

  /** Nothing comes of it if the log cannot be created; perhaps it is there already. */
  function LogPrepared(w: World): World {
    var rolledBack := Exec(w, Rollback, 0);
    var table := Exec(rolledBack.world, CreateLog, 1);
    Exec(table.world, CreateLog, 0).world
  }

  /** Without a record, perhaps for want of a log: create the log, begin a transaction, and create
      the record in there. */
  function PrepareLog(w: World, c: Client): Result {
    var begun := Exec(LogPrepared(w), Begin, 2);
    if !begun.reply.Ok? then Result(begun.world, c, Threw) else CreateTransactionRecord(begun.world, c)
  }

  function DoBegin(w: World, c: Client): Result {
    var created := CreateTransactionRecord(w, c);
    if created.outcome == Returned then BeginAndDelete(created.world, created.client)
    else
      var prepared := PrepareLog(created.world, created.client);
      if prepared.outcome == Returned then BeginAndDelete(prepared.world, prepared.client) else prepared
  }

  function DeleteTransactionRecord(w: World, c: Client): Result {
    if c.recordId == 0 then Result(w, c, Returned)
    else
      var s := Exec(w, DeleteRecord(c.recordId), 20);
      Result(s.world, if s.reply.Ok? then c.(recordId := 0) else c, Returned)
  }

  function DoAbort(w: World, c: Client): Result {
    var s := Exec(w, Rollback, 0);
    if !s.reply.Ok? then Result(s.world, c, Threw) else DeleteTransactionRecord(s.world, c)
  }

  datatype Check = Check(world: World, verdict: Verdict)
  datatype Verdict = Exists | Absent | Unknown

  /** Wait until the old backend is through with the transaction; then look for the record. */
  function CheckTransactionRecord(w: World, c: Client, tries: nat): Check
    decreases tries
  {
    if tries == 0 then Check(w, Unknown)
    else
      var s := Exec(w, AskStillRunning, 0);
      if !s.reply.Ok? then Check(s.world, Unknown)
      else if s.reply.answer != 0 then CheckTransactionRecord(s.world, c, tries - 1)
      else
        var found := Exec(s.world, FindRecord(c.recordId), 20);
        Check(found.world, if !found.reply.Ok? then Unknown else if found.reply.answer != 0 then Exists else Absent)
  }

  /** Abort, and throw whatever happens. */
  function AbortAndThrow(w: World, c: Client): Result {
    DoAbort(w, c).(outcome := Threw)
  }

  function ResolveDoubt(w: World, c: Client): Result {
    var check := CheckTransactionRecord(w, c, 20);
    match check.verdict
    case Unknown => Result(check.world, c, ThrewInDoubt)
    case Exists => AbortAndThrow(check.world, c)
    case Absent => Result(check.world, c, Returned)
  }

  function DoCommit(w: World, c: Client): Result {
    if c.recordId == 0 then Result(w, c, Threw)
    else
      var constraints := Exec(w, SetConstraints, 0);
      if !constraints.reply.Ok? then AbortAndThrow(constraints.world, c)
      else
        var s := Exec(constraints.world, Commit, 0);
        if s.reply.Ok? then Result(s.world, c.(recordId := 0), Returned)
        else if s.reply.Broken? || !s.world.linked then ResolveDoubt(s.world, c)
        else AbortAndThrow(s.world, c)
  }

  /** The status machine around it. */
  function CommitTransaction(w: World, c: Client): Result {
    match c.status
    case Nascent => Result(w, c, Returned)
    case StAborted => Result(w, c, Threw)
    case StCommitted => Result(w, c, Returned)
    case InDoubt => Result(w, c, ThrewInDoubt)
    case Active =>
      if !w.linked then Result(w, c, Threw)
      else
        var r := DoCommit(w, c);
        r.(client := r.client.(status := match r.outcome
                                         case Returned => StCommitted
                                         case Threw => StAborted
                                         case ThrewInDoubt => InDoubt))
  }

  function AbortTransaction(w: World, c: Client): Result {
    match c.status
    case Nascent => Result(w, c.(status := StAborted), Returned)
    case StAborted => Result(w, c, Returned)
    case StCommitted => Result(w, c, Threw)
    case InDoubt => Result(w, c, Returned)
    case Active =>
      var r := DoAbort(w, c);
      Result(r.world, r.client.(status := StAborted), Returned)
  }

  /** A call that executes nothing, but looks for input: for notifications, or for lines to copy.  It
      may find the connection broken. */
  function Look(w: World, c: Client): Result {
    var e := Chance(w);
    var w1 := BackendActs(Pass(w), e);
    if !w.linked then Result(w, c, Returned)
    else if e.fate in {Deaf, Lost, Late} then Result(Unlinked(w1), c, Threw)
    else Result(w1, c, Returned)
  }

  /** Begin the transaction.  If that fails it may be tried again; and nothing is rolled back. */
  function BeginTransaction(w: World, c: Client): Result {
    var looked := Look(w, c);
    if looked.outcome != Returned then looked
    else
      var r := DoBegin(looked.world, c);
      if r.outcome == Returned then r.(client := r.client.(status := Active)) else r
  }

  /** Have the transaction begun. */
  function ActivateTransaction(w: World, c: Client): Result {
    match c.status
    case Nascent => BeginTransaction(w, c)
    case Active => Result(w, c, Returned)
    case _ => Result(w, c, Threw)
  }

  /** A statement executed by the transaction: if it fails, the transaction aborts. */
  function ExecStatement(w: World, c: Client): Result {
    var active := ActivateTransaction(w, c);
    if active.outcome != Returned then active else ExecActive(active.world, active.client)
  }

  function ExecActive(w: World, c: Client): Result {
    var s := Exec(w, UserStatement, 0);
    if s.reply.Ok? then Result(s.world, c, Returned)
    else AbortTransaction(s.world, c).(outcome := Threw)
  }

  /** A statement that is executed by the connection, past the transaction object: a prepared or a
      parameterized one, that of a cursor or a pipeline, the end of copying, or one to set or get a
      variable.  If it fails, the object does not get to know. */
  function ExecDirect(w: World, c: Client): Result {
    ThenUnlessThrown(Exec(w, UserStatement, 0), c)
  }

  /** A call that executes nothing, but has the connection reactivated, such as to quote a name. */
  function Reactivate(w: World, c: Client): Result {
    var e := Chance(w);
    var w1 := BackendActs(Pass(w), e);
    if w.linked then Result(w, c, Returned)
    else if !e.reconnects then Result(w1, c, Threw)
    else Result(w1.(linked := true), c, Returned)
  }

  // ---------- What holds of every message ----------

  /** The client is in the session of the open transaction. */
  predicate InSession(w: World) {
    w.linked && w.attached && w.stage == Open && !w.commitUnderWay
  }

  /** The transaction has not committed, and no commit is on its way to it. */
  predicate Dead(w: World) {
    w.stage != Committed && !w.commitUnderWay
  }

  /** The record tells how the transaction ended, or will end. */
  predicate Tied(w: World, id: nat) {
    && (w.attached || w.commitUnderWay ==> w.stage == Open)
    && match w.stage
       case Unbegun => false
       case Open => id in w.records && id in w.deleted
       case Committed => id !in w.records
       case Aborted => id in w.records
  }

  /** The commands that neither begin nor touch the log. */
  predicate Plain(c: Command) {
    !c.Begin? && !c.InsertRecord? && !c.DeleteRecord?
  }

  /** The transaction is open in the session at the other end of an open connection. */
  predicate Armed(w: World, id: nat) {
    InSession(w) && Tied(w, id)
  }

  /** The session of the transaction is gone, unnoticed by the transaction object. */
  predicate Strayed(w: World, id: nat) {
    !w.attached && Dead(w) && Tied(w, id)
  }

  lemma {:induction false} ExecStaysDead(w: World, c: Command, retries: nat)
    requires Dead(w) && (c.Commit? ==> !w.attached)
    ensures Dead(Exec(w, c, retries).world)
    ensures !w.attached && !c.Begin? ==> !Exec(w, c, retries).world.attached
    decreases retries
  {
    var e := Chance(w);
    var w1 := BackendActs(Pass(w), e);
    SendStaysDead(w1.(linked := true), c, e);
    var s := Attempt(w, c);
    if s.reply.Broken? && retries > 0 {
      ExecStaysDead(s.world, c, retries - 1);
    }
  }

  lemma ProcessStaysDead(w: World, c: Command, e: Event)
    requires Dead(w) && (c.Commit? ==> !w.attached)
    ensures Dead(Process(w, c, e).world)
    ensures !w.attached && !c.Begin? ==> !Process(w, c, e).world.attached
    ensures !Process(w, c, e).reply.Broken?
  {
  }

  lemma SendStaysDead(w: World, c: Command, e: Event)
    requires Dead(w) && (c.Commit? ==> !w.attached)
    ensures Dead(Send(w, c, e).world)
    ensures !w.attached && !c.Begin? ==> !Send(w, c, e).world.attached
    ensures Send(w, c, e).reply.Broken? ==> !Send(w, c, e).world.attached
  {
    ProcessStaysDead(w, c, e);
  }

  lemma {:induction false} ExecStaysTied(w: World, c: Command, retries: nat, id: nat)
    requires Tied(w, id) && Plain(c)
    ensures Tied(Exec(w, c, retries).world, id)
    ensures w.stage in {Committed, Aborted} ==> Exec(w, c, retries).world.stage == w.stage
    decreases retries
  {
    var e := Chance(w);
    var w1 := BackendActs(Pass(w), e);
    assert Tied(w1, id);
    SendStaysTied(w1.(linked := true), c, e, id);
    var s := Attempt(w, c);
    if s.reply.Broken? && retries > 0 {
      ExecStaysTied(s.world, c, retries - 1, id);
    }
  }

  lemma ProcessStaysTied(w: World, c: Command, e: Event, id: nat)
    requires Tied(w, id) && Plain(c)
    ensures Tied(Process(w, c, e).world, id)
    ensures w.stage in {Committed, Aborted} ==> Process(w, c, e).world.stage == w.stage
  {
  }

  lemma SendStaysTied(w: World, c: Command, e: Event, id: nat)
    requires Tied(w, id) && Plain(c)
    ensures Tied(Send(w, c, e).world, id)
    ensures w.stage in {Committed, Aborted} ==> Send(w, c, e).world.stage == w.stage
  {
    ProcessStaysTied(w, c, e, id);
    LossStaysTied(w, c, id);
    LossStaysTied(Process(w, c, e).world, c, id);
  }

  lemma LossStaysTied(w: World, c: Command, id: nat)
    requires Tied(w, id)
    ensures Tied(Unlinked(w), id)
    ensures c.Commit? && w.attached ==> Tied(Unlinked(w).(commitUnderWay := true), id) && Tied(Ended(w, false), id)
    ensures Tied(Stuck(w, c), id) && Tied(Stuck(w, c).(failed := w.failed || w.attached), id)
  {
  }

  /** A statement in an armed transaction leaves it armed unless the connection breaks. */
  lemma ExecStaysArmed(w: World, c: Command, id: nat)
    requires Armed(w, id) && (c.SetConstraints? || c.UserStatement?)
    ensures var s := Exec(w, c, 0);
            && (if s.reply.Broken? then Strayed(s.world, id) else Armed(s.world, id))
            && (s.reply.Ok? ==> !s.world.failed)
  {
  }

  lemma ExecStaysStrayed(w: World, c: Command, id: nat)
    requires Strayed(w, id) && Plain(c)
    ensures Strayed(Exec(w, c, 0).world, id)
  {
    ExecStaysDead(w, c, 0);
    ExecStaysTied(w, c, 0, id);
  }

  // ---------- Aborting ----------

  lemma AbortStaysDead(w: World, c: Client)
    requires Dead(w)
    ensures Dead(DoAbort(w, c).world)
  {
    ExecStaysDead(w, Rollback, 0);
    var s := Exec(w, Rollback, 0);
    if s.reply.Ok? && c.recordId != 0 {
      ExecStaysDead(s.world, DeleteRecord(c.recordId), 20);
    }
  }

  /** A ROLLBACK that is answered ends the transaction; one whose answer does not come has lost the
      session.  Only if it was refused, or not sent, is the transaction still open in its session. */
  lemma RollbackEnds(w: World)
    requires w.attached ==> w.linked
    ensures var s := Exec(w, Rollback, 0);
            && (s.reply.Ok? && w.attached ==> s.world.stage == Aborted)
            && (s.world.attached <==> w.attached && s.reply in {SqlError, LocalError})
            && (s.world.attached ==> s.world.stuck)
  {
    var e := Chance(w);
    SendRollback(BackendActs(Pass(w), e).(linked := true), e);
  }

  lemma SendRollback(w: World, e: Event)
    ensures var s := Send(w, Rollback, e);
            && (s.reply.Ok? && w.attached ==> s.world.stage == Aborted)
            && (s.world.attached <==> w.attached && s.reply in {SqlError, LocalError})
            && (s.world.attached ==> s.world.stuck)
  {
  }

  lemma SendAfterEnd(w: World, c: Command, e: Event)
    requires !w.attached && !c.Begin?
    ensures !Send(w, c, e).world.attached && Send(w, c, e).world.stage == w.stage
  {
  }

  /** Without a transaction in the session, it takes a BEGIN to open one; and what is over stays as it
      ended. */
  lemma {:induction false} ExecAfterEnd(w: World, c: Command, retries: nat)
    requires !w.attached && !c.Begin?
    ensures var v := Exec(w, c, retries).world; !v.attached && (w.stage != Open ==> v.stage == w.stage)
    decreases retries
  {
    var e := Chance(w);
    SendAfterEnd(BackendActs(Pass(w), e).(linked := true), c, e);
    var s := Attempt(w, c);
    if s.reply.Broken? && retries > 0 {
      ExecAfterEnd(s.world, c, retries - 1);
    }
  }

  /** An abort leaves the transaction open only if its ROLLBACK was refused, or not sent. */
  lemma AbortDetaches(w: World, c: Client)
    requires w.attached ==> w.linked
    ensures var r, s := DoAbort(w, c), Exec(w, Rollback, 0);
            && (s.reply.Ok? && w.attached ==> r.world.stage == Aborted)
            && (r.world.attached <==> w.attached && s.reply in {SqlError, LocalError})
            && (r.world.attached ==> r.world.stuck)
  {
    RollbackEnds(w);
    var s := Exec(w, Rollback, 0);
    if s.reply.Ok? && c.recordId != 0 {
      ExecAfterEnd(s.world, DeleteRecord(c.recordId), 20);
    }
  }

  /** To abort a transaction in its session rolls it back, if the server answers; and unless it refuses,
      or nothing is sent, the transaction is not in the session any more. */
  lemma AbortRollsBack(w: World, c: Client)
    requires c.status == Active && InSession(w)
    ensures var r, reply := AbortTransaction(w, c), Exec(w, Rollback, 0).reply;
            && r.outcome == Returned && r.client.status == StAborted && Dead(r.world)
            && (reply.Ok? ==> r.world.stage == Aborted)
            && (r.world.attached <==> reply in {SqlError, LocalError}) && (r.world.attached ==> r.world.stuck)
  {
    AbortDetaches(w, c);
    AbortStaysDead(w, c);
  }

  /** Outside a transaction a record is gone when its deletion is answered. */
  lemma {:induction false} ExecDeletes(w: World, id: nat, retries: nat)
    requires !w.attached
    ensures Exec(w, DeleteRecord(id), retries).reply.Ok? ==> id !in Exec(w, DeleteRecord(id), retries).world.records
    decreases retries
  {
    var s := Attempt(w, DeleteRecord(id));
    SendAfterEnd(BackendActs(Pass(w), Chance(w)).(linked := true), DeleteRecord(id), Chance(w));
    if s.reply.Broken? && retries > 0 {
      ExecDeletes(s.world, id, retries - 1);
    }
  }

  /** An abort forgets the record exactly if its ROLLBACK was answered, and its deletion was, in one of
      21 attempts at most; and then the record is gone. */
  lemma AbortForgetsExactlyWhen(w: World, c: Client)
    requires c.status == Active && InSession(w) && c.recordId > 0
    ensures var r, rolledBack := AbortTransaction(w, c), Exec(w, Rollback, 0);
            && (r.client.recordId == 0 <==>
                  rolledBack.reply.Ok? && Exec(rolledBack.world, DeleteRecord(c.recordId), 20).reply.Ok?)
            && (if r.client.recordId == 0 then c.recordId !in r.world.records else r.client.recordId == c.recordId)
  {
    RollbackEnds(w);
    var rolledBack := Exec(w, Rollback, 0);
    if rolledBack.reply.Ok? {
      ExecDeletes(rolledBack.world, c.recordId, 20);
    }
  }

  // ---------- What was done ----------

  /** As long as the transaction may have been committed, its statements have been executed. */
  predicate Worked(w: World, n: nat) {
    (w.attached ==> w.stage == Open) && (w.stage in {Open, Committed} ==> w.work == n)
  }

  lemma SendKeepsWork(w: World, c: Command, e: Event, n: nat)
    requires Worked(w, n) && !c.Begin? && !c.UserStatement?
    ensures Worked(Send(w, c, e).world, n)
  {
    ProcessKeepsWork(w, c, e, n);
  }

  lemma ProcessKeepsWork(w: World, c: Command, e: Event, n: nat)
    requires Worked(w, n) && !c.Begin? && !c.UserStatement?
    ensures Worked(Process(w, c, e).world, n) && Worked(Unlinked(Process(w, c, e).world), n)
  {
  }

  lemma {:induction false} ExecKeepsWork(w: World, c: Command, retries: nat, n: nat)
    requires Worked(w, n) && !c.Begin? && !c.UserStatement?
    ensures Worked(Exec(w, c, retries).world, n)
    decreases retries
  {
    var e := Chance(w);
    SendKeepsWork(BackendActs(Pass(w), e).(linked := true), c, e, n);
    var s := Attempt(w, c);
    if s.reply.Broken? && retries > 0 {
      ExecKeepsWork(s.world, c, retries - 1, n);
    }
  }

  lemma {:induction false} CheckKeepsWork(w: World, c: Client, tries: nat, n: nat)
    requires Worked(w, n)
    ensures Worked(CheckTransactionRecord(w, c, tries).world, n)
    decreases tries
  {
    if tries > 0 {
      var s := Exec(w, AskStillRunning, 0);
      ExecKeepsWork(w, AskStillRunning, 0, n);
      ExecKeepsWork(s.world, FindRecord(c.recordId), 20, n);
      CheckKeepsWork(s.world, c, tries - 1, n);
    }
  }

  // ---------- The check ----------

  /** The last time that the server is asked whether the transaction is still running. */
  function Polled(w: World, tries: nat): Step
    decreases tries
  {
    var s := Exec(w, AskStillRunning, 0);
    if s.reply.Ok? && s.reply.answer != 0 && tries > 1 then Polled(s.world, tries - 1) else s
  }

  /** The verdict, in terms of the messages: it is unknown exactly if a question was not answered, or
      the transaction was still running whenever that was asked; or else it is how the transaction
      ended. */
  lemma {:induction false} VerdictExactlyWhen(w: World, c: Client, tries: nat)
    requires Tied(w, c.recordId) && !w.attached && tries > 0
    ensures var verdict, p := CheckTransactionRecord(w, c, tries).verdict, Polled(w, tries);
            var f := Exec(p.world, FindRecord(c.recordId), 20);
            && (verdict == Unknown <==> p.reply != Ok(0) || !f.reply.Ok?)
            && (verdict == Exists <==> p.reply == Ok(0) && f.reply.Ok? && f.world.stage == Aborted)
            && (verdict == Absent <==> p.reply == Ok(0) && f.reply.Ok? && f.world.stage == Committed)
    decreases tries
  {
    var s := Exec(w, AskStillRunning, 0);
    ExecStaysTied(w, AskStillRunning, 0, c.recordId);
    AskLeavesDetached(w);
    if s.reply == Ok(0) {
      FindIsRight(s.world, c.recordId, 20);
    } else if s.reply.Ok? && tries > 1 {
      VerdictExactlyWhen(s.world, c, tries - 1);
    }
  }

  /** The check's verdict is right: the transaction is over by then, and the record is there
      exactly if it failed. */
  lemma {:induction false} VerdictIsRight(w: World, c: Client, tries: nat)
    requires Tied(w, c.recordId) && !w.attached
    ensures var check := CheckTransactionRecord(w, c, tries);
            && (check.verdict == Exists ==> check.world.stage == Aborted && Dead(check.world) && !check.world.attached)
            && (check.verdict == Absent ==> check.world.stage == Committed)
            && (Dead(w) ==> Dead(check.world))
    decreases tries
  {
    if tries > 0 {
      var s := Exec(w, AskStillRunning, 0);
      ExecStaysTied(w, AskStillRunning, 0, c.recordId);
      AskLeavesDetached(w);
      if Dead(w) { ExecStaysDead(w, AskStillRunning, 0); }
      if s.reply.Ok? {
        if s.reply.answer != 0 {
          VerdictIsRight(s.world, c, tries - 1);
        } else {
          FindIsRight(s.world, c.recordId, 20);
          ExecAfterEnd(s.world, FindRecord(c.recordId), 20);
          if Dead(w) { ExecStaysDead(s.world, FindRecord(c.recordId), 20); }
        }
      }
    }
  }

  lemma AskLeavesDetached(w: World)
    requires !w.attached
    ensures var s := Exec(w, AskStillRunning, 0);
            !s.world.attached && (s.reply == Ok(0) ==> s.world.stage != Open)
  {
  }

  lemma {:induction false} FindIsRight(w: World, id: nat, retries: nat)
    requires Tied(w, id) && w.stage != Open
    ensures var s := Exec(w, FindRecord(id), retries);
            && s.world.stage == w.stage && Tied(s.world, id)
            && (s.reply.Ok? ==> s.reply.answer == if w.stage == Aborted then 1 else 0)
    decreases retries
  {
    var s := Attempt(w, FindRecord(id));
    if s.reply.Broken? && retries > 0 {
      FindIsRight(s.world, id, retries - 1);
    }
  }

  // ---------- Beginning ----------

  /** Record numbers in use have been handed out. */
  predicate Numbered(w: World) {
    && (forall r :: r in w.records ==> r <= w.sequence)
    && (forall r :: r in w.inserted ==> r <= w.sequence)
    && (forall r :: r in w.deleted ==> r <= w.sequence)
  }

  /** A connection on which a transaction may be begun.  The session may still have a transaction
      open, left over from an earlier attempt to begin one. */
  predicate Ready(w: World) {
    (w.attached ==> InSession(w)) && Numbered(w)
  }

  predicate Known(c: Command, w: World) {
    (c.InsertRecord? || c.DeleteRecord?) ==> c.id <= w.sequence
  }

  lemma ProcessStaysReady(w: World, c: Command, e: Event)
    requires Ready(w) && Known(c, w) && w.linked
    ensures Ready(Process(w, c, e).world) && Process(w, c, e).world.sequence >= w.sequence
  {
  }

  lemma SendStaysReady(w: World, c: Command, e: Event)
    requires Ready(w) && Known(c, w) && w.linked
    ensures Ready(Send(w, c, e).world) && Send(w, c, e).world.sequence >= w.sequence
  {
    ProcessStaysReady(w, c, e);
    LossStaysReady(w, c);
    LossStaysReady(Process(w, c, e).world, c);
  }

  lemma LossStaysReady(w: World, c: Command)
    requires Ready(w)
    ensures Ready(Unlinked(w)) && Ready(Unlinked(w).(commitUnderWay := true)) && Ready(Ended(w, false))
    ensures Ready(Stuck(w, c)) && Ready(Stuck(w, c).(failed := w.failed || w.attached))
  {
  }

  lemma BackendStaysReady(w: World, e: Event)
    requires Ready(w)
    ensures Ready(BackendActs(w, e)) && BackendActs(w, e).sequence == w.sequence
  {
  }

  lemma {:induction false} ExecStaysReady(w: World, c: Command, retries: nat)
    requires Ready(w) && Known(c, w)
    ensures Ready(Exec(w, c, retries).world) && Exec(w, c, retries).world.sequence >= w.sequence
    decreases retries
  {
    var e := Chance(w);
    var w1 := BackendActs(Pass(w), e);
    BackendStaysReady(Pass(w), e);
    SendStaysReady(w1.(linked := true), c, e);
    var s := Attempt(w, c);
    if s.reply.Broken? && retries > 0 {
      ExecStaysReady(s.world, c, retries - 1);
    }
  }

  /** A number newly handed out has not been used. */
  lemma NextIsFresh(w: World)
    requires Ready(w)
    ensures var s := Exec(w, NextId, 0);
            s.reply.Ok? ==>
              var id, v := s.reply.answer, s.world;
              id > 0 && id == v.sequence && id !in v.records && id !in v.inserted && id !in v.deleted
  {
  }

  lemma CreateStaysReady(w: World, c: Client)
    requires Ready(w) && c.recordId <= w.sequence
    ensures var r := CreateTransactionRecord(w, c);
            && Ready(r.world) && r.client.recordId <= r.world.sequence && r.world.sequence >= w.sequence
            && r.client.status == c.status
  {
    ExecStaysReady(w, CleanUp, 0);
    var cleaned := Exec(w, CleanUp, 0);
    if cleaned.reply.Ok? {
      ExecStaysReady(cleaned.world, NextId, 0);
      NextIsFresh(cleaned.world);
      var next := Exec(cleaned.world, NextId, 0);
      if next.reply.Ok? {
        ExecStaysReady(next.world, InsertRecord(next.reply.answer), 0);
      }
    }
  }

  lemma BeginAndDeleteStaysReady(w: World, c: Client)
    requires Ready(w) && c.recordId <= w.sequence
    ensures var r := BeginAndDelete(w, c); Ready(r.world) && c.recordId <= r.world.sequence && r.client == c
  {
    ExecStaysReady(w, Begin, 2);
    var v := Exec(w, Begin, 2).world;
    ExecStaysReady(v, DeleteRecord(c.recordId), 0);
    ExecStaysReady(Exec(v, DeleteRecord(c.recordId), 0).world, AskXid, 0);
  }

  lemma LogPreparedIsReady(w: World)
    requires Ready(w)
    ensures Ready(LogPrepared(w)) && LogPrepared(w).sequence >= w.sequence
  {
    ExecStaysReady(w, Rollback, 0);
    var v := Exec(w, Rollback, 0).world;
    ExecStaysReady(v, CreateLog, 1);
    ExecStaysReady(Exec(v, CreateLog, 1).world, CreateLog, 0);
  }

  /** An attempt to begin leaves a connection on which there can be another. */
  lemma BeginStaysReady(w: World, c: Client)
    requires Ready(w) && c.recordId <= w.sequence
    ensures var r := DoBegin(w, c);
            Ready(r.world) && r.client.recordId <= r.world.sequence && r.client.status == c.status
  {
    var created := CreateTransactionRecord(w, c);
    CreateStaysReady(w, c);
    if created.outcome == Returned {
      BeginAndDeleteStaysReady(created.world, created.client);
    } else {
      LogPreparedIsReady(created.world);
      var v := LogPrepared(created.world);
      ExecStaysReady(v, Begin, 2);
      var begun := Exec(v, Begin, 2);
      if begun.reply.Ok? {
        CreateStaysReady(begun.world, created.client);
        var inner := CreateTransactionRecord(begun.world, created.client);
        BeginAndDeleteStaysReady(inner.world, inner.client);
      }
    }
  }

  /** The log record is committed, and no transaction holds on to it. */
  predicate Recorded(w: World, id: nat) {
    id in w.records && id !in w.deleted && !w.attached
  }

  lemma SendStaysDetached(w: World, c: Command, e: Event, id: nat)
    requires !w.attached && !c.Begin? && id !in w.deleted && w.linked
    ensures var s := Send(w, c, e);
            !s.world.attached && (c == InsertRecord(id) && s.reply.Ok? ==> Recorded(s.world, id))
  {
  }

  lemma BackendStaysDetached(w: World, e: Event, id: nat)
    requires !w.attached && id !in w.deleted
    ensures !BackendActs(w, e).attached && id !in BackendActs(w, e).deleted
  {
  }

  lemma ExecStaysDetached(w: World, c: Command, id: nat)
    requires !w.attached && !c.Begin? && id !in w.deleted
    ensures var s := Exec(w, c, 0);
            !s.world.attached && (c == InsertRecord(id) && s.reply.Ok? ==> Recorded(s.world, id))
  {
    var e := Chance(w);
    BackendStaysDetached(Pass(w), e, id);
    SendStaysDetached(BackendActs(Pass(w), e).(linked := true), c, e, id);
  }

  lemma {:induction false} BeginAttaches(w: World, retries: nat, id: nat)
    requires Recorded(w, id)
    ensures var s := Exec(w, Begin, retries);
            s.reply.Ok? ==> InSession(s.world) && id in s.world.records && s.world.work == 0
    decreases retries
  {
    var s := Attempt(w, Begin);
    if s.reply.Broken? && retries > 0 {
      BeginAttaches(s.world, retries - 1, id);
    }
  }

  lemma DeleteArms(w: World, id: nat)
    requires InSession(w) && id in w.records
    ensures var s := Exec(w, DeleteRecord(id), 0); s.reply.Ok? ==> Armed(s.world, id) && s.world.work == w.work
  {
  }

  /** The record is created first, in a session without a transaction. */
  predicate RecordedFirst(w: World, c: Client) {
    !w.attached && CreateTransactionRecord(w, c).outcome == Returned
  }

  /** A transaction whose record was created first is armed when it has begun. */
  lemma BeginArms(w: World, c: Client)
    requires Ready(w) && RecordedFirst(w, c)
    ensures var r := DoBegin(w, c);
            r.outcome == Returned ==> r.client.recordId > 0 && Armed(r.world, r.client.recordId) && r.world.work == 0
  {
    var cleaned := Exec(w, CleanUp, 0);
    ExecStaysReady(w, CleanUp, 0);
    ExecStaysDetached(w, CleanUp, w.sequence + 1);
    var next := Exec(cleaned.world, NextId, 0);
    NextIsFresh(cleaned.world);
    ExecStaysDetached(cleaned.world, NextId, cleaned.world.sequence + 1);
    var id := next.reply.answer;
    ExecStaysDetached(next.world, InsertRecord(id), id);
    var created := Exec(next.world, InsertRecord(id), 0);
    var begun := Exec(created.world, Begin, 2);
    BeginAttaches(created.world, 2, id);
    if begun.reply.Ok? {
      DeleteArms(begun.world, id);
      var deleted := Exec(begun.world, DeleteRecord(id), 0);
      if deleted.reply.Ok? {
        AskXidStaysArmed(deleted.world, id);
      }
    }
  }

  lemma AskXidStaysArmed(w: World, id: nat)
    requires Armed(w, id)
    ensures var s := Exec(w, AskXid, 0); s.reply.Ok? ==> Armed(s.world, id) && s.world.work == w.work
  {
  }

  // ---------- Committing ----------

  lemma CommitMessage(w: World, id: nat)
    requires Armed(w, id) && !w.failed
    ensures var s := Exec(w, Commit, 0);
            && Tied(s.world, id)
            && (s.reply.Ok? ==> s.world.stage == Committed && !s.world.attached)
            && (s.reply.Broken? ==> !s.world.attached)
            && (!s.reply.Ok? && !s.reply.Broken? ==> Dead(s.world) && s.world.linked)
  {
  }

  /** The robust commit.  In an armed transaction, a normal return means that the server has
      committed all that was done; any exception but "in doubt" means that it never will, and that
      the session is rid of the transaction unless a ROLLBACK was refused, or not sent.  Which of
      the three it is depends on the messages: in doubt are exactly the commits whose connection
      broke and whose check was not answered, or not in time. */
  lemma CommitIsSafe(w: World, c: Client)
    requires Armed(w, c.recordId) && c.recordId > 0
    ensures var r := DoCommit(w, c);
            && (r.outcome == Returned ==> r.world.stage == Committed && !r.world.attached && r.world.work == w.work)
            && (r.outcome == Threw ==> Dead(r.world) && (r.world.attached ==> r.world.stuck))
    ensures var r, constraints := DoCommit(w, c), Exec(w, SetConstraints, 0);
            var s := Exec(constraints.world, Commit, 0);
            var p := Polled(s.world, 20);
            var f := Exec(p.world, FindRecord(c.recordId), 20);
            var asked := constraints.reply.Ok? && s.reply.Broken?;
            && (r.outcome == ThrewInDoubt <==> asked && (p.reply != Ok(0) || !f.reply.Ok?))
            && (r.outcome == Returned <==>
                  || (constraints.reply.Ok? && s.reply.Ok?)
                  || (asked && p.reply == Ok(0) && f.reply.Ok? && f.world.stage == Committed))
  {
    var constraints := Exec(w, SetConstraints, 0);
    ExecStaysArmed(w, SetConstraints, c.recordId);
    ExecKeepsWork(w, SetConstraints, 0, w.work);
    if !constraints.reply.Ok? {
      AbortIsClean(constraints.world, c);
    } else {
      var s := Exec(constraints.world, Commit, 0);
      CommitMessage(constraints.world, c.recordId);
      ExecKeepsWork(constraints.world, Commit, 0, w.work);
      if s.reply.Broken? {
        DoubtIsResolved(s.world, c, w.work);
      } else if !s.reply.Ok? {
        AbortIsClean(s.world, c);
      }
    }
  }

  lemma AbortIsClean(w: World, c: Client)
    requires Dead(w) && (w.attached ==> w.linked)
    ensures var r := AbortAndThrow(w, c); Dead(r.world) && (r.world.attached ==> r.world.stuck)
  {
    AbortStaysDead(w, c);
    AbortDetaches(w, c);
  }

  lemma DoubtIsResolved(w: World, c: Client, n: nat)
    requires Tied(w, c.recordId) && !w.attached && Worked(w, n)
    ensures var r, p := ResolveDoubt(w, c), Polled(w, 20);
            var f := Exec(p.world, FindRecord(c.recordId), 20);
            && (r.outcome == Returned ==> r.world.stage == Committed && !r.world.attached && r.world.work == n)
            && (r.outcome == Threw ==> Dead(r.world) && (r.world.attached ==> r.world.stuck))
            && (r.outcome == ThrewInDoubt <==> p.reply != Ok(0) || !f.reply.Ok?)
            && (r.outcome == Returned <==> p.reply == Ok(0) && f.reply.Ok? && f.world.stage == Committed)
  {
    VerdictIsRight(w, c, 20);
    VerdictExactlyWhen(w, c, 20);
    CheckKeepsWork(w, c, 20, n);
    CheckStaysOut(w, c, 20);
    var check := CheckTransactionRecord(w, c, 20);
    if check.verdict == Exists {
      AbortIsClean(check.world, c);
    }
  }

  /** A commit on a session that is not the transaction's: whatever it reports, the transaction
      has not committed and never will. */
  lemma StrayedNeverCommits(w: World, c: Client)
    requires Strayed(w, c.recordId)
    ensures Dead(DoCommit(w, c).world) && !DoCommit(w, c).world.attached
  {
    if c.recordId > 0 {
      StrayedStaysOut(w, c);
      var constraints := Exec(w, SetConstraints, 0);
      ExecStaysStrayed(w, SetConstraints, c.recordId);
      if !constraints.reply.Ok? {
        AbortStaysDead(constraints.world, c);
      } else {
        var s := Exec(constraints.world, Commit, 0);
        ExecStaysStrayed(constraints.world, Commit, c.recordId);
        VerdictIsRight(s.world, c, 20);
        AbortStaysDead(s.world, c);
        AbortStaysDead(CheckTransactionRecord(s.world, c, 20).world, c);
      }
    }
  }

  lemma StrayedStaysOut(w: World, c: Client)
    requires !w.attached && c.recordId > 0
    ensures !DoCommit(w, c).world.attached
  {
    var constraints := Exec(w, SetConstraints, 0);
    ExecAfterEnd(w, SetConstraints, 0);
    AbortDetaches(constraints.world, c);
    var s := Exec(constraints.world, Commit, 0);
    ExecAfterEnd(constraints.world, Commit, 0);
    AbortDetaches(s.world, c);
    CheckStaysOut(s.world, c, 20);
    AbortDetaches(CheckTransactionRecord(s.world, c, 20).world, c);
  }

  lemma {:induction false} CheckStaysOut(w: World, c: Client, tries: nat)
    requires !w.attached
    ensures !CheckTransactionRecord(w, c, tries).world.attached
    decreases tries
  {
    if tries > 0 {
      var s := Exec(w, AskStillRunning, 0);
      ExecAfterEnd(w, AskStillRunning, 0);
      ExecAfterEnd(s.world, FindRecord(c.recordId), 20);
      CheckStaysOut(s.world, c, tries - 1);
    }
  }

  /** When commit() returns normally, it tells the truth exactly if the session is still the one
      in which the transaction began. */
  lemma CommitTellsTheTruthExactlyWhenAttached(w: World, c: Client)
    requires c.status == Active && c.recordId > 0 && (Armed(w, c.recordId) || Strayed(w, c.recordId))
    ensures var r := CommitTransaction(w, c);
            r.outcome == Returned ==> (r.world.stage == Committed <==> w.attached)
  {
    if w.attached {
      CommitIsSafe(w, c);
    } else {
      StrayedNeverCommits(w, c);
    }
  }

  /** A commit that never arrives is found out: the backend gives up, the record is still there, and
      the transaction counts as aborted. */
  lemma LostCommitIsAborted(w: World, c: Client)
    requires Armed(w, c.recordId) && !w.failed && c.status == Active && c.recordId > 0
    ensures var r := CommitTransaction(w.(script := COMMIT_LOST), c);
            && r.outcome == Threw && r.client == Client(StAborted, 0)
            && r.world.stage == Aborted && !r.world.attached && c.recordId !in r.world.records
  {
    var w2 := w.(linked := false, attached := false, script := COMMIT_LOST[1..][1..]);
    LostCommit(w, c);
    var s := Exec(w2, AskStillRunning, 0);
    assert s.reply == Ok(0) && s.world == Ended(w2, false).(linked := true, script := []);
    assert Exec(s.world, FindRecord(c.recordId), 20) == Step(s.world, Ok(1));
    assert CheckTransactionRecord(w2, c, 20) == Check(s.world, Exists);
    assert Exec(s.world, Rollback, 0) == Step(s.world, Ok(0));
    var v := s.world.(records := s.world.records - {c.recordId});
    assert Exec(s.world, DeleteRecord(c.recordId), 20) == Step(v, Ok(0));
  }

  lemma LostCommit(w: World, c: Client)
    requires InSession(w) && !w.failed && c.status == Active && c.recordId > 0
    ensures var w2 := w.(linked := false, attached := false, script := COMMIT_LOST[1..][1..]);
            DoCommit(w.(script := COMMIT_LOST), c) == ResolveDoubt(w2, c)
  {
    var w0 := w.(script := COMMIT_LOST);
    var w1 := w.(script := COMMIT_LOST[1..]);
    assert Exec(w0, SetConstraints, 0) == Step(w1, Ok(0));
    var w2 := w.(linked := false, attached := false, script := COMMIT_LOST[1..][1..]);
    assert Exec(w1, Commit, 0) == Step(w2, Broken);
  }

  const COMMIT_DEAF := [UNEVENTFUL, Event(false, true, true, Deaf, false)]

  /** Neither does one go unnoticed of which only the answer is lost: then the record is gone, and the
      transaction counts as committed.  (The object still has the number of the record.) */
  lemma DeafCommitIsCommitted(w: World, c: Client)
    requires Armed(w, c.recordId) && !w.failed && c.status == Active && c.recordId > 0
    ensures var r := CommitTransaction(w.(script := COMMIT_DEAF), c);
            && r.outcome == Returned && r.client == Client(StCommitted, c.recordId)
            && r.world.stage == Committed && r.world.work == w.work && c.recordId !in r.world.records
  {
    var w0 := w.(script := COMMIT_DEAF);
    var w1 := w.(script := COMMIT_DEAF[1..]);
    assert Exec(w0, SetConstraints, 0) == Step(w1, Ok(0));
    var w2 := Unlinked(Ended(w1, true)).(script := []);
    assert Exec(w1, Commit, 0) == Step(w2, Broken);
    var w3 := w2.(linked := true);
    assert Exec(w2, AskStillRunning, 0) == Step(w3, Ok(0));
    assert Exec(w3, FindRecord(c.recordId), 20) == Step(w3, Ok(0));
    assert CheckTransactionRecord(w2, c, 20) == Check(w3, Absent);
  }

  // ---------- Where absence proves nothing ----------

  /** The record exists at most inside the open transaction, which deletes it as well. */
  predicate Unrecorded(w: World, id: nat) {
    id !in w.records && (id in w.inserted ==> id in w.deleted)
  }

  lemma ProcessStaysUnrecorded(w: World, c: Command, e: Event, id: nat)
    requires Unrecorded(w, id) && Plain(c)
    ensures Unrecorded(Process(w, c, e).world, id)
    ensures c == FindRecord(id) && Process(w, c, e).reply.Ok? ==> Process(w, c, e).reply.answer == 0
  {
  }

  lemma SendStaysUnrecorded(w: World, c: Command, e: Event, id: nat)
    requires Unrecorded(w, id) && Plain(c)
    ensures Unrecorded(Send(w, c, e).world, id)
    ensures c == FindRecord(id) && Send(w, c, e).reply.Ok? ==> Send(w, c, e).reply.answer == 0
  {
    ProcessStaysUnrecorded(w, c, e, id);
    LossStaysUnrecorded(w, c, id);
    LossStaysUnrecorded(Process(w, c, e).world, c, id);
  }

  lemma LossStaysUnrecorded(w: World, c: Command, id: nat)
    requires Unrecorded(w, id)
    ensures Unrecorded(Unlinked(w), id) && Unrecorded(Ended(w, false), id) && Unrecorded(Stuck(w, c), id)
  {
  }

  lemma {:induction false} ExecStaysUnrecorded(w: World, c: Command, retries: nat, id: nat)
    requires Unrecorded(w, id) && Plain(c)
    ensures Unrecorded(Exec(w, c, retries).world, id)
    ensures c == FindRecord(id) && Exec(w, c, retries).reply.Ok? ==> Exec(w, c, retries).reply.answer == 0
    decreases retries
  {
    var e := Chance(w);
    var w1 := BackendActs(Pass(w), e);
    SendStaysUnrecorded(w1.(linked := true), c, e, id);
    var s := Attempt(w, c);
    if s.reply.Broken? && retries > 0 {
      ExecStaysUnrecorded(s.world, c, retries - 1, id);
    }
  }

  /** When the record was created inside the transaction, the check can only come out as if the
      transaction had committed. */
  lemma {:induction false} UnrecordedNeverExists(w: World, c: Client, tries: nat)
    requires Unrecorded(w, c.recordId)
    ensures CheckTransactionRecord(w, c, tries).verdict != Exists
    decreases tries
  {
    if tries > 0 {
      var s := Exec(w, AskStillRunning, 0);
      ExecStaysUnrecorded(w, AskStillRunning, 0, c.recordId);
      if s.reply.Ok? && s.reply.answer != 0 {
        UnrecordedNeverExists(s.world, c, tries - 1);
      } else if s.reply.Ok? {
        ExecStaysUnrecorded(s.world, FindRecord(c.recordId), 20, c.recordId);
      }
    }
  }

  lemma {:induction false} BeginEntersSession(w: World, retries: nat)
    requires w.attached ==> InSession(w)
    ensures Exec(w, Begin, retries).reply.Ok? ==> InSession(Exec(w, Begin, retries).world)
    decreases retries
  {
    var s := Attempt(w, Begin);
    if s.reply.Broken? && retries > 0 {
      BeginEntersSession(s.world, retries - 1);
    }
  }

  /** Nothing that an open transaction inserted can come to be there for anyone else by beginning. */
  lemma {:induction false} BeginLeavesUnrecorded(w: World, retries: nat, id: nat)
    requires id !in w.records && !w.commitUnderWay
    ensures id !in Exec(w, Begin, retries).world.records
    decreases retries
  {
    var s := Attempt(w, Begin);
    if s.reply.Broken? && retries > 0 {
      BeginLeavesUnrecorded(s.world, retries - 1, id);
    }
  }

  lemma AnswerKeepsSession(w: World, c: Command)
    requires InSession(w) && !c.Begin? && !c.Commit? && !c.Rollback?
    ensures var s := Exec(w, c, 0);
            s.reply.Ok? ==> InSession(s.world) && !s.world.failed && s.world.records == w.records
  {
  }

  /** A record created inside an open transaction is not there for anyone else. */
  lemma CreatedInside(w: World, c: Client)
    requires InSession(w) && Numbered(w) && CreateTransactionRecord(w, c).outcome == Returned
    ensures var r := CreateTransactionRecord(w, c);
            InSession(r.world) && r.client.recordId > 0 && r.client.recordId !in r.world.records
  {
    var cleaned := Exec(w, CleanUp, 0);
    AnswerKeepsSession(w, CleanUp);
    ExecStaysReady(w, CleanUp, 0);
    var next := Exec(cleaned.world, NextId, 0);
    AnswerKeepsSession(cleaned.world, NextId);
    NextIsFresh(cleaned.world);
    AnswerKeepsSession(next.world, InsertRecord(next.reply.answer));
  }

  lemma DeleteInside(w: World, id: nat)
    requires InSession(w) && id !in w.records
    ensures var s := Exec(w, DeleteRecord(id), 0); s.reply.Ok? ==> Unrecorded(s.world, id)
  {
  }

  lemma BegunInside(w: World, c: Client)
    requires InSession(w) && Ready(w) && c.recordId !in w.records && BeginAndDelete(w, c).outcome == Returned
    ensures var r := BeginAndDelete(w, c);
            InSession(r.world) && !r.world.failed && Unrecorded(r.world, c.recordId) && r.client == c
  {
    var id := c.recordId;
    BeginEntersSession(w, 2);
    BeginLeavesUnrecorded(w, 2, id);
    var begun := Exec(w, Begin, 2);
    AnswerKeepsSession(begun.world, DeleteRecord(id));
    DeleteInside(begun.world, id);
    var deleted := Exec(begun.world, DeleteRecord(id), 0);
    AnswerKeepsSession(deleted.world, AskXid);
    ExecStaysUnrecorded(deleted.world, AskXid, 0, id);
  }

  /** A transaction whose record was not created first - for want of a log, or because the session had
      a transaction open already - ends up unrecorded, and in order otherwise. */
  lemma BegunUnrecorded(w: World, c: Client)
    requires Ready(w) && c.recordId <= w.sequence && !RecordedFirst(w, c) && DoBegin(w, c).outcome == Returned
    ensures var r := DoBegin(w, c);
            InSession(r.world) && !r.world.failed && r.client.recordId > 0 && Unrecorded(r.world, r.client.recordId)
  {
    var created := CreateTransactionRecord(w, c);
    CreateStaysReady(w, c);
    if created.outcome == Returned {
      CreatedInside(w, c);
      BegunInside(created.world, created.client);
    } else {
      LogPreparedIsReady(created.world);
      var v := LogPrepared(created.world);
      var begun := Exec(v, Begin, 2);
      BeginEntersSession(v, 2);
      ExecStaysReady(v, Begin, 2);
      var inner := CreateTransactionRecord(begun.world, created.client);
      CreatedInside(begun.world, created.client);
      CreateStaysReady(begun.world, created.client);
      BegunInside(inner.world, inner.client);
    }
  }

  /** If its commit's answer is lost, and the check goes through, then commit() returns normally no
      matter what happened to the transaction. */
  lemma UnrecordedDoubtIsDropped(w: World, c: Client)
    requires Unrecorded(w, c.recordId)
    ensures ResolveDoubt(w, c).outcome != Threw
  {
    UnrecordedNeverExists(w, c, 20);
  }

  // ---------- When commit() can be trusted ----------

  /** The commit never arrives, the backend gives up, and the check finds no record. */
  const COMMIT_LOST := [UNEVENTFUL, Event(false, true, true, Lost, false), Event(true, true, true, Done, false)]

  lemma UnrecordedMisleads(w: World, c: Client)
    requires InSession(w) && !w.failed && Unrecorded(w, c.recordId) && c.status == Active && c.recordId > 0
    ensures var r := CommitTransaction(w.(script := COMMIT_LOST), c); r.outcome == Returned && r.world.stage == Aborted
  {
    LostCommit(w, c);
    var w2 := w.(linked := false, attached := false, script := COMMIT_LOST[1..][1..]);
    var s := Exec(w2, AskStillRunning, 0);
    assert s.reply == Ok(0) && s.world == Ended(w2, false).(linked := true, script := []);
    var f := Exec(s.world, FindRecord(c.recordId), 20);
    assert f.reply == Ok(0) && f.world.stage == Aborted;
    assert CheckTransactionRecord(w2, c, 20) == Check(f.world, Absent);
  }

  /** Of every transaction whose record was not created first there is a course of events in which
      commit() returns normally although the transaction was rolled back. */
  lemma UnrecordedBeginMisleads(w: World, c: Client)
    requires Ready(w) && c.recordId <= w.sequence && !RecordedFirst(w, c) && DoBegin(w, c).outcome == Returned
    ensures var begun := DoBegin(w, c);
            var r := CommitTransaction(begun.world.(script := COMMIT_LOST), begun.client.(status := Active));
            r.outcome == Returned && r.world.stage == Aborted
  {
    var begun := DoBegin(w, c);
    BegunUnrecorded(w, c);
    UnrecordedMisleads(begun.world, begun.client.(status := Active));
  }

  /** Nothing goes wrong any more. */
  predicate Calm(w: World) {
    w.linked && w.script == [] && !(w.attached && w.failed)
  }

  lemma CalmStays(w: World, c: Command, retries: nat)
    requires Calm(w) && !c.Commit?
    ensures var s := Exec(w, c, retries); s.reply.Ok? && Calm(s.world)
  {
  }

  lemma CalmCreates(w: World, c: Client)
    requires Calm(w)
    ensures var r := CreateTransactionRecord(w, c); r.outcome == Returned && Calm(r.world)
  {
    CalmStays(w, CleanUp, 0);
    var v := Exec(w, CleanUp, 0).world;
    CalmStays(v, NextId, 0);
    var id := Exec(v, NextId, 0);
    CalmStays(id.world, InsertRecord(id.reply.answer), 0);
  }

  lemma CalmBegins(w: World, c: Client)
    requires Calm(w)
    ensures BeginAndDelete(w, c).outcome == Returned
  {
    CalmStays(w, Begin, 2);
    var v := Exec(w, Begin, 2).world;
    CalmStays(v, DeleteRecord(c.recordId), 0);
    CalmStays(Exec(v, DeleteRecord(c.recordId), 0).world, AskXid, 0);
  }

  /** Nothing goes wrong for so many messages. */
  predicate Quiet(w: World, n: nat) {
    w.linked && !(w.attached && w.failed) && |w.script| >= n && forall k :: 0 <= k < n ==> w.script[k] == UNEVENTFUL
  }

  lemma QuietStays(w: World, n: nat, c: Command, retries: nat)
    requires Quiet(w, n) && n > 0 && !c.Commit? && !c.Rollback?
    ensures var s := Exec(w, c, retries);
            && s.reply.Ok? && Quiet(s.world, n - 1) && s.world.script == w.script[1..]
            && s.world.attached == (w.attached || c.Begin?)
  {
    assert w.script[0] == UNEVENTFUL;
  }

  /** The client fails before it asks for the transaction's number. */
  const NUMBER_NOT_ASKED :=
    [UNEVENTFUL, UNEVENTFUL, UNEVENTFUL, UNEVENTFUL, UNEVENTFUL, Event(false, true, true, Unsent, false)]

  lemma QuietBegins(w: World, c: Client)
    requires !w.attached && Quiet(w, 5) && w.script == NUMBER_NOT_ASKED
    ensures var r := DoBegin(w, c); r.outcome == Threw && r.world.attached && Calm(r.world)
  {
    assert w.script[1..][1..][1..][1..][1..] == [Event(false, true, true, Unsent, false)];
    QuietStays(w, 5, CleanUp, 0);
    var v := Exec(w, CleanUp, 0).world;
    QuietStays(v, 4, NextId, 0);
    var next := Exec(v, NextId, 0);
    var id := next.reply.answer;
    QuietStays(next.world, 3, InsertRecord(id), 0);
    var v1 := Exec(next.world, InsertRecord(id), 0).world;
    QuietStays(v1, 2, Begin, 2);
    var v2 := Exec(v1, Begin, 2).world;
    QuietStays(v2, 1, DeleteRecord(id), 0);
    AskFails(Exec(v2, DeleteRecord(id), 0).world);
  }

  lemma AskFails(w: World)
    requires Quiet(w, 0) && w.attached && w.script == [Event(false, true, true, Unsent, false)]
    ensures Exec(w, AskXid, 0) == Step(w.(script := []), LocalError)
  {
  }

  /** An attempt to begin may fail and leave the transaction open; then the next one, if nothing goes
      wrong, does create its record before it begins, but in that transaction. */
  lemma LeftoverHappens(w: World, c: Client)
    requires !w.attached && w.linked && w.script == NUMBER_NOT_ASKED
    ensures var r := DoBegin(w, c);
            && r.outcome == Threw && r.world.attached
            && CreateTransactionRecord(r.world, r.client).outcome == Returned && DoBegin(r.world, r.client).outcome == Returned
  {
    QuietBegins(w, c);
    var r := DoBegin(w, c);
    CalmCreates(r.world, r.client);
    var created := CreateTransactionRecord(r.world, r.client);
    CalmBegins(created.world, created.client);
  }

  /** Whatever happens from now on: if commit() returns normally the transaction is committed. */
  ghost predicate Trustworthy(w: World, c: Client) {
    forall script: seq<Event> ::
      var r := CommitTransaction(w.(script := script), c);
      r.outcome == Returned ==> r.world.stage == Committed
  }

  /** The normal return of a commit right after the transaction began can be trusted if and only if
      the transaction's record could be created before it began, and outside of any transaction. */
  lemma TrustworthyExactlyWhenRecordedFirst(w: World, c: Client)
    requires Ready(w) && c.recordId <= w.sequence && DoBegin(w, c).outcome == Returned
    ensures var begun := DoBegin(w, c);
            Trustworthy(begun.world, begun.client.(status := Active))
            <==> !w.attached && CreateTransactionRecord(w, c).outcome == Returned
  {
    var begun := DoBegin(w, c);
    var active := begun.client.(status := Active);
    if RecordedFirst(w, c) {
      BeginArms(w, c);
      forall script: seq<Event>
        ensures var r := CommitTransaction(begun.world.(script := script), active);
                r.outcome == Returned ==> r.world.stage == Committed
      {
        CommitIsSafe(begun.world.(script := script), active);
      }
    } else {
      UnrecordedBeginMisleads(w, c);
      assert CommitTransaction(begun.world.(script := COMMIT_LOST), active).world.stage == Aborted;
    }
  }

  // ---------- Runs ----------

  /** What a program may call, in any order. */
  datatype Call = CallBegin | CallExec | CallDirect | CallLook | CallActivate | CallCommit | CallAbort

  function Apply(w: World, c: Client, call: Call): Result {
    match call
    case CallBegin => ActivateTransaction(w, c)
    case CallExec => ExecStatement(w, c)
    case CallDirect => ExecDirect(w, c)
    case CallLook => Look(w, c)
    case CallActivate => Reactivate(w, c)
    case CallCommit => CommitTransaction(w, c)
    case CallAbort => AbortTransaction(w, c)
  }

  /** How the transaction began: with its record created first, or without. */
  datatype How = NotYet | RecordFirst | RecordInside

  /** A run also notes how the transaction began, whether it ever lost its session without noticing,
      and how many statements were executed in it. */
  datatype Run = Run(world: World, client: Client, how: How, strayed: bool, done: nat)

  function HowAfter(r: Run, call: Call): How {
    if r.client.status == Nascent && call in {CallBegin, CallExec} && BeginTransaction(r.world, r.client).outcome == Returned
    then if RecordedFirst(Look(r.world, r.client).world, r.client) then RecordFirst else RecordInside
    else r.how
  }

  function Called(r: Run, call: Call): Run {
    var a := Apply(r.world, r.client, call);
    Run(a.world, a.client, HowAfter(r, call), r.strayed || (a.client.status == Active && !a.world.attached),
        if call in {CallExec, CallDirect} && a.client.status == Active && a.outcome == Returned then r.done + 1 else r.done)
  }

  function RunFrom(r: Run, calls: seq<Call>): Run
    decreases |calls|
  {
    if calls == [] then r else RunFrom(Called(r, calls[0]), calls[1..])
  }

  /** The run of a new transaction object. */
  function RunOf(w: World, calls: seq<Call>): Run {
    RunFrom(Run(w, Client(Nascent, 0), NotYet, false, 0), calls)
  }

  /** The transaction's session is where it was; or it is gone, and the transaction with it. */
  predicate Seated(w: World, strayed: bool) {
    if strayed then !w.attached && Dead(w) else InSession(w)
  }

  predicate RecordTells(w: World, id: nat, how: How) {
    if how == RecordFirst then Tied(w, id) else Unrecorded(w, id)
  }

  /** All statements that returned have been executed in the transaction. */
  predicate Accounted(r: Run) {
    r.how == RecordFirst && !r.strayed ==> r.world.work == r.done
  }

  predicate CommittedWith(w: World, n: nat) {
    w.stage == Committed && !w.attached && w.work == n
  }

  predicate Told(r: Run) {
    match r.client.status
    case Nascent => Ready(r.world) && r.client.recordId <= r.world.sequence && r.how == NotYet && !r.strayed && r.done == 0
    case Active =>
      && r.client.recordId > 0 && r.how != NotYet && Seated(r.world, r.strayed)
      && RecordTells(r.world, r.client.recordId, r.how) && Accounted(r)
    case StCommitted => r.how == RecordFirst ==> if r.strayed then Dead(r.world) else CommittedWith(r.world, r.done)
    case StAborted => r.how == NotYet || (Dead(r.world) && (r.world.attached ==> r.world.stuck))
    case InDoubt => true
  }

  lemma BeginKeepsTold(r: Run)
    requires Told(r) && r.client.status == Nascent
    ensures Told(Called(r, CallBegin)) && (Called(r, CallBegin).client.status == Active ==> !Called(r, CallBegin).strayed)
  {
    var looked := Look(r.world, r.client);
    assert Ready(looked.world) && r.client.recordId <= looked.world.sequence;
    if looked.outcome == Returned {
      BeginStaysReady(looked.world, r.client);
      if DoBegin(looked.world, r.client).outcome == Returned {
        if RecordedFirst(looked.world, r.client) {
          BeginArms(looked.world, r.client);
        } else {
          BegunUnrecorded(looked.world, r.client);
        }
      }
    }
  }

  /** A statement, however it is executed, in a transaction that is in its session or has strayed. */
  lemma StatementKeepsSeat(w: World, id: nat, how: How, strayed: bool)
    requires Seated(w, strayed) && RecordTells(w, id, how)
    ensures var s := Exec(w, UserStatement, 0);
            && Dead(s.world) && RecordTells(s.world, id, how) && Seated(s.world, strayed || !s.world.attached)
            && (s.reply.Ok? && !strayed ==> s.world.attached)
            && (!strayed && s.world.attached ==> s.world.work == if s.reply.Ok? then w.work + 1 else w.work)
  {
    ExecStaysDead(w, UserStatement, 0);
    if how == RecordFirst {
      ExecStaysTied(w, UserStatement, 0, id);
    } else {
      ExecStaysUnrecorded(w, UserStatement, 0, id);
    }
  }

  lemma LookKeepsSeat(w: World, c: Client, how: How, strayed: bool)
    requires Seated(w, strayed) && RecordTells(w, c.recordId, how)
    ensures var l := Look(w, c);
            && RecordTells(l.world, c.recordId, how) && Seated(l.world, strayed || !l.world.attached) && l.client == c
            && (!strayed ==> l.world.work == w.work)
  {
  }

  lemma ReactivateKeepsSeat(w: World, c: Client, how: How, strayed: bool)
    requires Seated(w, strayed) && RecordTells(w, c.recordId, how)
    ensures var a := Reactivate(w, c);
            && RecordTells(a.world, c.recordId, how) && Seated(a.world, strayed) && a.client == c
            && (!strayed ==> a.world == w)
  {
  }

  /** A commit that throws, and is not in doubt, has not committed and never will, recorded or not. */
  lemma UnrecordedAborts(w: World, c: Client)
    requires Dead(w) && Unrecorded(w, c.recordId) && (w.attached ==> w.linked) && c.recordId > 0
    ensures var r := DoCommit(w, c); r.outcome == Threw ==> Dead(r.world) && (r.world.attached ==> r.world.stuck)
  {
    if c.recordId > 0 {
      var constraints := Exec(w, SetConstraints, 0);
      ExecStaysDead(w, SetConstraints, 0);
      ExecStaysWired(w, SetConstraints);
      ExecStaysWired(constraints.world, Commit);
      ExecStaysUnrecorded(w, SetConstraints, 0, c.recordId);
      AbortStaysDeadIf(constraints.world, c);
      var s := Exec(constraints.world, Commit, 0);
      ExecStaysUnrecorded(constraints.world, Commit, 0, c.recordId);
      UnrecordedDoubtIsDropped(s.world, c);
      CommitRefused(constraints.world);
      AbortStaysDeadIf(s.world, c);
    }
  }

  lemma AbortStaysDeadIf(w: World, c: Client)
    requires w.attached ==> w.linked
    ensures var r := AbortAndThrow(w, c); Dead(w) ==> Dead(r.world) && (r.world.attached ==> r.world.stuck)
  {
    if Dead(w) { AbortIsClean(w, c); }
  }

  lemma ExecStaysWired(w: World, c: Command)
    requires w.attached ==> w.linked
    ensures var v := Exec(w, c, 0).world; v.attached ==> v.linked
  {
    var e := Chance(w);
    SendStaysWired(BackendActs(Pass(w), e).(linked := true), c, e);
  }

  lemma SendStaysWired(w: World, c: Command, e: Event)
    requires w.linked
    ensures var v := Send(w, c, e).world; v.attached ==> v.linked
  {
  }

  lemma CommitRefused(w: World)
    requires Dead(w)
    ensures var s := Exec(w, Commit, 0); !s.reply.Ok? && !s.reply.Broken? ==> Dead(s.world)
  {
  }

  lemma ActiveKeepsTold(r: Run, call: Call)
    requires Told(r) && r.client.status == Active
    ensures Told(Called(r, call))
  {
    var w, c := r.world, r.client;
    match call {
      case CallBegin =>
      case CallExec =>
        StatementKeepsSeat(w, c.recordId, r.how, r.strayed);
        ExecStaysWired(w, UserStatement);
        AbortIsClean(Exec(w, UserStatement, 0).world, c);
      case CallDirect =>
        StatementKeepsSeat(w, c.recordId, r.how, r.strayed);
      case CallLook =>
        LookKeepsSeat(w, c, r.how, r.strayed);
      case CallActivate =>
        ReactivateKeepsSeat(w, c, r.how, r.strayed);
      case CallCommit =>
        CommitKeepsTold(r);
      case CallAbort =>
        AbortIsClean(w, c);
    }
  }

  lemma CommitKeepsTold(r: Run)
    requires Told(r) && r.client.status == Active
    ensures Told(Called(r, CallCommit))
  {
    if r.how != RecordFirst {
      UnrecordedAborts(r.world, r.client);
    } else if r.strayed {
      StrayedNeverCommits(r.world, r.client);
    } else {
      CommitIsSafe(r.world, r.client);
    }
  }

  lemma NascentKeepsTold(r: Run, call: Call)
    requires Told(r) && r.client.status == Nascent
    ensures Told(Called(r, call))
  {
    match call {
      case CallBegin =>
        BeginKeepsTold(r);
      case CallExec =>
        BeginKeepsTold(r);
        var b := Called(r, CallBegin);
        if b.client.status == Active { ActiveKeepsTold(b, CallExec); }
      case CallDirect =>
        ExecStaysReady(r.world, UserStatement, 0);
      case _ =>
    }
  }

  lemma SendWhenOver(w: World, e: Event)
    ensures var v := Send(w, UserStatement, e).world;
            && (v.attached ==> w.attached) && v.stuck == w.stuck && (!w.attached ==> v.work == w.work)
  {
  }

  /** A statement executed by the connection when the transaction is over. */
  lemma StatementWhenOver(w: World)
    ensures var v := Exec(w, UserStatement, 0).world;
            && (v.attached ==> w.attached) && (w.stage != Open && !w.attached ==> v.work == w.work)
            && (w.attached ==> v.stuck == w.stuck)
  {
    var e := Chance(w);
    SendWhenOver(BackendActs(Pass(w), e).(linked := true), e);
  }

  lemma LossWhenOver(w: World, c: Client)
    ensures var v := Look(w, c).world;
            && (v.attached ==> w.attached) && (w.stage != Open ==> v.work == w.work) && (w.attached ==> v.stuck == w.stuck)
            && (Dead(w) ==> Dead(v)) && (w.stage == Committed ==> v.stage == Committed)
    ensures var v := Reactivate(w, c).world;
            && (v.attached ==> w.attached) && (w.stage != Open ==> v.work == w.work) && (w.attached ==> v.stuck == w.stuck)
            && (Dead(w) ==> Dead(v)) && (w.stage == Committed ==> v.stage == Committed)
  {
  }

  /** When the transaction is over, nothing more happens to it. */
  lemma ClosedKeepsTold(r: Run, call: Call)
    requires Told(r) && r.client.status in {StCommitted, StAborted, InDoubt}
    ensures Told(Called(r, call)) && Called(r, call).client.status == r.client.status
  {
    if call.CallDirect? {
      StatementWhenOver(r.world);
      if !r.world.attached { ExecAfterEnd(r.world, UserStatement, 0); }
      if Dead(r.world) { ExecStaysDead(r.world, UserStatement, 0); }
    } else if call.CallLook? || call.CallActivate? {
      LossWhenOver(r.world, r.client);
    }
  }

  lemma CallKeepsTold(r: Run, call: Call)
    requires Told(r)
    ensures Told(Called(r, call))
  {
    match r.client.status
    case Nascent => NascentKeepsTold(r, call);
    case Active => ActiveKeepsTold(r, call);
    case _ => ClosedKeepsTold(r, call);
  }

  lemma {:induction false} RunIsTold(r: Run, calls: seq<Call>)
    requires Told(r)
    ensures Told(RunFrom(r, calls))
    decreases |calls|
  {
    if calls != [] {
      CallKeepsTold(r, calls[0]);
      RunIsTold(Called(r, calls[0]), calls[1..]);
    }
  }

  /** Whole runs of a transaction object, from its creation on, in whatever session, over every loss
      of messages, and with attempts to begin that fail: a transaction that began and was aborted
      has not committed and never will, and is not open in the session any more, unless a ROLLBACK
      was refused, or not sent; and a committed one, if its record was created first, has committed
      at the server - exactly if it never lost its session behind its back - and with it every
      statement that returned. */
  lemma EveryRunIsTold(w: World, calls: seq<Call>)
    requires Ready(w)
    ensures var r := RunOf(w, calls);
            && (r.client.status == StAborted && r.how != NotYet ==> Dead(r.world) && (r.world.attached ==> r.world.stuck))
            && (r.client.status == StCommitted && r.how == RecordFirst && !r.strayed ==> r.world.work == r.done)
            && (r.client.status == StCommitted && r.how == RecordFirst ==> (r.world.stage == Committed <==> !r.strayed))
  {
    RunIsTold(Run(w, Client(Nascent, 0), NotYet, false, 0), calls);
  }

  /** Only a statement that is executed past the transaction object, or a look for input, can make a
      transaction stray: all other calls notice that its session is lost. */
  lemma {:induction false} OnlyUncheckedCallsStray(r: Run, calls: seq<Call>)
    requires Told(r) && !r.strayed && CallDirect !in calls && CallLook !in calls
    ensures !RunFrom(r, calls).strayed
    decreases |calls|
  {
    if calls != [] {
      CallKeepsTold(r, calls[0]);
      CheckedCallNotices(r, calls[0]);
      OnlyUncheckedCallsStray(Called(r, calls[0]), calls[1..]);
    }
  }

  lemma CheckedCallNotices(r: Run, call: Call)
    requires Told(r) && !r.strayed && call != CallDirect && call != CallLook
    ensures !Called(r, call).strayed
  {
    match r.client.status
    case Nascent =>
      BeginKeepsTold(r);
      var b := Called(r, CallBegin);
      if call == CallExec && b.client.status == Active {
        StatementKeepsSeat(b.world, b.client.recordId, b.how, b.strayed);
      }
    case Active =>
      StatementKeepsSeat(r.world, r.client.recordId, r.how, r.strayed);
      ReactivateKeepsSeat(r.world, r.client, r.how, r.strayed);
    case _ => ClosedKeepsTold(r, call);
  }

  /** A commit of a strayed transaction returns normally, and wrongly, exactly if its messages get
      through to the session that took the place of the transaction's. */
  lemma StrayedReturnsExactlyWhen(w: World, c: Client)
    requires c.status == Active && c.recordId > 0 && Strayed(w, c.recordId)
    ensures CommitTransaction(w, c).outcome == Returned
            <==> w.linked && Exec(w, SetConstraints, 0).reply.Ok? && Exec(Exec(w, SetConstraints, 0).world, Commit, 0).reply.Ok?
  {
    ExecStaysStrayed(w, SetConstraints, c.recordId);
    var v := Exec(w, SetConstraints, 0).world;
    ExecStaysStrayed(v, Commit, c.recordId);
    VerdictIsRight(Exec(v, Commit, 0).world, c, 20);
  }

  /** In every transaction that has begun this can happen: a message is lost, a direct call has the
      connection reactivated, and then commit() returns normally although nothing was committed. */
  lemma StrayingMisleads(r: Run)
    requires Told(r) && r.client.status == Active && !r.strayed && !r.world.failed
    ensures var z := RunFrom(r.(world := r.world.(script := [LOST])), [CallDirect, CallDirect, CallCommit]);
            z.client.status == StCommitted && z.strayed && Dead(z.world)
  {
    var r0 := r.(world := r.world.(script := [LOST]));
    var r1 := r.(world := r.world.(linked := false, attached := false, script := []), strayed := true);
    var r2 := r1.(world := r1.world.(linked := true), done := r1.done + 1);
    assert Called(r0, CallDirect) == r1;
    assert Called(r1, CallDirect) == r2;
    CommitElsewhere(r2.world, r2.client);
    RunOfThree(r0, CallDirect, CallDirect, CallCommit);
  }

  /** So can this, without any statement: a look for input finds the connection broken, quoting a name
      has it given up and, the next time, reactivated, and then commit() returns normally. */
  lemma LookingMisleads(r: Run)
    requires Told(r) && r.client.status == Active && !r.strayed && !r.world.failed
    ensures var z := RunFrom(r.(world := r.world.(script := [LOST, UNCONNECTED])), [CallLook, CallActivate, CallActivate, CallCommit]);
            z.client.status == StCommitted && z.strayed && Dead(z.world)
  {
    var r0 := r.(world := r.world.(script := [LOST, UNCONNECTED]));
    var r1 := r.(world := r.world.(linked := false, attached := false, script := [UNCONNECTED]), strayed := true);
    var r2 := r1.(world := r1.world.(script := []));
    var r3 := r2.(world := r2.world.(linked := true));
    assert [LOST, UNCONNECTED][1..] == [UNCONNECTED];
    assert Called(r0, CallLook) == r1;
    assert Called(r1, CallActivate) == r2;
    assert Called(r2, CallActivate) == r3;
    CommitElsewhere(r3.world, r3.client);
    RunOfThree(r1, CallActivate, CallActivate, CallCommit);
    assert [CallLook, CallActivate, CallActivate, CallCommit][1..] == [CallActivate, CallActivate, CallCommit];
  }

  const LOST := Event(false, true, true, Lost, false)
  const UNCONNECTED := Event(false, true, false, Done, false)

  lemma RunOfThree(r: Run, a: Call, b: Call, c: Call)
    ensures RunFrom(r, [a, b, c]) == Called(Called(Called(r, a), b), c)
  {
    assert [a, b, c][1..] == [b, c] && [b, c][1..] == [c] && [c][1..] == [];
    assert RunFrom(Called(r, a), [b, c]) == RunFrom(Called(Called(r, a), b), [c]);
    assert RunFrom(Called(Called(r, a), b), [c]) == RunFrom(Called(Called(Called(r, a), b), c), []);
  }

  /** In a session without a transaction, a commit goes through undisturbed. */
  lemma CommitElsewhere(w: World, c: Client)
    requires c.status == Active && c.recordId > 0 && w.linked && !w.attached && w.script == []
    ensures CommitTransaction(w, c) == Result(w, Client(StCommitted, 0), Returned)
  {
    assert Exec(w, SetConstraints, 0) == Step(w, Ok(0)) && Exec(w, Commit, 0) == Step(w, Ok(0));
  }
  // ---------- When nothing goes wrong ----------

  lemma QuietExec(w: World, n: nat, c: Command, retries: nat)
    requires Quiet(w, n) && n > 0
    ensures Exec(w, c, retries) == Process(w.(script := w.script[1..]), c, UNEVENTFUL)
    ensures Exec(w, c, retries).reply.Ok?
    ensures var v := Exec(w, c, retries).world;
            v.linked && v.script == w.script[1..] && forall k :: 0 <= k < n - 1 ==> v.script[k] == UNEVENTFUL
  {
    assert w.script[0] == UNEVENTFUL;
  }

  /** That is how a transaction begins when there is no log yet, and nothing else goes wrong: the clean-up
      fails, ROLLBACK has no effect, and ten messages later the log is there, and the transaction has
      begun with its record inside. */
  lemma FallbackHappens(w: World, c: Client)
    requires !w.attached && w.linked && |w.script| >= 11 && w.script[0] == Event(false, true, true, Refused, false)
    requires forall k :: 0 < k < 11 ==> w.script[k] == UNEVENTFUL
    ensures CreateTransactionRecord(w, c).outcome != Returned
    ensures var r := DoBegin(w, c);
            r.outcome == Returned && InSession(r.world) && r.client.recordId == w.sequence + 1 && r.world.script == w.script[11..]
  {
    var v := w.(script := w.script[1..]);
    assert CreateTransactionRecord(w, c) == Result(v, c, Threw);
    QuietLog(v, c);
    var prepared := PrepareLog(v, c);
    QuietBeginning(prepared.world, 3, prepared.client);
    assert w.script[1..][7..][3..] == w.script[11..];
  }

  lemma QuietLog(w: World, c: Client)
    requires !w.attached && Quiet(w, 10)
    ensures var r := PrepareLog(w, c);
            && r.outcome == Returned && r.client == c.(recordId := w.sequence + 1)
            && InSession(r.world) && Quiet(r.world, 3) && r.world.script == w.script[7..]
  {
    QuietTables(w);
    var v := LogPrepared(w);
    QuietBeginStep(v, 7);
    QuietCreation(Exec(v, Begin, 2).world, 6, c);
    assert w.script[3..][1..][3..] == w.script[7..];
  }

  lemma QuietBeginStep(w: World, n: nat)
    requires !w.attached && Quiet(w, n) && n > 0
    ensures var s := Exec(w, Begin, 2);
            && s.reply.Ok? && InSession(s.world) && Quiet(s.world, n - 1)
            && s.world.script == w.script[1..] && s.world.sequence == w.sequence
  {
    QuietExec(w, n, Begin, 2);
  }

  lemma QuietTables(w: World)
    requires !w.attached && Quiet(w, 10)
    ensures LogPrepared(w) == w.(script := w.script[3..])
  {
    QuietExec(w, 10, Rollback, 0);
    var v1 := Exec(w, Rollback, 0).world;
    QuietExec(v1, 9, CreateLog, 1);
    var v2 := Exec(v1, CreateLog, 1).world;
    QuietExec(v2, 8, CreateLog, 0);
    assert w.script[1..][1..][1..] == w.script[3..];
  }

  lemma QuietCreation(w: World, n: nat, c: Client)
    requires Quiet(w, n) && n >= 3
    ensures var r := CreateTransactionRecord(w, c);
            && r.outcome == Returned && r.client == c.(recordId := w.sequence + 1)
            && Quiet(r.world, n - 3) && r.world.script == w.script[3..]
            && r.world.attached == w.attached && (InSession(w) ==> InSession(r.world))
  {
    QuietExec(w, n, CleanUp, 0);
    var v1 := Exec(w, CleanUp, 0).world;
    QuietExec(v1, n - 1, NextId, 0);
    var v2 := Exec(v1, NextId, 0).world;
    QuietExec(v2, n - 2, InsertRecord(v2.sequence), 0);
    assert w.script[1..][1..][1..] == w.script[3..];
  }

  lemma QuietBeginning(w: World, n: nat, c: Client)
    requires Quiet(w, n) && n >= 3 && (w.attached ==> InSession(w))
    ensures var r := BeginAndDelete(w, c);
            && r.outcome == Returned && r.client == c && r.world.script == w.script[3..] && InSession(r.world) && !r.world.failed
            && (!w.attached ==> r.world.work == 0)
  {
    QuietExec(w, n, Begin, 2);
    var v1 := Exec(w, Begin, 2).world;
    QuietExec(v1, n - 1, DeleteRecord(c.recordId), 0);
    var v2 := Exec(v1, DeleteRecord(c.recordId), 0).world;
    QuietExec(v2, n - 2, AskXid, 0);
    assert w.script[1..][1..][1..] == w.script[3..];
  }

  /** To begin takes a look for input and six messages, and to commit two. */
  lemma QuietBegin(w: World, c: Client)
    requires !w.attached && Quiet(w, 7) && c.status == Nascent
    ensures var r := BeginTransaction(w, c);
            && r.outcome == Returned && r.client == Client(Active, w.sequence + 1)
            && InSession(r.world) && !r.world.failed && r.world.work == 0 && r.world.script == w.script[7..]
  {
    assert w.script[0] == UNEVENTFUL;
    var v0 := Look(w, c).world;
    assert v0 == w.(script := w.script[1..]);
    QuietCreation(v0, 6, c);
    var created := CreateTransactionRecord(v0, c);
    QuietBeginning(created.world, 3, created.client);
    assert w.script[1..][3..][3..] == w.script[7..];
  }

  lemma QuietCommit(w: World, c: Client)
    requires InSession(w) && Quiet(w, 2) && c.status == Active && c.recordId > 0
    ensures var r := CommitTransaction(w, c);
            && r.outcome == Returned && r.client == Client(StCommitted, 0)
            && r.world.stage == Committed && r.world.work == w.work && r.world.script == w.script[2..]
            && r.world.records == w.records + w.inserted - w.deleted
  {
    QuietExec(w, 2, SetConstraints, 0);
    QuietExec(Exec(w, SetConstraints, 0).world, 1, Commit, 0);
    assert w.script[1..][1..] == w.script[2..];
  }

  /** To abort takes two as well; they roll the transaction back, and do away with its record. */
  lemma QuietAbort(w: World, c: Client)
    requires InSession(w) && Quiet(w, 2) && c.status == Active && c.recordId > 0
    ensures var r := AbortTransaction(w, c);
            && r.outcome == Returned && r.client == Client(StAborted, 0)
            && r.world.stage == Aborted && !r.world.attached && r.world.script == w.script[2..]
            && r.world.records == w.records - {c.recordId}
  {
    QuietExec(w, 2, Rollback, 0);
    QuietExec(Exec(w, Rollback, 0).world, 1, DeleteRecord(c.recordId), 20);
    assert w.script[1..][1..] == w.script[2..];
  }

  /** A command whose message is lost each time is sent as often as retries allow, and no more. */
  lemma {:induction false} RetriesAreCounted(w: World, c: Command, retries: nat)
    requires |w.script| > retries && forall k :: 0 <= k <= retries ==> w.script[k] == LOST
    ensures Exec(w, c, retries).reply == Broken && Exec(w, c, retries).world.script == w.script[retries + 1..]
    decreases retries
  {
    var s := Attempt(w, c);
    assert w.script[0] == LOST && s.reply == Broken && s.world.script == w.script[1..];
    if retries > 0 {
      RetriesAreCounted(s.world, c, retries - 1);
      assert w.script[1..][retries..] == w.script[retries + 1..];
    }
  }

  /** It is not sent any more once the connection could not be reactivated. */
  lemma {:induction false} RetriesEnd(w: World, c: Command, retries: nat, n: nat)
    requires n <= retries && n < |w.script| && w.script[n] == UNCONNECTED && (n == 0 ==> !w.linked)
    requires forall k :: 0 <= k < n ==> w.script[k] == LOST
    ensures Exec(w, c, retries).reply == Broken && Exec(w, c, retries).world.script == w.script[n + 1..]
    decreases retries
  {
    if n > 0 {
      LostOnce(w, c);
      RetriesEnd(Attempt(w, c).world, c, retries - 1, n - 1);
      assert w.script[1..][n..] == w.script[n + 1..];
    } else {
      NotReached(w, c);
    }
  }

  lemma LostOnce(w: World, c: Command)
    requires w.script != [] && w.script[0] == LOST
    ensures var s := Attempt(w, c);
            Reachable(w) && s.reply == Broken && s.world.script == w.script[1..] && !s.world.linked
  {
  }

  lemma NotReached(w: World, c: Command)
    requires w.script != [] && w.script[0] == UNCONNECTED && !w.linked
    ensures !Reachable(w) && Attempt(w, c) == Step(w.(script := w.script[1..]), Broken)
  {
  }

  lemma LostTwice(w: World, c: Command)
    requires !w.attached && |w.script| > 2 && w.script[0] == w.script[1] == LOST
    ensures Exec(w, c, 2) == Exec(Unlinked(w).(script := w.script[2..]), c, 0)
  {
    var w1 := Unlinked(w).(script := w.script[1..]);
    assert w.script[1..][1..] == w.script[2..];
    assert Attempt(w, c) == Step(w1, Broken) && Reachable(w);
    assert Attempt(w1, c) == Step(Unlinked(w).(script := w.script[2..]), Broken) && Reachable(w1);
  }

  /** BEGIN is sent three times at most. */
  lemma BeginIsRetried(w: World, c: Client)
    requires !w.attached && |w.script| > 2 && w.script[0] == w.script[1] == LOST
    ensures w.script[2] == LOST ==> BeginAndDelete(w, c).outcome == Threw && BeginAndDelete(w, c).world.script == w.script[3..]
    ensures Quiet(w.(linked := true, script := w.script[2..]), 3) ==>
              var r := BeginAndDelete(w, c);
              r.outcome == Returned && r.client == c && InSession(r.world) && r.world.script == w.script[5..]
  {
    var w2 := Unlinked(w).(script := w.script[2..]);
    LostTwice(w, Begin);
    if w.script[2] == LOST {
      RetriesAreCounted(w2, Begin, 0);
      assert w.script[2..][1..] == w.script[3..];
    } else if Quiet(w.(linked := true, script := w.script[2..]), 3) {
      BeginsElsewhere(w2, c);
      assert w.script[2..][3..] == w.script[5..];
    }
  }

  lemma BeginsElsewhere(w: World, c: Client)
    requires !w.linked && !w.attached && Quiet(w.(linked := true), 3)
    ensures var v, s := w.(linked := true), Exec(w, Begin, 0);
            && s == Exec(v, Begin, 2) && s.reply.Ok?
            && BeginAndDelete(v, c).outcome == Returned && BeginAndDelete(v, c).client == c
            && InSession(BeginAndDelete(v, c).world) && BeginAndDelete(v, c).world.script == w.script[3..]
  {
    var v := w.(linked := true);
    QuietBeginning(v, 3, c);
    QuietExec(v, 3, Begin, 2);
    assert w.script[0] == UNEVENTFUL;
  }

  /** The table of the log is tried once more, and the sequence is not. */
  lemma LogIsTried(w: World)
    requires !w.attached && w.linked && |w.script| >= 4 && w.script[0] == UNEVENTFUL
    ensures w.script[1] == w.script[2] == LOST && w.script[3] == UNEVENTFUL ==> LogPrepared(w).script == w.script[4..]
    ensures w.script[1] == UNEVENTFUL && w.script[2] == LOST ==> LogPrepared(w).script == w.script[3..]
  {
    var w1 := w.(script := w.script[1..]);
    assert Exec(w, Rollback, 0) == Step(w1, Ok(0));
    assert w.script[1..][1..] == w.script[2..] && w.script[2..][1..] == w.script[3..] && w.script[3..][1..] == w.script[4..];
    if w.script[1] == w.script[2] == LOST {
      RetriesAreCounted(w1, CreateLog, 1);
    }
  }

  // ---------- The plain transaction, for contrast ----------

  /** The commit of a transaction without a record. */
  function PlainCommit(w: World, c: Client): Result {
    var s := Exec(w, Commit, 0);
    Result(s.world, c, if s.reply.Ok? then Returned else if !s.world.linked then ThrewInDoubt else Threw)
  }

  /** It is in doubt whenever the connection breaks; and it returns normally from a transaction
      that the server rolled back exactly if that had failed without the object's noticing. */
  lemma PlainCommitTells(w: World, c: Client)
    requires w.linked && w.attached && w.stage == Open && !w.commitUnderWay
    ensures var r := PlainCommit(w, c);
            && (r.outcome == Returned ==> (r.world.stage == Committed <==> !w.failed))
            && (r.outcome == Threw ==> Dead(r.world))
            && (r.outcome == ThrewInDoubt <==> !r.world.linked)
  {
  }

  lemma ExecAfterAttempt(w: World, c: Command, retries: nat, w': World, reply: Reply)
    requires Attempt(w, c) == Step(w', reply)
    ensures Exec(w, c, retries)
            == if reply.Broken? && Reachable(w) && retries > 0 then Exec(w', c, retries - 1) else Step(w', reply)
  {
  }

  // ---------- The transaction object ----------

  class RobustTransaction {
    /** The server and the link to it. */
    var world: World

    var status: Status
    var recordId: nat

    ghost function Memory(): Client
      reads this
    {
      Client(status, recordId)
    }

    ghost predicate Is(r: Result)
      reads this
    {
      world == r.world && Memory() == r.client
    }

    /** A connection without a transaction; the transaction object begins one at once. */
    constructor (w: World)
      ensures world == w && status == Nascent && recordId == 0
    {
      world := w;
      status := Nascent;
      recordId := 0;
    }

    method ExecuteOnce(c: Command) returns (reply: Reply, reached: bool)
      modifies this`world
      ensures Step(world, reply) == Attempt(old(world), c) && reached == Reachable(old(world))
    {
      var e := Chance(world);
      world := BackendActs(Pass(world), e);
      if !world.linked && !e.reconnects {
        return Broken, false;
      }
      var s := Send(world.(linked := true), c, e);
      world := s.world;
      return s.reply, true;
    }

    method Execute(c: Command, retries: nat) returns (reply: Reply)
      modifies this`world
      ensures Step(world, reply) == Exec(old(world), c, retries)
    {
      ghost var goal := Exec(world, c, retries);
      ghost var before := world;
      var reached;
      reply, reached := ExecuteOnce(c);
      ExecAfterAttempt(before, c, retries, world, reply);
      var left := retries;
      while left > 0 && reply.Broken? && reached
        invariant 0 <= left <= retries
        invariant goal == if reply.Broken? && reached && left > 0 then Exec(world, c, left - 1) else Step(world, reply)
      {
        left := left - 1;
        before := world;
        reply, reached := ExecuteOnce(c);
        ExecAfterAttempt(before, c, left, world, reply);
      }
    }

    method CreateRecord() returns (o: Outcome)
      modifies this
      ensures Is(CreateTransactionRecord(old(world), old(Memory()))) && o == CreateTransactionRecord(old(world), old(Memory())).outcome
    {
      var reply := Execute(CleanUp, 0);
      if !reply.Ok? {
        return Threw;
      }
      reply := Execute(NextId, 0);
      if !reply.Ok? {
        return Threw;
      }
      recordId := reply.answer;
      reply := Execute(InsertRecord(recordId), 0);
      return if reply.Ok? then Returned else Threw;
    }

    method DeleteRecordForGood()
      modifies this
      ensures Is(DeleteTransactionRecord(old(world), old(Memory())))
    {
      if recordId == 0 {
        return;
      }
      var reply := Execute(DeleteRecord(recordId), 20);
      if reply.Ok? {
        recordId := 0;
      }
    }

    /** Begin the real transaction, once there is a record. */
    method BeginWithRecord() returns (o: Outcome)
      modifies this
      ensures Is(BeginAndDelete(old(world), old(Memory()))) && o == BeginAndDelete(old(world), old(Memory())).outcome
    {
      var reply := Execute(Command.Begin, 2);
      if !reply.Ok? {
        return Threw;
      }
      reply := Execute(DeleteRecord(recordId), 0);
      if !reply.Ok? {
        return Threw;
      }
      reply := Execute(AskXid, 0);
      return if reply.Ok? then Returned else Threw;
    }

    /** Perhaps the log does not exist yet: create it, and try again inside a transaction. */
    method CreateLogAndRecord() returns (o: Outcome)
      modifies this
      ensures Is(PrepareLog(old(world), old(Memory()))) && o == PrepareLog(old(world), old(Memory())).outcome
    {
      var ignored := Execute(Command.Rollback, 0);
      ignored := Execute(CreateLog, 1);
      ignored := Execute(CreateLog, 0);
      var reply := Execute(Command.Begin, 2);
      if !reply.Ok? {
        return Threw;
      }
      o := CreateRecord();
    }

    /** What the transaction does to begin; the status is not its concern. */
    method TryBegin() returns (o: Outcome)
      modifies this
      ensures Is(DoBegin(old(world), old(Memory()))) && o == DoBegin(old(world), old(Memory())).outcome
    {
      o := CreateRecord();
      if o != Returned {
        o := CreateLogAndRecord();
        if o != Returned {
          return;
        }
      }
      o := BeginWithRecord();
    }

    method LookForInput() returns (o: Outcome)
      modifies this`world
      ensures Is(Look(old(world), old(Memory()))) && o == Look(old(world), old(Memory())).outcome
      ensures o == Threw <==> old(world).linked && !world.linked
      ensures o == Returned ==> world.attached == old(world).attached && world.linked == old(world).linked
    {
      if !world.linked {
        return Returned;
      }
      var e := Chance(world);
      world := BackendActs(Pass(world), e);
      if e.fate in {Deaf, Lost, Late} {
        world := Unlinked(world);
        return Threw;
      }
      return Returned;
    }

    method Begin() returns (o: Outcome)
      modifies this
      ensures Is(BeginTransaction(old(world), old(Memory()))) && o == BeginTransaction(old(world), old(Memory())).outcome
      ensures old(Ready(world) && RecordedFirst(Look(world, Memory()).world, Memory())) && o == Returned ==>
                recordId > 0 && Armed(world, recordId)
    {
      o := LookForInput();
      if o != Returned {
        return;
      }
      if Ready(world) && RecordedFirst(world, Memory()) {
        BeginArms(world, Memory());
      }
      o := TryBegin();
      if o == Returned {
        status := Active;
      }
    }

    method Activate() returns (o: Outcome)
      modifies this
      ensures Is(ActivateTransaction(old(world), old(Memory()))) && o == ActivateTransaction(old(world), old(Memory())).outcome
    {
      match status {
        case Nascent => o := Begin();
        case Active => return Returned;
        case _ => return Threw;
      }
    }

    method Rollback() returns (o: Outcome)
      modifies this
      ensures Is(DoAbort(old(world), old(Memory()))) && o == DoAbort(old(world), old(Memory())).outcome
    {
      var reply := Execute(Command.Rollback, 0);
      if !reply.Ok? {
        return Threw;
      }
      DeleteRecordForGood();
      return Returned;
    }

    method CheckRecord() returns (verdict: Verdict)
      modifies this`world
      ensures Check(world, verdict) == CheckTransactionRecord(old(world), old(Memory()), 20)
    {
      var hold := true;
      var c := 20;
      while hold && c > 0
        invariant 0 <= c <= 20
        invariant CheckTransactionRecord(old(world), old(Memory()), 20)
               == if hold then CheckTransactionRecord(world, Memory(), c)
                  else var found := Exec(world, FindRecord(recordId), 20);
                       Check(found.world, if !found.reply.Ok? then Unknown else if found.reply.answer != 0 then Exists else Absent)
      {
        var reply := Execute(AskStillRunning, 0);
        if !reply.Ok? {
          return Unknown;
        }
        hold := reply.answer != 0;
        c := c - 1;
      }
      if hold {
        return Unknown;
      }
      var found := Execute(FindRecord(recordId), 20);
      if !found.Ok? {
        return Unknown;
      }
      return if found.answer != 0 then Exists else Absent;
    }

    method TryCommit() returns (o: Outcome)
      modifies this
      ensures Is(DoCommit(old(world), old(Memory()))) && o == DoCommit(old(world), old(Memory())).outcome
    {
      if recordId == 0 {
        return Threw;
      }
      var reply := Execute(SetConstraints, 0);
      if !reply.Ok? {
        var ignored := Rollback();
        return Threw;
      }
      reply := Execute(Command.Commit, 0);
      if reply.Ok? {
        recordId := 0;
        return Returned;
      }
      if !reply.Broken? && world.linked {
        var ignored := Rollback();
        return Threw;
      }
      var verdict := CheckRecord();
      match verdict {
        case Unknown => return ThrewInDoubt;
        case Exists =>
          var ignored := Rollback();
          return Threw;
        case Absent => return Returned;
      }
    }

    method Commit() returns (o: Outcome)
      modifies this
      ensures Is(CommitTransaction(old(world), old(Memory()))) && o == CommitTransaction(old(world), old(Memory())).outcome
      ensures old(status == Active && recordId > 0 && Armed(world, recordId)) ==>
                && (o == Returned ==> status == StCommitted && world.stage == Committed && world.work == old(world.work))
                && (o == Threw ==> status == StAborted && Dead(world) && (world.attached ==> world.stuck))
                && (o == ThrewInDoubt ==> status == InDoubt)
      ensures old(status == Active && !world.linked) ==> o == Threw && status == Active && world == old(world)
      ensures old(status == Active && world.linked && recordId == 0) ==> o == Threw && status == StAborted && world == old(world)
      ensures old(status in {Nascent, StCommitted}) ==> o == Returned && status == old(status) && world == old(world)
      ensures old(status == StAborted) ==> o == Threw && status == StAborted && world == old(world)
      ensures old(status == InDoubt) ==> o == ThrewInDoubt && status == InDoubt && world == old(world)
      ensures old(status == Active && Strayed(world, recordId)) ==> Dead(world)
    {
      if status == Active && recordId > 0 && Armed(world, recordId) {
        CommitIsSafe(world, Memory());
      }
      if status == Active && Strayed(world, recordId) {
        StrayedNeverCommits(world, Memory());
      }
      match status {
        case Nascent => return Returned;
        case StAborted => return Threw;
        case StCommitted => return Returned;
        case InDoubt => return ThrewInDoubt;
        case Active =>
      }
      if !world.linked {
        return Threw;
      }
      o := TryCommit();
      status := match o
                case Returned => StCommitted
                case Threw => StAborted
                case ThrewInDoubt => InDoubt;
    }

    method Abort() returns (o: Outcome)
      modifies this
      ensures Is(AbortTransaction(old(world), old(Memory()))) && o == AbortTransaction(old(world), old(Memory())).outcome
      ensures old(status == Active && Dead(world)) ==> o == Returned && status == StAborted && Dead(world)
      ensures old(status == Active && InSession(world)) ==>
                && (old(Exec(world, Command.Rollback, 0)).reply.Ok? ==> world.stage == Aborted)
                && (world.attached <==> old(Exec(world, Command.Rollback, 0)).reply in {SqlError, LocalError})
      ensures old(status == StCommitted) ==> o == Threw && status == StCommitted && world == old(world)
      ensures old(status in {StAborted, InDoubt}) ==> o == Returned && status == old(status) && world == old(world)
      ensures old(status == Nascent) ==> o == Returned && status == StAborted && world == old(world)
    {
      if Dead(world) {
        AbortStaysDead(world, Memory());
      }
      if status == Active && InSession(world) {
        AbortRollsBack(world, Memory());
      }
      match status {
        case Nascent =>
        case Active => var ignored := Rollback();
        case StAborted => return Returned;
        case StCommitted => return Threw;
        case InDoubt => return Returned;
      }
      status := StAborted;
      return Returned;
    }

    method Statement() returns (o: Outcome)
      modifies this
      ensures Is(ExecStatement(old(world), old(Memory()))) && o == ExecStatement(old(world), old(Memory())).outcome
      ensures old(status == Active && Armed(world, recordId)) ==>
                if o == Returned then status == Active && Armed(world, recordId) && world.work == old(world.work) + 1
                else status == StAborted && Dead(world) && (world.attached ==> world.stuck)
      ensures old(status in {StCommitted, StAborted, InDoubt}) ==> o == Threw && status == old(status) && world == old(world)
    {
      o := Activate();
      if o != Returned {
        return;
      }
      if Armed(world, recordId) {
        ExecStaysArmed(world, UserStatement, recordId);
        StatementKeepsSeat(world, recordId, RecordFirst, false);
        ExecStaysWired(world, UserStatement);
        AbortIsClean(Exec(world, UserStatement, 0).world, Memory());
      }
      var reply := Execute(UserStatement, 0);
      if !reply.Ok? {
        var ignored := Abort();
        return Threw;
      }
      return Returned;
    }

    /** A statement executed past the transaction object. */
    method DirectStatement() returns (o: Outcome)
      modifies this`world
      ensures Is(ExecDirect(old(world), old(Memory()))) && o == ExecDirect(old(world), old(Memory())).outcome
      ensures old(Armed(world, recordId)) ==>
                if o == Returned || world.attached then Armed(world, recordId) else Strayed(world, recordId)
      ensures old(Armed(world, recordId)) && o == Returned ==> world.work == old(world.work) + 1
    {
      if Armed(world, recordId) {
        ExecStaysArmed(world, UserStatement, recordId);
        StatementKeepsSeat(world, recordId, RecordFirst, false);
      }
      var reply := Execute(UserStatement, 0);
      return if reply.Ok? then Returned else Threw;
    }

    method ReactivateConnection() returns (o: Outcome)
      modifies this`world
      ensures Is(Reactivate(old(world), old(Memory()))) && o == Reactivate(old(world), old(Memory())).outcome
      ensures (o == Returned <==> world.linked) && world.attached == old(world).attached
      ensures old(world).linked ==> world == old(world)
    {
      if world.linked {
        return Returned;
      }
      var e := Chance(world);
      world := BackendActs(Pass(world), e);
      if !e.reconnects {
        return Threw;
      }
      world := world.(linked := true);
      return Returned;
    }
  }
}
