/** What a connection remembers of its session on the server: which statements are prepared in it,
    and what it listens for.  The connection may be lost at any time, and is then established anew,
    with a new session that knows nothing; and what the client remembers must still be right. */
module Sessions {
  import opened Basics

  // ---------- The server's session ----------

  datatype Session = Session(named: map<string, string>, unnamed: Option<string>, listening: set<string>)

  const NEW_SESSION := Session(map[], None, {})

  predicate Holds(s: Session, name: string, definition: string) {
    if name == "" then s.unnamed == Some(definition) else name in s.named && s.named[name] == definition
  }

  function Told(s: Session, name: string, definition: string): Session {
    if name == "" then s.(unnamed := Some(definition)) else s.(named := s.named[name := definition])
  }

  /** Commands that affect the session, or any other. */
  datatype Command = Deallocate(name: string) | Listen(channel: string) | Unlisten(channel: string) | Other

  function After(s: Session, c: Command): Session {
    match c
    case Deallocate(name) => s.(named := s.named - {name})
    case Listen(channel) => s.(listening := s.listening + {channel})
    case Unlisten(channel) => s.(listening := s.listening - {channel})
    case Other => s
  }

  /** What the server hears from the client, other than in restoring a session's state; and whether
      it did what it was told, or refused. */
  datatype Message =
    | ToDo(command: Command, done: bool)
    | ToDefine(name: string, text: string, done: bool)
    | ToRun(text: string, done: bool)

  // ---------- What the client remembers ----------

  /** The connection object of the client library: there may be none, or a broken one. */
  datatype Handle = Null | Bad | Good

  datatype Definition = Definition(text: string, registered: bool)

  function Unregistered(prepared: map<string, Definition>): map<string, Definition> {
    map name | name in prepared :: prepared[name].(registered := false)
  }

  function Texts(prepared: map<string, Definition>): map<string, string> {
    map name | name in prepared :: prepared[name].text
  }

  /** Exactly the registered statements are known to the session, by their definitions. */
  ghost predicate Registered(prepared: map<string, Definition>, named: map<string, string>) {
    && "" !in named && ("" in prepared ==> !prepared[""].registered)
    && (forall name :: name in named <==> name in prepared && prepared[name].registered)
    && (forall name :: name in named ==> named[name] == prepared[name].text)
  }

  datatype Reply = Okay | Failed | NoReply

  datatype Why = BrokenConnection | SqlError | Unsupported | Failure | Inconsistent | UnknownStatement

  datatype Outcome = Done | Thrown(why: Why)

  /** What may come of connecting. */
  const CONNECTING := {Done, Thrown(BrokenConnection), Thrown(Unsupported), Thrown(Failure)}

  class Connection {
    var handle: Handle
    var completed: bool
    var inhibited: bool
    var avoidance: int
    var prepared: map<string, Definition>
    var receivers: map<string, seq<nat>>
    var hasVariables: bool

    /** The server's side; and whether it can still be reached. */
    var linked: bool
    var session: Session

    /** Everything that the server has heard, in whatever session. */
    ghost var heard: seq<Message>

    /** How often the server was not to be reached, or could not be used. */
    ghost var troubles: nat

    /** Did the server accept what was to be restored, when the session began? */
    ghost var restored: bool

    predicate IsOpen()
      reads this`handle, this`completed
    {
      handle == Good && completed
    }

    ghost predicate Live()
      reads this`handle, this`linked
    {
      handle == Good && linked
    }

    /** In an open session exactly the registered statements are known; one that is not (yet) open
        knows none, and there is no such one while reconnecting is to be avoided. */
    ghost predicate Valid()
      reads this
    {
      && (forall c :: c in receivers ==> receivers[c] != [])
      && (Live() && completed ==> Registered(prepared, session.named))
      && (Live() && completed && restored ==> receivers.Keys <= session.listening)
      && (handle == Good && !completed ==> avoidance == 0 && (linked ==> session == NEW_SESSION))
    }

    constructor ()
      ensures Valid() && prepared == map[] && receivers == map[]
    {
      handle, completed, inhibited, avoidance, hasVariables := Null, false, false, 0, false;
      prepared, receivers := map[], map[];
      linked, session, restored, heard, troubles := false, NEW_SESSION, true, [], 0;
    }

    // ---------- Talking to the server ----------

    method Lose()
      modifies this`handle, this`linked, this`troubles
      ensures handle == (if old(handle) == Good then Bad else old(handle)) && troubles == old(troubles) + 1
    {
      linked, troubles := false, troubles + 1;
      if handle == Good {
        handle := Bad;
      }
    }

    /** A message to the server gets through, or the connection is found to be lost. */
    method Reach() returns (reached: bool)
      modifies this`handle, this`linked, this`troubles
      ensures reached ==> Live() && old(Live()) && handle == old(handle)
      ensures troubles == old(troubles) + if reached then 0 else 1
      ensures !reached ==> handle == if old(handle) == Good then Bad else old(handle)
    {
      reached := *;
      reached := reached && handle == Good && linked;
      if !reached {
        Lose();
      }
    }

    /** Have the server execute a command; its reply may be lost. */
    method Command(c: Command) returns (r: Reply)
      modifies this`handle, this`linked, this`troubles, this`session, this`heard
      ensures r == NoReply ==> handle != Good
      ensures troubles == old(troubles) + if r == NoReply then 1 else 0
      ensures heard == old(heard) + [ToDo(c, r != Failed)] || (r == NoReply && heard == old(heard))
      ensures r == Okay ==> old(Live()) && Live() && session == After(old(session), c) && (c.Deallocate? ==> c.name in old(session).named)
      ensures r == Failed ==> old(Live()) && Live() && session == old(session)
      ensures handle == old(handle) || (old(handle) == Good && handle == Bad)
    {
      var reached := Reach();
      if !reached {
        return NoReply;
      }
      var fails: bool := *;
      fails := fails || (c.Deallocate? && c.name !in session.named);
      heard := heard + [ToDo(c, !fails)];
      if fails {
        return Failed;
      }
      session := After(session, c);
      reached := Reach();
      r := if reached then Okay else NoReply;
    }

    /** Define a statement in the session.  There must be none of that name yet. */
    method SendPrepare(name: string, text: string) returns (r: Reply)
      requires Live() && name != "" ==> name !in session.named
      modifies this`handle, this`linked, this`troubles, this`session, this`heard
      ensures r == NoReply ==> handle != Good
      ensures troubles == old(troubles) + if r == NoReply then 1 else 0
      ensures heard == old(heard) + [ToDefine(name, text, r != Failed)] || (r == NoReply && heard == old(heard))
      ensures r == Okay ==> old(Live()) && Live() && session == Told(old(session), name, text)
      ensures r == Failed ==> old(Live()) && Live() && session == old(session)
      ensures handle == old(handle) || (old(handle) == Good && handle == Bad)
    {
      var reached := Reach();
      if !reached {
        return NoReply;
      }
      var fails: bool := *;
      heard := heard + [ToDefine(name, text, !fails)];
      if fails {
        return Failed;
      }
      session := Told(session, name, text);
      reached := Reach();
      r := if reached then Okay else NoReply;
    }

    /** Execute a statement that the session knows; ran is what the server executes. */
    method SendExecPrepared(name: string, ghost text: string) returns (r: Reply, ran: string)
      requires Live() ==> Holds(session, name, text)
      modifies this`handle, this`linked, this`troubles, this`heard
      ensures r == NoReply ==> handle != Good
      ensures troubles == old(troubles) + if r == NoReply then 1 else 0
      ensures heard == old(heard) + [ToRun(text, r != Failed)] || (r == NoReply && heard == old(heard))
      ensures r != NoReply ==> old(Live()) && Live()
      ensures r == Okay ==> ran == text
      ensures handle == old(handle) || (old(handle) == Good && handle == Bad)
    {
      ran := "";
      var reached := Reach();
      if !reached {
        return NoReply, ran;
      }
      ran := if name == "" then session.unnamed.value else session.named[name];
      var fails: bool := *;
      heard := heard + [ToRun(ran, !fails)];
      if fails {
        return Failed, ran;
      }
      reached := Reach();
      r := if reached then Okay else NoReply;
    }

    function CheckResult(r: Reply): (o: Outcome)
      reads this`handle, this`completed
      ensures o == Done <==> IsOpen() && r == Okay
    {
      if !IsOpen() then Thrown(BrokenConnection)
      else match r
           case NoReply => Thrown(Failure)
           case Failed => Thrown(SqlError)
           case Okay => Done
    }

    /** Nothing is thrown without cause: the server refused; or it was not to be reached, or this was
        known before. */
    ghost predicate Explained(o: Outcome, troubles: nat, handle: Handle)
      reads this
    {
      && troubles <= this.troubles
      && (o !in {Done, Thrown(SqlError)} ==> !IsOpen() && (troubles < this.troubles || inhibited || handle == Bad))
    }

    // ---------- Connecting ----------

    /** Restore what there is of a session's state. */
    method SetupState() returns (o: Outcome)
      requires handle != Null && avoidance == 0 && (Live() ==> session == NEW_SESSION)
      requires forall c :: c in receivers ==> receivers[c] != []
      modifies this`handle, this`completed, this`linked, this`troubles, this`session, this`prepared, this`restored
      ensures o == Done ==> IsOpen() && Valid() && prepared == Unregistered(old(prepared)) && (Live() ==> session.named == map[])
      ensures o == Done && Live() ==> session.listening == if restored then receivers.Keys else {}
      ensures o != Done ==>
                handle != Good || (o == Thrown(Unsupported) && completed == old(completed) && (Live() ==> session == NEW_SESSION))
      ensures troubles >= old(troubles) && (o != Done ==> troubles > old(troubles) || old(handle) == Bad)
      ensures o in CONNECTING && (o != Done ==> prepared == old(prepared) || prepared == Unregistered(old(prepared)))
    {
      if handle != Good {
        handle := Null;
        return Thrown(Failure);
      }
      var supported: bool := *;
      if !supported {
        troubles := troubles + 1;
        return Thrown(Unsupported);
      }
      prepared := Unregistered(prepared);
      restored := true;
      if receivers != map[] || hasVariables {
        Restore();
      }
      completed := true;
      if !IsOpen() {
        return Thrown(BrokenConnection);
      }
      o := Done;
    }

    /** All in one batch.  If any of it fails then none of it has an effect; and nobody is told. */
    method Restore()
      modifies this`handle, this`linked, this`troubles, this`session, this`restored
      ensures session.named == old(session).named && session.unnamed == old(session).unnamed
      ensures restored ==> session.listening == old(session).listening + receivers.Keys
      ensures !restored ==> session == old(session)
      ensures handle == old(handle) || (old(handle) == Good && handle == Bad)
      ensures Live() ==> old(Live())
      ensures troubles >= old(troubles) && (handle != old(handle) ==> troubles > old(troubles))
    {
      var accepted: bool := *;
      restored := accepted;
      if accepted {
        session := session.(listening := session.listening + receivers.Keys);
      }
      var lost: bool := *;
      if lost {
        Lose();
      }
    }

    /** Have an open connection, unless that is to be avoided.  A connection known to be broken is only
        given up by this; a new one is established the next time. */
    method Activate() returns (o: Outcome)
      requires Valid()
      modifies this`handle, this`completed, this`linked, this`troubles, this`session, this`prepared, this`restored
      ensures Valid() && o in CONNECTING
      ensures !old(IsOpen()) && inhibited ==> o == Thrown(BrokenConnection) && handle == old(handle) && Untouched(old(Remembered()))
      ensures old(handle) == Bad && avoidance == 0 && !inhibited ==> handle == Null
      ensures troubles >= old(troubles) && (o != Done ==> troubles > old(troubles) || inhibited || (old(handle) == Bad && avoidance == 0))
      ensures old(IsOpen()) ==>
                && o == Done && IsOpen() && prepared == old(prepared) && session == old(session)
                && linked == old(linked) && restored == old(restored)
      ensures !old(IsOpen()) && o == Done && IsOpen() ==> prepared == Unregistered(old(prepared)) && (Live() ==> session.named == map[])
      ensures !old(IsOpen()) && IsOpen() && Live() ==> session.listening == if restored then receivers.Keys else {}
      ensures !old(IsOpen()) && old(handle) == Bad ==> o != Done || avoidance != 0
      ensures o == Done && !IsOpen() ==> avoidance != 0 && handle != Good && prepared == old(prepared)
      ensures o != Done ==> !IsOpen() && (prepared == old(prepared) || prepared == Unregistered(old(prepared)))
      ensures avoidance != 0 && !old(IsOpen()) ==> !IsOpen() && (o == Done ==> handle != Good)
      ensures !old(IsOpen()) && (old(handle) == Bad || avoidance != 0) ==> GaveUp(old(handle), o) && Untouched(old(Remembered()))
    {
      if IsOpen() {
        return Done;
      }
      if inhibited {
        return Thrown(BrokenConnection);
      }
      if avoidance != 0 {
        return Done;
      }
      if handle == Null {
        var connected: bool := *;
        if !connected {
          completed, troubles := false, troubles + 1;
          return Thrown(BrokenConnection);
        }
        handle, linked, session := Good, true, NEW_SESSION;
      }
      completed := true;
      if !IsOpen() {
        handle, completed := Null, false;
        return Thrown(BrokenConnection);
      }
      o := SetupState();
      if o == Thrown(BrokenConnection) {
        handle, completed := Null, false;
      } else if o != Done {
        completed := false;
      }
    }

    /** Everything but the connection object. */
    ghost function Remembered(): (map<string, Definition>, Session, bool, bool)
      reads this
    {
      (prepared, session, linked, restored)
    }

    ghost predicate Untouched(before: (map<string, Definition>, Session, bool, bool))
      reads this
    {
      Remembered() == before
    }

    /** A broken connection was given up, unless that is inhibited or reconnecting is to be avoided. */
    predicate GaveUp(before: Handle, o: Outcome)
      reads this`handle, this`avoidance, this`inhibited
    {
      if o == Done then avoidance != 0 && handle == before
      else o == Thrown(BrokenConnection) && handle == if inhibited then before else Null
    }

    /** Make a result of what the server replied.  For this the connection is activated; so if it was
        lost then it is given up here, and nobody gets to see that there was no reply. */
    method MakeResult() returns (o: Outcome)
      requires !IsOpen() ==> handle == Bad || (handle == Null && avoidance != 0)
      requires forall c :: c in receivers ==> receivers[c] != []
      modifies this`handle, this`completed, this`linked, this`troubles, this`session, this`prepared, this`restored
      ensures Untouched(old(Remembered())) && IsOpen() == old(IsOpen()) && troubles >= old(troubles)
      ensures if IsOpen() then o == Done && handle == old(handle) else GaveUp(old(handle), o)
    {
      if IsOpen() {
        return Done;
      }
      o := Activate();
    }

    /** Reset the connection: a new session, over the same connection object if there is one. */
    method Reset() returns (o: Outcome)
      requires Valid()
      modifies this`handle, this`completed, this`linked, this`troubles, this`session, this`prepared, this`restored
      ensures Valid() && o in CONNECTING
      ensures inhibited ==> o == Thrown(BrokenConnection) && handle == old(handle) && Untouched(old(Remembered()))
      ensures troubles >= old(troubles) && (o != Done ==> troubles > old(troubles) || inhibited)
      ensures o == Done && avoidance == 0 ==> IsOpen() && prepared == Unregistered(old(prepared))
      ensures o == Done && avoidance == 0 && Live() ==>
                session.named == map[] && session.listening == if restored then receivers.Keys else {}
      ensures prepared == old(prepared) || prepared == Unregistered(old(prepared))
      ensures avoidance != 0 ==>
                Untouched(old(Remembered())) && handle == old(handle) && completed == old(completed)
                && o in {Done, Thrown(BrokenConnection)}
    {
      if inhibited {
        return Thrown(BrokenConnection);
      }
      if avoidance != 0 {
        return Done;
      }
      completed := false;
      if handle != Null {
        var connected: bool := *;
        linked := connected;
        handle := if connected then Good else Bad;
        troubles := if connected then troubles else troubles + 1;
        session := NEW_SESSION;
        o := SetupState();
      } else {
        o := Activate();
      }
    }

    /** Execute a command.  Should the connection be lost it is to be tried again some times; but it never
        is, because then making a result throws, or else reconnecting is to be avoided. */
    method Exec(c: Command, retries: nat) returns (o: Outcome, ghost sent: nat)
      requires Valid() && (!c.Other? ==> retries == 0 && !c.Listen?)
      modifies this`handle, this`completed, this`linked, this`troubles, this`session, this`prepared, this`restored, this`heard
      ensures prepared == old(prepared) || prepared == Unregistered(old(prepared))
      ensures o != Done || c.Other? ==> Valid()
      ensures sent <= 1 && (o == Done ==> sent == 1 && heard == old(heard) + [ToDo(c, true)])
      ensures o == Thrown(SqlError) ==> heard == old(heard) + [ToDo(c, false)]
      ensures heard == old(heard) || heard == old(heard) + [ToDo(c, o != Thrown(SqlError))]
      ensures Explained(o, old(troubles), old(handle))
      ensures o == Thrown(SqlError) && !old(IsOpen()) && retries == 0 ==> prepared == Unregistered(old(prepared))
      ensures o == Done && c.Deallocate? ==>
                && old(Live() && completed) && Live() && completed && session == After(old(session), c)
                && prepared == old(prepared) && restored == old(restored)
      ensures o == Done && c.Unlisten? ==>
                && Live() && completed && Registered(prepared, session.named)
                && (restored ==> receivers.Keys - {c.channel} <= session.listening) && c.channel !in session.listening
    {
      sent := 0;
      o := Activate();
      if o != Done {
        return;
      }
      var r := Command(c);
      sent := 1;
      o := MakeResult();
      if o != Done {
        return;
      }
      if retries > 0 {
        o := Retry(retries, r);
        if o != Done {
          return;
        }
      }
      o := CheckResult(r);
    }

    /** While there is no reply, reset the connection, and send the command again if it is open then. */
    method Retry(retries: nat, r: Reply) returns (o: Outcome)
      requires Valid() && (r == NoReply ==> avoidance != 0 && !IsOpen())
      modifies this`handle, this`completed, this`linked, this`troubles, this`session, this`prepared, this`restored
      ensures Valid() && Untouched(old(Remembered())) && handle == old(handle) && completed == old(completed)
      ensures o in {Done, Thrown(BrokenConnection)} && troubles >= old(troubles) && (o != Done ==> r == NoReply && !IsOpen())
    {
      o := Done;
      var left := retries;
      while left > 0 && r == NoReply && !IsOpen()
        invariant Valid() && Untouched(old(Remembered())) && handle == old(handle) && completed == old(completed)
        invariant o == Done && troubles >= old(troubles)
        decreases left
      {
        left := left - 1;
        o := Reset();
        if o != Done {
          return;
        }
        if IsOpen() {
          // Here the command would be sent again.
          assert false;
        }
      }
    }

    // ---------- Prepared statements ----------

    /** Define a statement; the server is told only when it is needed. */
    method Prepare(name: string, text: string) returns (o: Outcome)
      requires Valid()
      modifies this`prepared
      ensures Valid()
      ensures o == Thrown(Inconsistent) <==> name != "" && name in old(prepared) && old(prepared)[name].text != text
      ensures o == Thrown(Inconsistent) ==> prepared == old(prepared)
      ensures o != Thrown(Inconsistent) ==> o == Done && Texts(prepared) == Texts(old(prepared))[name := text]
    {
      if name !in prepared {
        prepared := prepared[name := Definition(text, false)];
      } else if text != prepared[name].text {
        if name != "" {
          return Thrown(Inconsistent);
        }
        prepared := prepared[name := Definition(text, false)];
      }
      assert Texts(prepared) == Texts(old(prepared))[name := text];
      o := Done;
    }

    /** Forget a statement.  If the session was lost since the statement was registered this fails, and
        so does every attempt until there is a new session; in which the statement is not registered. */
    method Unprepare(name: string) returns (o: Outcome)
      requires Valid()
      modifies this`handle, this`completed, this`linked, this`troubles, this`session, this`prepared, this`restored, this`heard
      ensures Valid()
      ensures name !in old(prepared) || !old(prepared)[name].registered ==> o == Done && session == old(session) && handle == old(handle)
      ensures o == Done ==> Texts(prepared) == Texts(old(prepared)) - {name}
      ensures heard == old(heard) || heard == old(heard) + [ToDo(Deallocate(name), o != Thrown(SqlError))]
      ensures o == Done ==>
                (heard == old(heard) + [ToDo(Deallocate(name), true)] <==> name in old(prepared) && old(prepared)[name].registered)
      ensures Explained(o, old(troubles), old(handle)) && (o == Thrown(SqlError) ==> heard != old(heard))
      ensures o != Done ==> Texts(prepared) == Texts(old(prepared))
      ensures name in old(prepared) && old(prepared)[name].registered && !old(Live() && completed) ==> o != Done
      ensures o == Thrown(SqlError) && !old(IsOpen()) ==> name in prepared && !prepared[name].registered
    {
      TextsStay(prepared);
      if name !in prepared {
        assert Texts(prepared) == Texts(old(prepared)) - {name};
        return Done;
      }
      RegisteredWithout(prepared, session.named, name);
      if prepared[name].registered {
        ghost var sent;
        o, sent := Exec(Deallocate(name), 0);
        if o != Done {
          return;
        }
      }
      prepared := prepared - {name};
      assert Texts(prepared) == Texts(old(prepared)) - {name};
      o := Done;
    }

    /** Make sure that the session knows the statement. */
    method RegisterPrepared(name: string) returns (o: Outcome)
      requires Valid()
      modifies this`handle, this`completed, this`linked, this`troubles, this`session, this`prepared, this`restored, this`heard
      ensures Valid() && Texts(prepared) == Texts(old(prepared))
      ensures o == Done ==> name in prepared && (Live() && completed ==> Holds(session, name, prepared[name].text))
      ensures o == Done && !IsOpen() ==> avoidance != 0 && handle != Good
      ensures o == Thrown(UnknownStatement) ==> name !in prepared
      ensures || heard == old(heard)
              || (name in prepared && heard == old(heard) + [ToDefine(name, prepared[name].text, o != Thrown(SqlError))])
      ensures o == Thrown(UnknownStatement) || Explained(o, old(troubles), old(handle))
      ensures (o == Thrown(SqlError) ==> heard != old(heard)) && troubles >= old(troubles)
    {
      TextsStay(prepared);
      o := Activate();
      if o != Done {
        return;
      }
      if name !in prepared {
        return Thrown(UnknownStatement);
      }
      if !prepared[name].registered {
        o := Register(name);
      }
    }

    method Register(name: string) returns (o: Outcome)
      requires Valid() && name in prepared && !prepared[name].registered && (handle == Good ==> completed)
      requires handle == Null ==> avoidance != 0
      modifies this`handle, this`completed, this`linked, this`troubles, this`session, this`prepared, this`restored, this`heard
      ensures Valid() && prepared.Keys == old(prepared).Keys && Texts(prepared) == Texts(old(prepared))
      ensures o == Done ==> Live() && completed && Holds(session, name, prepared[name].text)
      ensures heard == old(heard) || heard == old(heard) + [ToDefine(name, prepared[name].text, o != Thrown(SqlError))]
      ensures Explained(o, old(troubles), old(handle)) && (o in {Done, Thrown(SqlError)} ==> heard != old(heard))
      ensures o in {Done, Thrown(BrokenConnection), Thrown(SqlError), Thrown(Failure)}
    {
      RegisteredWith(prepared, session.named, name);
      var r := SendPrepare(name, prepared[name].text);
      o := MakeResult();
      if o != Done {
        return;
      }
      o := CheckResult(r);
      if o == Done {
        prepared := prepared[name := prepared[name].(registered := name != "")];
        assert Texts(prepared) == Texts(old(prepared));
      }
    }

    /** Execute a prepared statement.  If that succeeds then what the server executed is the statement
        that goes by this name. */
    method PreparedExec(name: string) returns (o: Outcome, ran: string)
      requires Valid()
      modifies this`handle, this`completed, this`linked, this`troubles, this`session, this`prepared, this`restored, this`heard
      ensures Valid() && Texts(prepared) == Texts(old(prepared))
      ensures o == Done ==> name in old(prepared) && ran == old(prepared)[name].text
      ensures name !in old(prepared) ==> o != Done
      ensures o == Done ==>
                || heard == old(heard) + [ToRun(ran, true)]
                || heard == old(heard) + [ToDefine(name, ran, true)] + [ToRun(ran, true)]
      ensures o == Thrown(SqlError) ==> old(heard) < heard && !heard[|heard| - 1].done
      ensures o == Thrown(UnknownStatement) || Explained(o, old(troubles), old(handle))
    {
      ran := "";
      o := RegisterPrepared(name);
      if o != Done {
        return;
      }
      o, ran := ExecRegistered(name, Texts(prepared)[name]);
    }

    /** Execute a statement that the session knows, if it is open. */
    method ExecRegistered(name: string, ghost text: string) returns (o: Outcome, ran: string)
      requires Valid() && (Live() && completed ==> Holds(session, name, text))
      requires IsOpen() || (avoidance != 0 && handle != Good)
      modifies this`handle, this`completed, this`linked, this`troubles, this`session, this`prepared, this`restored, this`heard
      ensures Valid() && Texts(prepared) == Texts(old(prepared))
      ensures o == Done ==> ran == text
      ensures heard == old(heard) || heard == old(heard) + [ToRun(text, o != Thrown(SqlError))]
      ensures o in {Done, Thrown(SqlError)} ==> heard != old(heard)
      ensures Explained(o, old(troubles), Good)
    {
      ran := "";
      TextsStay(prepared);
      o := Activate();
      if o != Done {
        return;
      }
      var r;
      r, ran := SendExecPrepared(name, text);
      o := MakeResult();
      if o != Done {
        return;
      }
      o := CheckResult(r);
    }

    // ---------- Notification ----------

    /** Have a receiver notified of what happens on a channel.  If the server refuses then the receiver
        is not added; but it is, if it turns out that there is no server any more. */
    method AddReceiver(channel: string, id: nat) returns (o: Outcome)
      requires Valid()
      modifies this`handle, this`completed, this`linked, this`troubles, this`session,
               this`prepared, this`restored, this`heard, this`receivers
      ensures Valid() && o in {Done, Thrown(SqlError)} && prepared == old(prepared)
      ensures o == Thrown(SqlError) ==> receivers == old(receivers) && channel !in receivers
      ensures o == Thrown(SqlError) ==> heard == old(heard) + [ToDo(Listen(channel), false)]
      ensures o == Done && channel !in old(receivers) && old(IsOpen()) ==>
                heard == old(heard) + [ToDo(Listen(channel), true)] || !IsOpen()
      ensures troubles >= old(troubles) && (!IsOpen() ==> !old(IsOpen()) || troubles > old(troubles))
      ensures channel in old(receivers) || !old(IsOpen()) ==> heard == old(heard)
      ensures o == Done && channel !in old(receivers) && Live() && old(completed) ==> channel in session.listening
      ensures o == Done ==>
                receivers == old(receivers)[channel := if channel in old(receivers) then old(receivers)[channel] + [id] else [id]]
    {
      if channel !in receivers {
        if IsOpen() {
          var r := Command(Listen(channel));
          o := MakeResult();
          if o == Done {
            o := CheckResult(r);
          }
          if o != Done && o != Thrown(BrokenConnection) {
            return;
          }
        }
        receivers := receivers[channel := [id]];
      } else {
        receivers := receivers[channel := receivers[channel] + [id]];
      }
      o := Done;
    }

    /** Remove a receiver, and stop listening if it was the last on its channel.  Nothing is thrown: what
        comes of the UNLISTEN stays unknown to the caller. */
    method RemoveReceiver(channel: string, id: nat) returns (known: bool, ghost o: Outcome)
      requires Valid()
      modifies this
      ensures Valid() && Texts(prepared) == Texts(old(prepared))
      ensures known <==> channel in old(receivers) && id in old(receivers)[channel]
      ensures !known ==> receivers == old(receivers)
      ensures known ==> receivers == Without(old(receivers), channel, id)
      ensures known && channel !in receivers && old(handle) != Null ==>
                Explained(o, old(troubles), old(handle)) &&
                (o in {Done, Thrown(SqlError)} ==> heard == old(heard) + [ToDo(Unlisten(channel), o == Done)])
      ensures known && channel !in receivers && old(handle) != Null && o == Done ==> Live() && channel !in session.listening
      ensures channel in receivers || !known ==> heard == old(heard)
    {
      TextsStay(prepared);
      o := Done;
      if channel !in receivers || id !in receivers[channel] {
        return false, o;
      }
      var gone := handle != Null && |receivers[channel]| == 1;
      receivers := Without(receivers, channel, id);
      if gone {
        ghost var sent;
        var thrown;
        thrown, sent := Exec(Unlisten(channel), 0);
        o := thrown;
      }
      known := true;
    }

    // ---------- Being connected, or not ----------

    method Deactivate()
      requires Valid()
      modifies this`handle, this`completed
      ensures Valid() && (avoidance == 0 ==> !IsOpen() && handle == Null && (old(handle) != Null ==> !completed))
      ensures avoidance != 0 ==> handle == old(handle) && completed == old(completed)
    {
      if handle == Null || avoidance != 0 {
        return;
      }
      completed := false;
      handle := Null;
    }

    method InhibitReactivation(inhibit: bool)
      requires Valid()
      modifies this`inhibited
      ensures Valid() && inhibited == inhibit
    {
      inhibited := inhibit;
    }

    /** Something came to depend on this very session, or does not any more.  A connection that could
        not be completed has nothing to depend on it. */
    method Avoid(n: int)
      requires Valid() && (handle == Good ==> completed)
      modifies this`avoidance
      ensures Valid() && avoidance == old(avoidance) + n
    {
      avoidance := avoidance + n;
    }
  }

  /** One occurrence less; the last one leaves no entry. */
  function Without(receivers: map<string, seq<nat>>, channel: string, id: nat): map<string, seq<nat>>
    requires channel in receivers && id in receivers[channel]
  {
    var ids := receivers[channel];
    if |ids| == 1 then receivers - {channel} else receivers[channel := Remove(ids, IndexOf(ids, id))]
  }

  lemma RegisteredWithout(prepared: map<string, Definition>, named: map<string, string>, name: string)
    ensures Registered(prepared, named) ==> Registered(prepared - {name}, named - {name})
    ensures Registered(prepared, named) && name in prepared && !prepared[name].registered ==> Registered(prepared - {name}, named)
  {
  }

  lemma RegisteredWith(prepared: map<string, Definition>, named: map<string, string>, name: string)
    requires name in prepared && !prepared[name].registered
    ensures Registered(prepared, named) && name != "" ==>
              Registered(prepared[name := prepared[name].(registered := true)], named[name := prepared[name].text])
    ensures prepared[name := prepared[name].(registered := false)] == prepared
  {
  }

  lemma TextsStay(prepared: map<string, Definition>)
    ensures Texts(Unregistered(prepared)) == Texts(prepared)
  {
  }

  // ---------- Runs ----------

  datatype Operation =
    | Prepare(name: string, text: string)
    | Unprepare(name: string)
    | PrepareNow(name: string)
    | PreparedExec(name: string)
    | Query(retries: nat)
    | AddReceiver(channel: string, id: nat)
    | RemoveReceiver(channel: string, id: nat)
    | Activate
    | Deactivate
    | Reset
    | Inhibit(inhibit: bool)
    | Avoid(n: int)

  /** What the user sees: definitions made and dropped, and what executions were of. */
  datatype Event = Defined(name: string, text: string) | Dropped(name: string) | Ran(name: string, text: string)

  function Then(inForce: map<string, string>, e: Event): map<string, string> {
    match e
    case Defined(name, text) => inForce[name := text]
    case Dropped(name) => inForce - {name}
    case Ran(_, _) => inForce
  }

  /** The definitions in force after a sequence of events. */
  function InForce(trace: seq<Event>): map<string, string> {
    if trace == [] then map[] else Then(InForce(trace[..|trace| - 1]), trace[|trace| - 1])
  }

  predicate Allowed(inForce: map<string, string>, e: Event) {
    e.Ran? ==> e.name in inForce && inForce[e.name] == e.text
  }

  /** Whatever ran under some name was the definition then in force. */
  ghost predicate Faithful(trace: seq<Event>) {
    forall k :: 0 <= k < |trace| ==> Allowed(InForce(trace[..k]), trace[k])
  }

  /** What is told of an operation that succeeds. */
  function Telling(op: Operation, inForce: map<string, string>): seq<Event> {
    match op
    case Prepare(name, text) => [Defined(name, text)]
    case Unprepare(name) => [Dropped(name)]
    case PreparedExec(name) => if name in inForce then [Ran(name, inForce[name])] else []
    case _ => []
  }

  lemma FaithfulNext(trace: seq<Event>, e: Event)
    requires Faithful(trace) && Allowed(InForce(trace), e)
    ensures Faithful(trace + [e]) && InForce(trace + [e]) == Then(InForce(trace), e)
  {
    var all := trace + [e];
    assert all[..|trace|] == trace;
    forall k | 0 <= k < |all| ensures Allowed(InForce(all[..k]), all[k]) {
      if k < |trace| { assert all[..k] == trace[..k]; }
    }
  }

  /** Carry out an operation, and tell of definitions and executions. */
  method Perform(c: Connection, op: Operation) returns (o: Outcome, events: seq<Event>)
    requires c.Valid()
    modifies c
    ensures c.Valid() && |events| <= 1
    ensures events == [] ==> Texts(c.prepared) == Texts(old(c.prepared))
    ensures events != [] ==>
              && Allowed(Texts(old(c.prepared)), events[0])
              && Texts(c.prepared) == Then(Texts(old(c.prepared)), events[0])
    ensures events == if o == Done then Telling(op, Texts(old(c.prepared))) else []
    ensures o == Done && op.Query? ==> c.heard == old(c.heard) + [ToDo(Other, true)]
    ensures o == Done && op.PreparedExec? ==>
              events != [] && events[0].Ran? && c.heard != [] && c.heard[|c.heard| - 1] == ToRun(events[0].text, true)
  {
    o, events := Done, [];
    TextsStay(c.prepared);
    match op {
      case Prepare(name, text) =>
        o := c.Prepare(name, text);
        if o == Done {
          events := [Defined(name, text)];
        }
      case Unprepare(name) =>
        o := c.Unprepare(name);
        if o == Done {
          events := [Dropped(name)];
        }
      case PrepareNow(name) =>
        o := c.RegisterPrepared(name);
      case PreparedExec(name) =>
        var ran;
        o, ran := c.PreparedExec(name);
        if o == Done {
          events := [Ran(name, ran)];
        }
      case Query(retries) =>
        ghost var sent;
        o, sent := c.Exec(Other, retries);
      case AddReceiver(channel, id) =>
        o := c.AddReceiver(channel, id);
      case RemoveReceiver(channel, id) =>
        ghost var thrown;
        var known;
        known, thrown := c.RemoveReceiver(channel, id);
      case Activate =>
        o := c.Activate();
      case Deactivate => c.Deactivate();
      case Reset =>
        o := c.Reset();
      case Inhibit(inhibit) => c.InhibitReactivation(inhibit);
      case Avoid(n) =>
        if c.IsOpen() {
          c.Avoid(n);
        }
    }
  }

  /** Whatever is done with a connection, and whenever it gets lost: what is executed under some name
      is the definition last made under that name. */
  method Run(c: Connection, ops: seq<Operation>) returns (trace: seq<Event>)
    requires c.Valid() && c.prepared == map[]
    modifies c
    ensures c.Valid() && Faithful(trace) && InForce(trace) == Texts(c.prepared)
  {
    trace := [];
    var i := 0;
    while i < |ops|
      invariant 0 <= i <= |ops| && c.Valid() && Faithful(trace) && InForce(trace) == Texts(c.prepared)
    {
      var o, events := Perform(c, ops[i]);
      if events != [] {
        FaithfulNext(trace, events[0]);
        trace := trace + [events[0]];
      }
      i := i + 1;
    }
  }
}
