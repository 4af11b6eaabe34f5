/** The shutdown gate of the background service (app/src/background_service.rs): up to eight
    concurrent handlers, the `closing` mutex, the registration lock and `Drop`, as a state
    machine. Its log is shown to be a run of a small sequential gate. */
module ServiceGate {

  datatype OwnerMode = Standalone | Background

  /** One service: its generation and executable never change while it lives. */
  datatype Owner = Owner(mode: OwnerMode, generation: string, hash: string)

  datatype Request =
    | Shutdown(generation: string, hash: string)
    | Register(generation: string, hash: string)
    | Ordinary

  datatype StopError = WrongOwner | Unavailable | AlreadyRequested | HostFailed

  datatype Response = StopPrepared | StopRejected(error: StopError) | OwnerStopped | SenderChanged | Answer

  /** Where a handler is. `serial` says that it holds the registration lock. `Admitting`,
      `Checking` and `Answering` hold the `closing` mutex; `Reading`, `AwaitSerial`, `Verifying`,
      `HostStopping` and `Writing` are await points, where a timeout can end it. */
  datatype Pc =
    | Reading
    | AwaitSerial
    | Verifying
    | AtGate(serial: bool, verified: bool)
    | Checking(serial: bool, verified: bool)
    | Answering(serial: bool)
    | AtAdmit(request: Request)
    | Admitting(request: Request)
    | HostStopping
    | Writing(response: Response)
  {
    predicate HoldsMutex() { Checking? || Answering? || Admitting? }
    predicate HoldsSerial() { Verifying? || ((AtGate? || Checking? || Answering?) && serial) }
    predicate Awaits() { Reading? || AwaitSerial? || Verifying? || HostStopping? || Writing? }
  }

  datatype Holder = Nobody | Handler(id: nat) | Dropping

  /** What happened, in order. `Sent` is what a caller is told, `Checked` what the verification of a
      registering caller found, `Lost` a handler that ended at a poisoned mutex. */
  datatype Event =
    | Received(id: nat, request: Request)
    | Checked(id: nat, verified: bool)
    | Panicked(id: nat)
    | Lost(id: nat)
    | Sent(id: nat, response: Response)
    | Admitted(id: nat, request: Request)
    | Dropped
    | Began(id: nat)
    | Answered(id: nat)
    | Unverified(id: nat)
    | Refused(id: nat)
    | StopRefused(id: nat)
    | HostStopped(id: nat)
    | HostBroken(id: nat)
    | Prepared(id: nat)
    | Notified(id: nat)
    | CutOff(id: nat)

  datatype State = State(
    closing: bool, mutex: Holder, poisoned: bool, serial: Holder,
    handlers: map<nat, Pc>, next: nat, accepting: bool, log: seq<Event>)

  const PERMITS := 8

  predicate Exact(o: Owner, r: Request) {
    r.Shutdown? && o.mode.Background? && r.generation == o.generation && r.hash == o.hash
  }

  function Start(): State {
    State(false, Nobody, false, Nobody, map[], 0, true, [])
  }

  datatype Action =
    | Accept
    | Read(id: nat, request: Request)
    | TakeSerial(id: nat)
    | Verify(id: nat, verified: bool)
    | Lock(id: nat)
    | Decide(id: nat)
    | Finish(id: nat)
    | Panic(id: nat)
    | StopHost(id: nat, stopped: bool)
    | Write(id: nat)
    | Cancel(id: nat)
    | BeginDrop
    | EndDrop

  predicate Enabled(s: State, a: Action) {
    match a
    case Accept => s.accepting && |s.handlers| < PERMITS
    case Read(id, _) => id in s.handlers && s.handlers[id].Reading?
    case TakeSerial(id) => id in s.handlers && s.handlers[id].AwaitSerial? && s.serial.Nobody?
    case Verify(id, _) => id in s.handlers && s.handlers[id].Verifying?
    case Lock(id) => id in s.handlers && (s.handlers[id].AtGate? || s.handlers[id].AtAdmit?) && s.mutex.Nobody?
    case Decide(id) => id in s.handlers && (s.handlers[id].Admitting? || s.handlers[id].Checking?)
    case Finish(id) => id in s.handlers && s.handlers[id].Answering?
    case Panic(id) => id in s.handlers && s.handlers[id].Answering?
    case StopHost(id, _) => id in s.handlers && s.handlers[id].HostStopping?
    case Write(id) => id in s.handlers && s.handlers[id].Writing?
    case Cancel(id) => id in s.handlers && s.handlers[id].Awaits()
    case BeginDrop => s.mutex.Nobody? && s.accepting && !s.poisoned
    case EndDrop => s.mutex.Dropping?
  }

  function Goto(s: State, id: nat, pc: Pc): State {
    s.(handlers := s.handlers[id := pc])
  }

  /** The handler task ends; its permit and the registration lock are released. */
  function End(s: State, id: nat): State {
    s.(handlers := s.handlers - {id}, serial := if s.serial == Handler(id) then Nobody else s.serial)
  }

  function Note(s: State, e: Event): State {
    s.(log := s.log + [e])
  }

  /** Leaves the mutex, and the registration lock if held, to write a response. */
  function Respond(s: State, id: nat, response: Response): State {
    Goto(s.(mutex := Nobody, serial := if s.serial == Handler(id) then Nobody else s.serial), id, Writing(response))
  }

  function Dispatch(o: Owner, request: Request): Pc {
    match request
    case Shutdown(_, _) => if Exact(o, request) then AtAdmit(request) else Writing(StopRejected(WrongOwner))
    case Register(generation, hash) =>
      if generation == o.generation && hash == o.hash then AwaitSerial else AtGate(false, true)
    case Ordinary => AtGate(false, true)
  }

  function TakeMutex(s: State, id: nat, pc: Pc): State
    requires pc.AtGate? || pc.AtAdmit?
  {
    if pc.AtGate? then
      // A poisoned mutex makes an ordinary handler panic.
      if s.poisoned then Note(End(s, id), Lost(id))
      else Goto(s.(mutex := Handler(id)), id, Checking(pc.serial, pc.verified))
    else if s.poisoned then Goto(s, id, Writing(StopRejected(Unavailable)))
    else Goto(s.(mutex := Handler(id)), id, Admitting(pc.request))
  }

  /** The critical sections of `admit_shutdown` and of the ordinary path. */
  function Judge(s: State, id: nat, pc: Pc): State
    requires pc.Admitting? || pc.Checking?
  {
    if pc.Admitting? then
      if s.closing then Note(Goto(s.(mutex := Nobody), id, Writing(StopRejected(AlreadyRequested))), StopRefused(id))
      else Note(Goto(s.(mutex := Nobody, closing := true), id, HostStopping), Admitted(id, pc.request))
    else if s.closing then Note(Respond(s, id, OwnerStopped), Refused(id))
    else if pc.verified then Note(Goto(s, id, Answering(pc.serial)), Began(id))
    else Note(Respond(s, id, SenderChanged), Unverified(id))
  }

  function Step(o: Owner, s: State, a: Action): State
    requires Enabled(s, a)
  {
    match a
    case Accept => Goto(s, s.next, Reading).(next := s.next + 1)
    case Read(id, request) => Note(Goto(s, id, Dispatch(o, request)), Received(id, request))
    case TakeSerial(id) => Goto(s.(serial := Handler(id)), id, Verifying)
    case Verify(id, verified) => Note(Goto(s, id, AtGate(true, verified)), Checked(id, verified))
    case Lock(id) => TakeMutex(s, id, s.handlers[id])
    case Decide(id) => Judge(s, id, s.handlers[id])
    case Finish(id) => Note(Respond(s, id, Answer), Answered(id))
    case Panic(id) => Note(End(s.(mutex := Nobody, poisoned := true), id), Panicked(id))
    case StopHost(id, stopped) =>
      if stopped then Note(Note(Goto(s, id, Writing(StopPrepared)), HostStopped(id)), Prepared(id))
      else Note(Goto(s, id, Writing(StopRejected(HostFailed))), HostBroken(id))
    case Write(id) =>
      // The exit is notified even if the reply could not be written.
      var sent := Note(End(s, id), Sent(id, s.handlers[id].response));
      if s.handlers[id].response.StopPrepared? then Note(sent, Notified(id)) else sent
    case Cancel(id) => Note(End(s, id), CutOff(id))
    case BeginDrop => Note(s.(mutex := Dropping, closing := true), Dropped)
    case EndDrop => s.(mutex := Nobody, accepting := false)
  }

  predicate Feasible(o: Owner, s: State, run: seq<Action>)
    decreases |run|
  {
    |run| == 0 || (Enabled(s, run[0]) && Feasible(o, Step(o, s, run[0]), run[1..]))
  }

  function After(o: Owner, s: State, run: seq<Action>): State
    requires Feasible(o, s, run)
    decreases |run|
  {
    if |run| == 0 then s else After(o, Step(o, s, run[0]), run[1..])
  }

  // ---- The sequential gate ----

  datatype Gate = Open | Closed | Stopping(id: nat) | Ready(id: nat) | Confirmed(id: nat) | Failed {
    function Rank(): nat { if Open? then 0 else if Stopping? then 1 else if Ready? then 2 else 3 }
  }

  /** What one caller at a time would see: requests are answered until one exact shutdown is
      admitted or the service is dropped, and only the admitted caller stops the host. */
  function Play(o: Owner, g: Gate, e: Event): (next: seq<Gate>)
    ensures |next| <= 1
  {
    match e
    case Received(_, _) | Checked(_, _) | Panicked(_) | Lost(_) | Sent(_, _) => [g]
    case Admitted(id, request) => if g.Open? && Exact(o, request) then [Stopping(id)] else []
    case Dropped => [if g.Open? then Closed else g]
    case Began(_) | Answered(_) | Unverified(_) => if g.Open? then [g] else []
    case Refused(_) | StopRefused(_) => if g.Open? then [] else [g]
    case HostStopped(id) => if g == Stopping(id) then [Ready(id)] else []
    case HostBroken(id) => if g == Stopping(id) then [Failed] else []
    case Prepared(id) => if g == Ready(id) then [Confirmed(id)] else []
    case Notified(id) => if g == Confirmed(id) then [g] else []
    case CutOff(id) => [if g == Stopping(id) then Failed else g]
  }

  /** The gate after a log, or nothing if the sequential gate allows no such log. */
  function Judgement(o: Owner, log: seq<Event>): (g: seq<Gate>)
    ensures |g| <= 1
  {
    if |log| == 0 then [Open]
    else
      var before := Judgement(o, log[..|log| - 1]);
      if before == [] then [] else Play(o, before[0], log[|log| - 1])
  }

  lemma JudgeNext(o: Owner, log: seq<Event>, e: Event)
    ensures var g := Judgement(o, log);
            Judgement(o, log + [e]) == if g == [] then [] else Play(o, g[0], e)
  {
    assert (log + [e])[..|log|] == log;
  }

  lemma {:induction false} PrefixLegal(o: Owner, log: seq<Event>, i: nat)
    requires i <= |log| && Judgement(o, log) != []
    ensures Judgement(o, log[..i]) != []
    ensures Judgement(o, log[..i])[0].Rank() <= Judgement(o, log)[0].Rank()
    decreases |log|
  {
    if i == |log| {
      assert log[..i] == log;
    } else {
      PrefixLegal(o, log[..|log| - 1], i);
      assert log[..|log| - 1][..i] == log[..i];
    }
  }

  /** The state of the gate around the event at `i`. */
  lemma GateAt(o: Owner, log: seq<Event>, i: nat) returns (before: Gate, after: Gate)
    requires i < |log| && Judgement(o, log) != []
    ensures Judgement(o, log[..i]) == [before] && Judgement(o, log[..i + 1]) == [after]
    ensures Play(o, before, log[i]) == [after]
  {
    PrefixLegal(o, log, i);
    PrefixLegal(o, log, i + 1);
    assert log[..i + 1] == log[..i] + [log[i]];
    JudgeNext(o, log[..i], log[i]);
    before, after := Judgement(o, log[..i])[0], Judgement(o, log[..i + 1])[0];
  }

  lemma GateOrder(o: Owner, log: seq<Event>, i: nat, j: nat) returns (earlier: Gate, later: Gate)
    requires i < j < |log| && Judgement(o, log) != []
    ensures Judgement(o, log[..i + 1]) == [earlier] && Judgement(o, log[..j]) == [later]
    ensures earlier.Rank() <= later.Rank()
  {
    PrefixLegal(o, log, j);
    PrefixLegal(o, log[..j], i + 1);
    assert log[..j][..i + 1] == log[..i + 1];
    earlier, later := Judgement(o, log[..i + 1])[0], Judgement(o, log[..j])[0];
  }

  /** In a legal log, nothing is answered or admitted after the first closing event. */
  lemma ClosingIsFinal(o: Owner, log: seq<Event>, i: nat, j: nat)
    requires i < j < |log| && Judgement(o, log) != []
    requires log[i].Admitted? || log[i].Dropped?
    ensures !log[j].Began? && !log[j].Answered? && !log[j].Admitted?
  {
    var b1, a1 := GateAt(o, log, i);
    var b2, a2 := GateAt(o, log, j);
    var e, l := GateOrder(o, log, i, j);
  }

  lemma {:induction false} GateRemembers(o: Owner, log: seq<Event>)
    requires Judgement(o, log) != []
    ensures var g := Judgement(o, log)[0];
            && (g.Stopping? ==> exists i :: 0 <= i < |log| && log[i].Admitted? && log[i].id == g.id)
            && (g.Ready? || g.Confirmed? ==>
                  exists i, k :: 0 <= i < k < |log| && log[i].Admitted? && log[i].id == g.id && log[k] == HostStopped(g.id))
    decreases |log|
  {
    if |log| > 0 {
      var rest := log[..|log| - 1];
      GateRemembers(o, rest);
      var g := Judgement(o, rest)[0];
      var e := log[|log| - 1];
      if e.Admitted? {
        assert log[|log| - 1].Admitted?;
      } else if e.HostStopped? {
        var i :| 0 <= i < |rest| && rest[i].Admitted? && rest[i].id == g.id;
        assert log[i].Admitted? && log[|log| - 1] == HostStopped(g.id);
      } else if g.Stopping? {
        var i :| 0 <= i < |rest| && rest[i].Admitted? && rest[i].id == g.id;
        assert log[i] == rest[i];
      } else if g.Ready? || g.Confirmed? {
        var i, k :| 0 <= i < k < |rest| && rest[i].Admitted? && rest[i].id == g.id && rest[k] == HostStopped(g.id);
        assert log[i] == rest[i] && log[k] == rest[k];
      }
    }
  }

  /** A stop is confirmed only after this handler's exact shutdown was admitted and then the
      host stopped; and only once. */
  lemma StopIsEarned(o: Owner, log: seq<Event>, j: nat)
    requires j < |log| && Judgement(o, log) != [] && log[j].Prepared?
    ensures exists i, k :: 0 <= i < k < j && log[i].Admitted? && log[i].id == log[j].id && log[k] == HostStopped(log[j].id)
    ensures forall l :: j < l < |log| ==> !log[l].Prepared?
  {
    var b, a := GateAt(o, log, j);
    GateRemembers(o, log[..j]);
    var i, k :| 0 <= i < k < j && log[..j][i].Admitted? && log[..j][i].id == b.id && log[..j][k] == HostStopped(b.id);
    assert log[i].Admitted? && log[k] == HostStopped(b.id);
    forall l | j < l < |log|
      ensures !log[l].Prepared?
    {
      var b2, a2 := GateAt(o, log, l);
      var e, later := GateOrder(o, log, j, l);
    }
  }

  // ---- The concurrent service refines it ----

  /** Each handler knows the truth about the gate, whatever the others do. */
  predicate Truthful(o: Owner, g: Gate, id: nat, pc: Pc) {
    && (pc.Answering? ==> g.Open?)
    && (pc.AtAdmit? || pc.Admitting? ==> Exact(o, pc.request))
    && (pc.HostStopping? ==> g == Stopping(id))
    && (pc == Writing(StopPrepared) ==> g == Confirmed(id))
  }

  /** The two locks are held exactly by the handlers inside their critical sections. */
  predicate Locks(handlers: map<nat, Pc>, mutex: Holder, serial: Holder) {
    && (forall id <- handlers :: handlers[id].HoldsMutex() <==> mutex == Handler(id))
    && (forall id <- handlers :: handlers[id].HoldsSerial() <==> serial == Handler(id))
    && (mutex.Handler? ==> mutex.id in handlers)
    && (serial.Handler? ==> serial.id in handlers)
    && !serial.Dropping?
  }

  predicate Permitted(handlers: map<nat, Pc>, next: nat) {
    |handlers| <= PERMITS && forall id <- handlers :: id < next
  }

  ghost predicate Known(o: Owner, handlers: map<nat, Pc>, g: Gate) {
    forall id <- handlers :: Truthful(o, g, id, handlers[id])
  }

  ghost predicate Inv(o: Owner, s: State) {
    && Permitted(s.handlers, s.next) && Locks(s.handlers, s.mutex, s.serial)
    && Judgement(o, s.log) != []
    && s.closing == !Judgement(o, s.log)[0].Open?
    && Known(o, s.handlers, Judgement(o, s.log)[0])
  }

  /** A lock after its user `id` moved on to a place that holds it or not. */
  function Held(lock: Holder, id: nat, holds: bool): Holder {
    if holds then Handler(id) else if lock == Handler(id) then Nobody else lock
  }

  /** What a change of gate leaves true for handlers other than `id`. */
  predicate Harmless(handlers: map<nat, Pc>, id: nat, g: Gate, g': Gate) {
    g' == g || g == Stopping(id) || (g.Open? && forall k <- handlers :: handlers[k].Answering? ==> k == id)
  }

  /** One handler moves from one place to another. */
  lemma MoveKeeps(o: Owner, s: State, t: State, id: nat, pc: Pc, g: Gate)
    requires Inv(o, s) && id in s.handlers && t.handlers == s.handlers[id := pc] && t.next == s.next
    requires t.mutex == Held(s.mutex, id, pc.HoldsMutex()) && t.serial == Held(s.serial, id, pc.HoldsSerial())
    requires pc.HoldsMutex() ==> s.mutex == Nobody || s.mutex == Handler(id)
    requires pc.HoldsSerial() ==> s.serial == Nobody || s.serial == Handler(id)
    requires Judgement(o, t.log) == [g] && t.closing == !g.Open?
    requires Truthful(o, g, id, pc) && Harmless(s.handlers, id, Judgement(o, s.log)[0], g)
    ensures Inv(o, t)
  {
    hide Judgement;
    assert t.handlers.Keys == s.handlers.Keys;
  }

  /** One handler ends. */
  lemma EndKeeps(o: Owner, s: State, t: State, id: nat, g: Gate)
    requires Inv(o, s) && id in s.handlers && t.handlers == s.handlers - {id} && t.next == s.next
    requires t.mutex == Held(s.mutex, id, false) && t.serial == Held(s.serial, id, false)
    requires Judgement(o, t.log) == [g] && t.closing == !g.Open?
    requires Harmless(s.handlers, id, Judgement(o, s.log)[0], g)
    ensures Inv(o, t)
  {
    hide Judgement;
    assert t.handlers.Keys == s.handlers.Keys - {id};
  }

  lemma AdmitKeeps(o: Owner, s: State, id: nat)
    requires Inv(o, s) && Enabled(s, Decide(id)) && s.handlers[id].Admitting?
    ensures Inv(o, Judge(s, id, s.handlers[id]))
  {
    hide Judgement;
    var t := Judge(s, id, s.handlers[id]);
    JudgeNext(o, s.log, if s.closing then StopRefused(id) else Admitted(id, s.handlers[id].request));
    MoveKeeps(o, s, t, id, t.handlers[id], Judgement(o, t.log)[0]);
  }

  lemma CheckKeeps(o: Owner, s: State, id: nat)
    requires Inv(o, s) && Enabled(s, Decide(id)) && s.handlers[id].Checking?
    ensures Inv(o, Judge(s, id, s.handlers[id]))
  {
    hide Judgement;
    var t := Judge(s, id, s.handlers[id]);
    JudgeNext(o, s.log, if s.closing then Refused(id) else if s.handlers[id].verified then Began(id) else Unverified(id));
    MoveKeeps(o, s, t, id, t.handlers[id], Judgement(o, s.log)[0]);
  }

  lemma LockKeeps(o: Owner, s: State, id: nat)
    requires Inv(o, s) && Enabled(s, Lock(id))
    ensures Inv(o, TakeMutex(s, id, s.handlers[id]))
  {
    hide Judgement;
    var t := TakeMutex(s, id, s.handlers[id]);
    if id in t.handlers {
      MoveKeeps(o, s, t, id, t.handlers[id], Judgement(o, s.log)[0]);
    } else {
      JudgeNext(o, s.log, Lost(id));
      EndKeeps(o, s, t, id, Judgement(o, s.log)[0]);
    }
  }

  /** The steps before the gate. */
  lemma ApproachKeeps(o: Owner, s: State, a: Action)
    requires Inv(o, s) && Enabled(s, a) && (a.Read? || a.TakeSerial? || a.Verify?)
    ensures Inv(o, Step(o, s, a))
  {
    hide Judgement;
    var t := Step(o, s, a);
    if t.log != s.log {
      JudgeNext(o, s.log, t.log[|s.log|]);
    }
    MoveKeeps(o, s, t, a.id, t.handlers[a.id], Judgement(o, s.log)[0]);
  }

  lemma AnswerKeeps(o: Owner, s: State, a: Action)
    requires Inv(o, s) && Enabled(s, a) && (a.Finish? || a.Panic?)
    ensures Inv(o, Step(o, s, a))
  {
    hide Judgement;
    var t := Step(o, s, a);
    if a.Finish? {
      JudgeNext(o, s.log, Answered(a.id));
      MoveKeeps(o, s, t, a.id, t.handlers[a.id], Judgement(o, t.log)[0]);
    } else {
      JudgeNext(o, s.log, Panicked(a.id));
      EndKeeps(o, s, t, a.id, Judgement(o, s.log)[0]);
    }
  }

  lemma StopHostKeeps(o: Owner, s: State, id: nat, stopped: bool)
    requires Inv(o, s) && Enabled(s, StopHost(id, stopped))
    ensures Inv(o, Step(o, s, StopHost(id, stopped)))
  {
    hide Judgement;
    var t := Step(o, s, StopHost(id, stopped));
    if stopped {
      JudgeNext(o, s.log, HostStopped(id));
      JudgeNext(o, s.log + [HostStopped(id)], Prepared(id));
    } else {
      JudgeNext(o, s.log, HostBroken(id));
    }
    MoveKeeps(o, s, t, id, t.handlers[id], Judgement(o, t.log)[0]);
  }

  lemma LeaveKeeps(o: Owner, s: State, a: Action)
    requires Inv(o, s) && Enabled(s, a) && (a.Write? || a.Cancel?)
    ensures Inv(o, Step(o, s, a))
  {
    hide Judgement;
    var t := Step(o, s, a);
    if a.Cancel? {
      JudgeNext(o, s.log, CutOff(a.id));
    } else {
      var sent := Sent(a.id, s.handlers[a.id].response);
      JudgeNext(o, s.log, sent);
      JudgeNext(o, s.log + [sent], Notified(a.id));
    }
    EndKeeps(o, s, t, a.id, Judgement(o, t.log)[0]);
  }

  lemma AcceptKeeps(o: Owner, s: State)
    requires Inv(o, s) && Enabled(s, Accept)
    ensures Inv(o, Step(o, s, Accept))
  {
    hide Judgement;
    assert s.handlers[s.next := Reading].Keys == s.handlers.Keys + {s.next};
  }

  lemma DropKeeps(o: Owner, s: State, a: Action)
    requires Inv(o, s) && Enabled(s, a) && (a.BeginDrop? || a.EndDrop?)
    ensures Inv(o, Step(o, s, a))
  {
    hide Judgement;
    JudgeNext(o, s.log, Dropped);
  }

  lemma StepKeeps(o: Owner, s: State, a: Action)
    requires Inv(o, s) && Enabled(s, a)
    ensures Inv(o, Step(o, s, a))
  {
    hide Inv, Judge, TakeMutex;
    match a
    case Accept => AcceptKeeps(o, s);
    case Lock(id) => LockKeeps(o, s, id);
    case Decide(id) =>
      if s.handlers[id].Admitting? {
        AdmitKeeps(o, s, id);
      } else {
        CheckKeeps(o, s, id);
      }
    case StopHost(id, stopped) => StopHostKeeps(o, s, id, stopped);
    case Finish(_) => AnswerKeeps(o, s, a);
    case Panic(_) => AnswerKeeps(o, s, a);
    case Write(_) => LeaveKeeps(o, s, a);
    case Cancel(_) => LeaveKeeps(o, s, a);
    case BeginDrop => DropKeeps(o, s, a);
    case EndDrop => DropKeeps(o, s, a);
    case _ => ApproachKeeps(o, s, a);
  }

  lemma {:induction false} RunKeeps(o: Owner, s: State, run: seq<Action>)
    requires Inv(o, s) && Feasible(o, s, run)
    ensures Inv(o, After(o, s, run))
    decreases |run|
  {
    hide Inv, Step, Enabled;
    if |run| > 0 {
      StepKeeps(o, s, run[0]);
      RunKeeps(o, Step(o, s, run[0]), run[1..]);
    }
  }

  /** Every interleaving of handlers, timeouts, panics and `Drop` is, in the order of its log,
      a run of the sequential gate: shutdown is a linearization point. */
  lemma Linearizable(o: Owner, run: seq<Action>)
    requires Feasible(o, Start(), run)
    ensures Inv(o, After(o, Start(), run))
    ensures Judgement(o, After(o, Start(), run).log) != []
  {
    RunKeeps(o, Start(), run);
  }

  /** After a shutdown is admitted, or the service dropped, no request reaches `answer`, none is
      still inside it, and no other shutdown is admitted. */
  lemma NothingAnsweredAfterClosing(o: Owner, run: seq<Action>, i: nat, j: nat)
    requires Feasible(o, Start(), run)
    requires i < j < |After(o, Start(), run).log|
    requires After(o, Start(), run).log[i].Admitted? || After(o, Start(), run).log[i].Dropped?
    ensures var e := After(o, Start(), run).log[j]; !e.Began? && !e.Answered? && !e.Admitted?
  {
    Linearizable(o, run);
    ClosingIsFinal(o, After(o, Start(), run).log, i, j);
  }

  /** At most one `StopPrepared` per generation, only for an exact background request, and only
      after the host stopped on behalf of the same handler. */
  lemma OneConfirmedStop(o: Owner, run: seq<Action>, j: nat)
    requires Feasible(o, Start(), run)
    requires j < |After(o, Start(), run).log| && After(o, Start(), run).log[j].Prepared?
    ensures o.mode.Background?
    ensures var log := After(o, Start(), run).log;
            && (exists i, k :: 0 <= i < k < j && log[i] == Admitted(log[j].id, Shutdown(o.generation, o.hash))
                               && log[k] == HostStopped(log[j].id))
            && forall l :: 0 <= l < |log| && log[l].Prepared? ==> l == j
  {
    var log := After(o, Start(), run).log;
    Linearizable(o, run);
    StopIsEarned(o, log, j);
    var i, k :| 0 <= i < k < j && log[i].Admitted? && log[i].id == log[j].id && log[k] == HostStopped(log[j].id);
    var b, a := GateAt(o, log, i);
    forall l | 0 <= l < |log| && log[l].Prepared?
      ensures l == j
    {
      if l < j {
        StopIsEarned(o, log, l);
      }
    }
  }

  /** A caller is told that the owner stopped only when it did. */
  lemma RefusalIsTrue(o: Owner, run: seq<Action>, j: nat)
    requires Feasible(o, Start(), run)
    requires j < |After(o, Start(), run).log|
    requires After(o, Start(), run).log[j].Refused? || After(o, Start(), run).log[j].StopRefused?
    ensures var log := After(o, Start(), run).log; exists i :: 0 <= i < j && (log[i].Admitted? || log[i].Dropped?)
  {
    var log := After(o, Start(), run).log;
    Linearizable(o, run);
    var b, a := GateAt(o, log, j);
    ClosedBySomeone(o, log[..j]);
    var i :| 0 <= i < j && (log[..j][i].Admitted? || log[..j][i].Dropped?);
    assert log[i] == log[..j][i];
  }

  lemma {:induction false} ClosedBySomeone(o: Owner, log: seq<Event>)
    requires Judgement(o, log) != [] && !Judgement(o, log)[0].Open?
    ensures exists i :: 0 <= i < |log| && (log[i].Admitted? || log[i].Dropped?)
    decreases |log|
  {
    var rest := log[..|log| - 1];
    if Judgement(o, rest)[0].Open? {
      var last := log[|log| - 1];
      assert last.Admitted? || last.Dropped?;
    } else {
      ClosedBySomeone(o, rest);
      var i :| 0 <= i < |rest| && (rest[i].Admitted? || rest[i].Dropped?);
      assert log[i] == rest[i];
    }
  }

  // ---- Leaving after a confirmed stop ----

  ghost predicate Leaves(s: State, id: nat) {
    && (id in s.handlers || id >= s.next ==> Notified(id) !in s.log && CutOff(id) !in s.log)
    && (Prepared(id) in s.log ==>
          && id < s.next
          && (id in s.handlers ==> s.handlers[id] == Writing(StopPrepared))
          && (id !in s.handlers ==> (Notified(id) in s.log <==> CutOff(id) !in s.log)))
  }

  predicate Speaks(a: Action, id: nat) {
    (a.StopHost? || a.Write? || a.Cancel?) && a.id == id
  }

  /** Only the handler itself logs its confirmation, its notice and its timeout. */
  lemma OthersAreSilent(o: Owner, s: State, a: Action, id: nat)
    requires Enabled(s, a) && !Speaks(a, id)
    ensures forall e <- {Prepared(id), Notified(id), CutOff(id)} :: e in Step(o, s, a).log <==> e in s.log
  {
    hide Judge, TakeMutex, Dispatch;
    match a
    case Lock(k) => GateIsSilent(s, k, id);
    case Decide(k) => GateIsSilent(s, k, id);
    case _ =>
  }

  lemma GateIsSilent(s: State, k: nat, id: nat)
    requires k in s.handlers
    ensures var pc, own := s.handlers[k], {Prepared(id), Notified(id), CutOff(id)};
            && (pc.AtGate? || pc.AtAdmit? ==> forall e <- own :: e in TakeMutex(s, k, pc).log <==> e in s.log)
            && (pc.Admitting? || pc.Checking? ==> forall e <- own :: e in Judge(s, k, pc).log <==> e in s.log)
  {
  }

  /** A handler's step moves only itself. */
  lemma StepIsLocal(o: Owner, s: State, a: Action, id: nat)
    requires Enabled(s, a) && s.next !in s.handlers && (a.Accept? || a.BeginDrop? || a.EndDrop? || a.id != id)
    ensures var t := Step(o, s, a);
            && s.next <= t.next && (id in s.handlers ==> id in t.handlers && t.handlers[id] == s.handlers[id])
            && (id !in s.handlers && id in t.handlers ==> id == s.next)
  {
    hide Judge, TakeMutex, Dispatch;
    match a
    case Lock(k) => GateIsLocal(s, k, id);
    case Decide(k) => GateIsLocal(s, k, id);
    case _ =>
  }

  lemma GateIsLocal(s: State, k: nat, id: nat)
    requires k in s.handlers && k != id
    ensures var pc := s.handlers[k];
            && (pc.AtGate? || pc.AtAdmit? ==> SameFor(s, TakeMutex(s, k, pc), id))
            && (pc.Admitting? || pc.Checking? ==> SameFor(s, Judge(s, k, pc), id))
  {
  }

  predicate SameFor(s: State, t: State, id: nat) {
    && t.next == s.next && (id in t.handlers <==> id in s.handlers)
    && (id in s.handlers ==> t.handlers[id] == s.handlers[id])
  }

  lemma StepLeaves(o: Owner, s: State, a: Action, id: nat)
    requires Inv(o, s) && Enabled(s, a) && Leaves(s, id)
    ensures Leaves(Step(o, s, a), id)
  {
    hide Judgement, Truthful, Locks;
    if Speaks(a, id) {
      SpeakerLeaves(o, s, a, id);
    } else {
      OthersAreSilent(o, s, a, id);
      assert forall e <- {Prepared(id), Notified(id), CutOff(id)} :: e in Step(o, s, a).log <==> e in s.log;
      if a.Accept? || a.BeginDrop? || a.EndDrop? || a.id != id {
        StepIsLocal(o, s, a, id);
        hide Step;
      }
    }
  }

  lemma SpeakerLeaves(o: Owner, s: State, a: Action, id: nat)
    requires Inv(o, s) && Enabled(s, a) && Leaves(s, id) && Speaks(a, id)
    ensures Leaves(Step(o, s, a), id)
  {
    hide Judgement, Truthful, Locks;
  }

  lemma {:induction false} RunLeaves(o: Owner, s: State, run: seq<Action>, id: nat)
    requires Inv(o, s) && Feasible(o, s, run) && Leaves(s, id)
    ensures Leaves(After(o, s, run), id)
    decreases |run|
  {
    hide Inv, Step, Enabled, Leaves;
    if |run| > 0 {
      StepKeeps(o, s, run[0]);
      StepLeaves(o, s, run[0], id);
      RunLeaves(o, Step(o, s, run[0]), run[1..], id);
    }
  }

  /** Once the handler of a confirmed stop has ended, the service was told to exit if and only if
      the handler was not timed out while writing its reply. */
  lemma ExitAfterStop(o: Owner, run: seq<Action>, id: nat)
    requires Feasible(o, Start(), run)
    requires Prepared(id) in After(o, Start(), run).log && id !in After(o, Start(), run).handlers
    ensures var log := After(o, Start(), run).log; Notified(id) in log <==> CutOff(id) !in log
  {
    RunLeaves(o, Start(), run, id);
  }

  /** So the promise that a completed cleanup always exits is false: a stalled reply. */
  lemma StalledReply(o: Owner) returns (run: seq<Action>)
    requires o.mode.Background?
    ensures Feasible(o, Start(), run)
    ensures var s := After(o, Start(), run); s.closing && Prepared(0) in s.log && s.handlers == map[] && Notified(0) !in s.log
  {
    hide Feasible, After;
    var stop := Shutdown(o.generation, o.hash);
    var s1 := Start().(handlers := map[0 := Reading], next := 1);
    var s2 := s1.(handlers := map[0 := AtAdmit(stop)], log := [Received(0, stop)]);
    var s3 := s2.(handlers := map[0 := Admitting(stop)], mutex := Handler(0));
    run := StalledTail(o, stop, s3);
    run := Prepend(o, s2, Lock(0), run, s3);
    run := Prepend(o, s1, Read(0, stop), run, s2);
    run := Prepend(o, Start(), Accept, run, s1);
  }

  lemma StalledTail(o: Owner, stop: Request, s: State) returns (run: seq<Action>)
    requires s == State(false, Handler(0), false, Nobody, map[0 := Admitting(stop)], 1, true, [Received(0, stop)])
    ensures Feasible(o, s, run)
    ensures var t := After(o, s, run); t.closing && Prepared(0) in t.log && t.handlers == map[] && Notified(0) !in t.log
  {
    var s4 := s.(mutex := Nobody, handlers := map[0 := HostStopping], closing := true, log := s.log + [Admitted(0, stop)]);
    run := StalledEnd(o, s4);
    hide Feasible, After;
    run := Prepend(o, s, Decide(0), run, s4);
  }

  lemma StalledEnd(o: Owner, s: State) returns (run: seq<Action>)
    requires s.closing && s.handlers == map[0 := HostStopping] && Notified(0) !in s.log
    ensures Feasible(o, s, run)
    ensures var t := After(o, s, run); t.closing && Prepared(0) in t.log && t.handlers == map[] && Notified(0) !in t.log
  {
    var s1 := Step(o, s, StopHost(0, true));
    var s2 := Step(o, s1, Cancel(0));
    assert s2.log[|s.log| + 1] == Prepared(0);
    run := Prepend(o, s1, Cancel(0), [], s2);
    hide Feasible, After;
    run := Prepend(o, s, StopHost(0, true), run, s1);
  }

  lemma Prepend(o: Owner, s: State, a: Action, rest: seq<Action>, t: State) returns (run: seq<Action>)
    requires Enabled(s, a) && t == Step(o, s, a) && Feasible(o, t, rest)
    ensures Feasible(o, s, run) && After(o, s, run) == After(o, t, rest)
  {
    run := [a] + rest;
    assert run[1..] == rest;
  }
}
