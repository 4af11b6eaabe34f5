/** What callers of the background service are told (app/src/background_service.rs), over every run
    of the service's state machine. */
module ServiceReplies {
  import opened ServiceGate

  /** A registration for exactly this service, which must be verified first. */
  predicate Registers(o: Owner, r: Request) {
    r.Register? && r.generation == o.generation && r.hash == o.hash
  }

  ghost predicate Closed(log: seq<Event>) {
    exists e <- log :: e.Admitted? || e.Dropped?
  }

  ghost predicate Panics(log: seq<Event>) {
    exists e <- log :: e.Panicked?
  }

  /** The request of the handler was an ordinary one, which needs no verification. */
  ghost predicate AskedPlainly(o: Owner, log: seq<Event>, id: nat) {
    exists e <- log :: e.Received? && e.id == id && !e.request.Shutdown? && !Registers(o, e.request)
  }

  ghost predicate AskedToRegister(o: Owner, log: seq<Event>, id: nat) {
    exists e <- log :: e.Received? && e.id == id && Registers(o, e.request)
  }

  ghost predicate AskedWrongOwner(o: Owner, log: seq<Event>, id: nat) {
    exists e <- log :: e.Received? && e.id == id && e.request.Shutdown?
                       && (o.mode != Background || e.request != Shutdown(o.generation, o.hash))
  }

  /** What makes a response true. */
  ghost predicate Truth(o: Owner, log: seq<Event>, id: nat, r: Response) {
    match r
    case StopPrepared => Prepared(id) in log
    case StopRejected(WrongOwner) => AskedWrongOwner(o, log, id)
    case StopRejected(Unavailable) => Panics(log)
    case StopRejected(AlreadyRequested) => Closed(log)
    case StopRejected(HostFailed) => HostBroken(id) in log
    case OwnerStopped => Closed(log)
    case SenderChanged => AskedToRegister(o, log, id) && Checked(id, false) in log
    case Answer => Answered(id) in log
  }

  /** A request may reach `answer`: it is an ordinary one, or a registration whose own verification
      succeeded. */
  ghost predicate MayAnswer(o: Owner, log: seq<Event>, id: nat) {
    AskedPlainly(o, log, id) || (AskedToRegister(o, log, id) && Checked(id, true) in log)
  }

  ghost predicate AtTheGate(o: Owner, log: seq<Event>, id: nat, serial: bool, verified: bool) {
    if serial then AskedToRegister(o, log, id) && Checked(id, verified) in log else verified && AskedPlainly(o, log, id)
  }

  /** What a handler's place in its program says about the past. */
  ghost predicate Told(o: Owner, log: seq<Event>, id: nat, pc: Pc) {
    match pc
    case Reading => true
    case AwaitSerial => AskedToRegister(o, log, id)
    case Verifying => AskedToRegister(o, log, id)
    case AtGate(serial, verified) => AtTheGate(o, log, id, serial, verified)
    case Checking(serial, verified) => AtTheGate(o, log, id, serial, verified)
    case Answering(_) => MayAnswer(o, log, id) && Began(id) in log
    case AtAdmit(request) => Received(id, request) in log
    case Admitting(request) => Received(id, request) in log
    case HostStopping => true
    case Writing(r) => Truth(o, log, id, r)
  }

  /** What an event says about those before it. */
  ghost predicate Earned(o: Owner, before: seq<Event>, e: Event) {
    match e
    case Sent(id, r) => Truth(o, before, id, r)
    case Began(id) => MayAnswer(o, before, id) && !Panics(before)
    case Answered(id) => Began(id) in before && !Panics(before)
    case Admitted(id, request) =>
      Received(id, request) in before && !Panics(before) && o.mode == Background && request == Shutdown(o.generation, o.hash)
    case Lost(_) => Panics(before)
    case _ => true
  }

  ghost predicate Honest(o: Owner, log: seq<Event>) {
    forall j :: 0 <= j < |log| ==> Earned(o, log[..j], log[j])
  }

  ghost predicate Tells(o: Owner, s: State) {
    && Honest(o, s.log) && (s.poisoned <==> Panics(s.log))
    && (forall id <- s.handlers :: s.handlers[id].HoldsMutex() ==> !s.poisoned)
    && forall id <- s.handlers :: Told(o, s.log, id, s.handlers[id])
  }

  /** The past only grows. */
  lemma ToldStays(o: Owner, log: seq<Event>, more: seq<Event>, id: nat, pc: Pc)
    requires Told(o, log, id, pc) && log <= more
    ensures Told(o, more, id, pc)
  {
    assert forall e <- log :: e in more;
  }

  lemma HonestNext(o: Owner, log: seq<Event>, e: Event)
    requires Honest(o, log) && Earned(o, log, e)
    ensures Honest(o, log + [e])
  {
    var more := log + [e];
    forall j | 0 <= j < |more|
      ensures Earned(o, more[..j], more[j])
    {
      assert more[..j] == if j < |log| then log[..j] else log;
    }
  }

  lemma {:induction false} NotOpenIsClosed(o: Owner, s: State)
    requires Inv(o, s) && s.closing
    ensures Closed(s.log)
  {
    ClosedBySomeone(o, s.log);
    var i :| 0 <= i < |s.log| && (s.log[i].Admitted? || s.log[i].Dropped?);
    assert s.log[i] in s.log;
  }

  /** What the step of one handler leaves it at, and what it adds to the log. */
  lemma ApproachTells(o: Owner, s: State, a: Action)
    requires Tells(o, s) && Enabled(s, a) && (a.Read? || a.TakeSerial? || a.Verify?)
    ensures var t := Step(o, s, a); s.log <= t.log && Honest(o, t.log) && Told(o, t.log, a.id, t.handlers[a.id])
  {
    var t := Step(o, s, a);
    if a.Read? {
      HonestNext(o, s.log, Received(a.id, a.request));
      assert t.log[|s.log|] == Received(a.id, a.request);
    } else if a.Verify? {
      HonestNext(o, s.log, Checked(a.id, a.verified));
      assert t.log[|s.log|] == Checked(a.id, a.verified);
      ToldStays(o, s.log, t.log, a.id, s.handlers[a.id]);
    }
  }

  lemma AdmitTells(o: Owner, s: State, id: nat)
    requires Inv(o, s) && Tells(o, s) && id in s.handlers && s.handlers[id].Admitting?
    ensures var t := Judge(s, id, s.handlers[id]); s.log <= t.log && Honest(o, t.log) && Told(o, t.log, id, t.handlers[id])
  {
    var t := Judge(s, id, s.handlers[id]);
    if s.closing {
      NotOpenIsClosed(o, s);
      HonestNext(o, s.log, StopRefused(id));
      assert forall e <- s.log :: e in t.log;
    } else {
      HonestNext(o, s.log, Admitted(id, s.handlers[id].request));
    }
  }

  /** The three ways out of the gate, each with its event. */
  lemma GateWords(o: Owner, log: seq<Event>, id: nat, serial: bool, verified: bool)
    requires AtTheGate(o, log, id, serial, verified)
    ensures Closed(log) ==> Told(o, log + [Refused(id)], id, Writing(OwnerStopped))
    ensures verified && !Panics(log) ==> Earned(o, log, Began(id)) && Told(o, log + [Began(id)], id, Answering(serial))
    ensures !verified ==> Told(o, log + [Unverified(id)], id, Writing(SenderChanged))
  {
    assert (log + [Began(id)])[|log|] == Began(id);
    assert forall e, x <- log :: x in log + [e];
  }

  lemma CheckTells(o: Owner, s: State, id: nat)
    requires Inv(o, s) && Tells(o, s) && id in s.handlers && s.handlers[id].Checking?
    ensures var t := Judge(s, id, s.handlers[id]); s.log <= t.log && Honest(o, t.log) && Told(o, t.log, id, t.handlers[id])
  {
    var pc := s.handlers[id];
    assert AtTheGate(o, s.log, id, pc.serial, pc.verified);
    if s.closing {
      NotOpenIsClosed(o, s);
    }
    assert !Panics(s.log);
    hide Inv, AtTheGate, Truth, MayAnswer, Closed, Panics;
    GateWords(o, s.log, id, pc.serial, pc.verified);
    HonestNext(o, s.log, if s.closing then Refused(id) else if pc.verified then Began(id) else Unverified(id));
    hide Told, Honest, Earned;
  }

  lemma GateTells(o: Owner, s: State, id: nat)
    requires Inv(o, s) && Tells(o, s) && Enabled(s, Decide(id))
    ensures var t := Judge(s, id, s.handlers[id]); s.log <= t.log && Honest(o, t.log) && Told(o, t.log, id, t.handlers[id])
  {
    hide Inv, Tells, Honest, Told, Judge;
    if s.handlers[id].Admitting? {
      AdmitTells(o, s, id);
    } else {
      CheckTells(o, s, id);
    }
  }

  lemma LockTells(o: Owner, s: State, id: nat)
    requires Tells(o, s) && Enabled(s, Lock(id))
    ensures var t := TakeMutex(s, id, s.handlers[id]);
            s.log <= t.log && Honest(o, t.log) && (id in t.handlers ==> Told(o, t.log, id, t.handlers[id]))
  {
    if s.poisoned && s.handlers[id].AtGate? {
      HonestNext(o, s.log, Lost(id));
    }
  }

  lemma AnswerTells(o: Owner, s: State, a: Action)
    requires Tells(o, s) && Enabled(s, a) && (a.Finish? || a.Panic?)
    ensures var t := Step(o, s, a);
            && s.log <= t.log && Honest(o, t.log)
            && (a.id in t.handlers ==> Told(o, t.log, a.id, t.handlers[a.id]))
  {
    var t := Step(o, s, a);
    var e := if a.Finish? then Answered(a.id) else Panicked(a.id);
    HonestNext(o, s.log, e);
    assert t.log[|s.log|] == e;
    assert forall x <- s.log :: x in t.log;
  }

  lemma HostTells(o: Owner, s: State, id: nat, stopped: bool)
    requires Tells(o, s) && Enabled(s, StopHost(id, stopped))
    ensures var t := Step(o, s, StopHost(id, stopped)); s.log <= t.log && Honest(o, t.log) && Told(o, t.log, id, t.handlers[id])
  {
    var t := Step(o, s, StopHost(id, stopped));
    if stopped {
      HonestNext(o, s.log, HostStopped(id));
      HonestNext(o, s.log + [HostStopped(id)], Prepared(id));
      assert t.log[|s.log| + 1] == Prepared(id);
    } else {
      HonestNext(o, s.log, HostBroken(id));
      assert t.log[|s.log|] == HostBroken(id);
    }
  }

  lemma LeaveTells(o: Owner, s: State, a: Action)
    requires Tells(o, s) && Enabled(s, a) && (a.Write? || a.Cancel?)
    ensures var t := Step(o, s, a); s.log <= t.log && Honest(o, t.log) && a.id !in t.handlers
  {
    if a.Cancel? {
      HonestNext(o, s.log, CutOff(a.id));
    } else {
      var sent := Sent(a.id, s.handlers[a.id].response);
      HonestNext(o, s.log, sent);
      HonestNext(o, s.log + [sent], Notified(a.id));
    }
  }

  /** The step of one handler, for itself. */
  lemma OwnStepTells(o: Owner, s: State, a: Action)
    requires Inv(o, s) && Tells(o, s) && Enabled(s, a) && !a.Accept? && !a.BeginDrop? && !a.EndDrop?
    ensures var t := Step(o, s, a);
            && s.log <= t.log && Honest(o, t.log)
            && (a.id in t.handlers ==> Told(o, t.log, a.id, t.handlers[a.id]))
  {
    hide Inv, Honest, Told, Judge, TakeMutex;
    match a
    case Lock(id) => LockTells(o, s, id);
    case Decide(id) => GateTells(o, s, id);
    case StopHost(id, stopped) => HostTells(o, s, id, stopped);
    case Finish(_) => AnswerTells(o, s, a);
    case Panic(_) => AnswerTells(o, s, a);
    case Write(_) => LeaveTells(o, s, a);
    case Cancel(_) => LeaveTells(o, s, a);
    case _ => ApproachTells(o, s, a);
  }

  /** The mutex is poisoned exactly after a panic. */
  lemma StepPoisons(o: Owner, s: State, a: Action)
    requires Tells(o, s) && Enabled(s, a)
    ensures Step(o, s, a).poisoned <==> Panics(Step(o, s, a).log)
  {
    hide Honest, Told, Judge, TakeMutex, Dispatch;
    match a
    case Lock(id) => GatePoisons(s, id);
    case Decide(id) => GatePoisons(s, id);
    case Panic(id) =>
      assert Step(o, s, a).log[|s.log|] == Panicked(id);
    case _ =>
  }

  lemma GatePoisons(s: State, id: nat)
    requires id in s.handlers
    ensures var pc := s.handlers[id];
            && (pc.AtGate? || pc.AtAdmit? ==> var t := TakeMutex(s, id, pc); t.poisoned == s.poisoned && (Panics(t.log) <==> Panics(s.log)))
            && (pc.Admitting? || pc.Checking? ==> var t := Judge(s, id, pc); t.poisoned == s.poisoned && (Panics(t.log) <==> Panics(s.log)))
  {
  }

  /** Nobody is inside a poisoned mutex. */
  lemma StepLeavesMutexSound(o: Owner, s: State, a: Action)
    requires Inv(o, s) && Tells(o, s) && Enabled(s, a)
    ensures var t := Step(o, s, a); forall id <- t.handlers :: t.handlers[id].HoldsMutex() ==> !t.poisoned
  {
    hide Honest, Told, Judgement, Known, Permitted, Panics;
  }

  lemma DropTells(o: Owner, s: State, a: Action)
    requires Tells(o, s) && Enabled(s, a) && (a.BeginDrop? || a.EndDrop? || a.Accept?)
    ensures var t := Step(o, s, a); s.log <= t.log && Honest(o, t.log)
    ensures a.Accept? ==> Step(o, s, a).handlers == s.handlers[s.next := Reading]
  {
    if a.BeginDrop? {
      HonestNext(o, s.log, Dropped);
    }
    assert forall e <- s.log :: e in Step(o, s, a).log;
  }

  lemma StepTells(o: Owner, s: State, a: Action)
    requires Inv(o, s) && Tells(o, s) && Enabled(s, a)
    ensures Tells(o, Step(o, s, a))
  {
    var t := Step(o, s, a);
    assert s.next !in s.handlers;
    StepPoisons(o, s, a);
    StepLeavesMutexSound(o, s, a);
    hide Inv, Honest, Told, Step, Enabled, Panics;
    if a.Accept? || a.BeginDrop? || a.EndDrop? {
      DropTells(o, s, a);
    } else {
      OwnStepTells(o, s, a);
    }
    forall id <- t.handlers
      ensures Told(o, t.log, id, t.handlers[id])
    {
      if a.Accept? || a.BeginDrop? || a.EndDrop? || a.id != id {
        StepIsLocal(o, s, a, id);
        if id in s.handlers {
          ToldStays(o, s.log, t.log, id, s.handlers[id]);
        } else {
          NewcomerTells(o, s, a, id);
        }
      }
    }
  }

  lemma NewcomerTells(o: Owner, s: State, a: Action, id: nat)
    requires Enabled(s, a) && id !in s.handlers && id in Step(o, s, a).handlers
    ensures Step(o, s, a).handlers[id] == Reading
    ensures Told(o, Step(o, s, a).log, id, Reading)
  {
    hide Judge, TakeMutex;
    match a
    case Lock(k) => GateIsLocal(s, k, id);
    case Decide(k) => GateIsLocal(s, k, id);
    case _ =>
  }

  lemma {:induction false} RunTells(o: Owner, s: State, run: seq<Action>)
    requires Inv(o, s) && Tells(o, s) && Feasible(o, s, run)
    ensures Tells(o, After(o, s, run))
    decreases |run|
  {
    hide Inv, Tells, Step, Enabled;
    if |run| > 0 {
      StepKeeps(o, s, run[0]);
      StepTells(o, s, run[0]);
      RunTells(o, Step(o, s, run[0]), run[1..]);
    }
  }

  /** In every interleaving, whatever a caller is sent is true of what happened before: that the owner
      stopped or a stop was already requested only after a shutdown was admitted or the service
      dropped, that its sender changed only after its own verification failed, an answer only
      after its own request was answered, and a rejected stop only for the reason given. */
  lemma CallersAreToldTheTruth(o: Owner, run: seq<Action>, j: nat)
    requires Feasible(o, Start(), run)
    requires j < |After(o, Start(), run).log| && After(o, Start(), run).log[j].Sent?
    ensures var log := After(o, Start(), run).log; Truth(o, log[..j], log[j].id, log[j].response)
  {
    RunTells(o, Start(), run);
    var log := After(o, Start(), run).log;
    assert Earned(o, log[..j], log[j]);
  }

  /** A request reaches `answer` only if it needs no verification or its own verification succeeded,
      only a received request for exactly this background service, generation and executable is
      admitted to stop it, and a panic inside `answer` is the end of both: later requests are
      dropped, and only then. */
  lemma OnlyVerifiedRequestsAreAnswered(o: Owner, run: seq<Action>, j: nat)
    requires Feasible(o, Start(), run) && j < |After(o, Start(), run).log|
    ensures var log := After(o, Start(), run).log;
            && (log[j].Began? ==> MayAnswer(o, log[..j], log[j].id) && !Panics(log[..j]))
            && (log[j].Answered? ==> Began(log[j].id) in log[..j])
            && (log[j].Admitted? ==>
                  && Received(log[j].id, log[j].request) in log[..j] && !Panics(log[..j])
                  && o.mode == Background && log[j].request == Shutdown(o.generation, o.hash))
            && (log[j].Lost? ==> Panics(log[..j]))
  {
    RunTells(o, Start(), run);
    var log := After(o, Start(), run).log;
    assert Earned(o, log[..j], log[j]);
  }
}
