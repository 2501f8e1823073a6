/** An agent session: the class with its critical sections, and the machine in which any
    number of callers run turns, scheduled ticks, state queries and Close. */
module Session {
  import opened Common
  import opened Scheduler

  datatype SessionState = Starting | Ready | Busy | Broken | Stopped

  // ---------------------------------------------------------------- critical sections

  /** What the turn mutex guards; open says that the runtime is still there. */
  datatype Core = Core(state: SessionState, open: bool)

  const NEW_CORE := Core(Ready, true)

  /** runtime.Run has returned. */
  function AfterRun(c: Core, ok: bool): Core {
    c.(state := if ok then Ready else Broken)
  }

  predicate TickMayRun(c: Core) {
    c.open && c.state != Broken && c.state != Stopped
  }

  function AfterClose(c: Core): Core {
    if c.open then Core(Stopped, false) else c
  }

  lemma AllStopped(c: Sched)
    requires Inv(c) && c.tasks == map[] && c.stopping == multiset{}
    ensures forall n: nat | n < |c.timers| :: c.timers[n].stops == 1
  {
    forall n: nat | n < |c.timers|
      ensures c.timers[n].stops == 1
    {
      assert Balanced(c, n);
    }
  }

  lemma OnlyStops(before: seq<Timer>, after: seq<Timer>)
    requires |after| == |before|
    requires forall n: nat | n < |after| :: after[n].task == before[n].task && after[n].stops == 1
    ensures forall n: nat | n < |after| :: after[n] == before[n].(stops := 1)
  {
  }

  /** Close on a session that nobody else uses; ok is what runtime.Close reports. */
  function AfterCloseCall(c: Core, ok: bool): Core {
    if c.open && !ok then c else Core(Stopped, false)
  }

  /** agent.Spec, all of which decides whether a session can be reused. None is a nil slice or
      a nil map, which are not the same as empty ones to reflect.DeepEqual. */
  datatype Spec = Spec(driver: string, command: string, args: Option<seq<string>>, env: Option<map<string, string>>)

  /** What NewSession keeps: appending no arguments to a nil slice gives a nil slice. */
  function CloneSpec(spec: Spec): Spec {
    if spec.args == Some([]) then spec.(args := None) else spec
  }

  /** The copy is the same spec, except for arguments that are empty but not nil. */
  lemma CloneIsFaithfulExactlyWhen(spec: Spec)
    ensures CloneSpec(spec) == spec <==> spec.args != Some([])
    ensures CloneSpec(CloneSpec(spec)) == CloneSpec(spec)
  {
  }

  class Session {
    const bot: string
    const spec: Spec
    var sink: Option<nat>
    ghost var closeCalled: bool
    var state: SessionState
    var open: bool
    var timers: seq<Timer>
    var tasks: map<string, nat>
    var taskSeq: nat
    var schedClosed: bool
    ghost var stopping: multiset<nat>
    ghost var generated: seq<string>

    ghost function Turn(): Core
      reads this
    {
      Core(state, open)
    }

    ghost function Table(): Sched
      reads this
    {
      Sched(timers, tasks, taskSeq, schedClosed, stopping, generated)
    }

    /** Between calls of one goroutine. */
    ghost predicate Valid()
      reads this
    {
      && Inv(Table()) && stopping == multiset{}
      && (state == Stopped <==> !open)
      && state != Busy && state != Starting
    }

    /** NewSession, after the driver's Init has succeeded. */
    constructor (bot: string, spec: Spec)
      ensures this.bot == bot && this.spec == CloneSpec(spec) && sink == None && !closeCalled
      ensures Turn() == NEW_CORE && Table() == NEW_SCHED && Valid()
    {
      this.bot, this.spec, sink, closeCalled := bot, CloneSpec(spec), None, false;
      state, open := Ready, true;
      timers, tasks, taskSeq, schedClosed := [], map[], 0, false;
      stopping, generated := multiset{}, [];
    }

    /** runLocked; ok is what runtime.Run reports. */
    method RunLocked(ok: bool)
      requires open
      modifies this`state
      ensures Turn() == AfterRun(old(Turn()), ok)
    {
      state := Busy;
      if !ok {
        state := Broken;
        return;
      }
      state := Ready;
    }

    /** runTick with the turn mutex obtained; the result says whether the timer goes on. */
    method RunTick(ok: bool) returns (goesOn: bool)
      modifies this`state
      ensures goesOn == (TickMayRun(old(Turn())) && ok)
      ensures Turn() == if TickMayRun(old(Turn())) then AfterRun(old(Turn()), ok) else old(Turn())
    {
      if !open || state == Broken || state == Stopped {
        return false;
      }
      RunLocked(ok);
      return ok;
    }

    method Schedule(task: Task) returns (reply: Reply)
      modifies this
      ensures Table() == ScheduleSpec(old(Table()), task) && reply == ScheduleReply(old(Table()), task)
      ensures Turn() == old(Turn())
    {
      if task.interval <= 0 {
        return BadInterval;
      }
      if Blank(task.prompt) {
        return BadPrompt;
      }
      if schedClosed {
        return SessionClosed;
      }
      var t := task;
      if t.id == "" {
        taskSeq := taskSeq + 1;
        t := t.(id := TaskId(taskSeq));
        generated := generated + [t.id];
      }
      if t.id in tasks {
        return Exists(t.id);
      }
      timers, tasks := timers + [Timer(t, 0)], tasks[t.id := |timers|];
      return Registered(t.id);
    }

    /** The critical section of CancelTask; the result is the registration to stop. */
    method TakeTask(id: string) returns (timer: Option<nat>)
      modifies this`tasks, this`stopping
      ensures Table() == CancelSpec(old(Table()), id)
      ensures timer == if id in old(tasks) then Some(old(tasks)[id]) else None
    {
      if id !in tasks {
        return None;
      }
      timer := Some(tasks[id]);
      stopping := stopping + multiset{tasks[id]};
      tasks := tasks - {id};
    }

    method StopTimer(n: nat)
      requires n < |timers|
      modifies this`timers, this`stopping
      ensures Table() == StopTimerSpec(old(Table()), n)
    {
      timers := timers[n := timers[n].(stops := timers[n].stops + 1)];
      stopping := stopping - multiset{n};
    }

    method CancelTask(id: string) returns (found: bool)
      requires Inv(Table())
      modifies this
      ensures found == (id in old(tasks))
      ensures Table() == if found then StopTimerSpec(CancelSpec(old(Table()), id), old(tasks)[id]) else old(Table())
      ensures Turn() == old(Turn())
    {
      var timer := TakeTask(id);
      if timer.None? {
        return false;
      }
      StopTimer(timer.value);
      return true;
    }

    /** stopAllTasks: the table is emptied under the mutex, then every timer that was in it
        is stopped, once each. */
    method StopAllTasks(markClosed: bool)
      requires Inv(Table()) && stopping == multiset{}
      modifies this
      ensures Inv(Table()) && stopping == multiset{}
      ensures tasks == map[] && schedClosed == (old(schedClosed) || markClosed)
      ensures |timers| == |old(timers)|
      ensures forall n: nat | n < |timers| :: timers[n] == old(timers)[n].(stops := 1)
      ensures taskSeq == old(taskSeq) && Turn() == old(Turn())
      ensures sink == old(sink) && closeCalled == old(closeCalled)
    {
      ghost var before := Table();
      var taken := EmptyTable(markClosed);
      StopAllKeepsInv(before, markClosed);
      ghost var emptied := Table();
      StopTimers(taken);
      AllStopped(Table());
      OnlyStops(emptied.timers, timers);
    }

    /** The critical section of stopAllTasks; the result is the registrations to stop. */
    method EmptyTable(markClosed: bool) returns (taken: set<nat>)
      modifies this`tasks, this`schedClosed, this`stopping
      ensures Table() == StopAllSpec(old(Table()), markClosed)
      ensures stopping == old(stopping) + multiset(taken)
    {
      if markClosed {
        schedClosed := true;
      }
      taken := set id | id in tasks :: tasks[id];
      assert taken == tasks.Values;
      stopping := stopping + multiset(taken);
      tasks := map[];
    }

    method StopTimers(taken: set<nat>)
      requires Inv(Table()) && stopping == multiset(taken)
      modifies this`timers, this`stopping
      ensures Inv(Table()) && stopping == multiset{}
      ensures |timers| == |old(timers)|
      ensures forall n: nat | n < |timers| :: timers[n].task == old(timers)[n].task
    {
      var left := taken;
      while left != {}
        invariant Inv(Table()) && stopping == multiset(left)
        invariant |timers| == |old(timers)|
        invariant forall n: nat | n < |timers| :: timers[n].task == old(timers)[n].task
        decreases left
      {
        var n :| n in left;
        assert n in stopping;
        StopTimerKeepsInv(Table(), n);
        StopTimer(n);
        left := left - {n};
      }
    }

    method SetPushSink(newSink: Option<nat>)
      modifies this`sink
      ensures sink == newSink
      ensures old(Valid()) ==> Valid()
    {
      sink := newSink;
    }

    /** Close, called by one goroutine while no turn runs; ok is what runtime.Close reports. */
    method Close(ok: bool) returns (err: bool)
      requires Valid()
      modifies this
      ensures Valid() && closeCalled && schedClosed && tasks == map[] && sink == old(sink)
      ensures err == (old(open) && !ok)
      ensures Turn() == AfterCloseCall(old(Turn()), ok)
    {
      closeCalled := true;
      StopAllTasks(true);
      if !open {
        state := Stopped;
        return false;
      }
      if !ok {
        return true;
      }
      if open {
        open, state := false, Stopped;
      }
      return false;
    }
  }

  // ---------------------------------------------------------------- all interleavings

  /** Where one goroutine is. Any number of goroutines exist; most are Outside. */
  datatype Pc =
    | Outside
    | SendWaiting      // in Send, before s.mu.Lock returns
    | SendRunning      // in Send, runtime.Run in progress
    | TickRunning      // in runTick, runtime.Run in progress
    | StateWaiting     // in State, before s.mu.Lock returns
    | CloseWaiting     // in Close, before the first s.mu.Lock returns
    | CloseCalling     // in Close, runtime.Close in progress
    | CloseWaitingAgain

  datatype Turns = Turns(
    core: Core,
    mu: Option<nat>,             // the goroutine that holds the turn mutex across a step
    pcs: map<nat, Pc>,
    started: nat,                // turns started so far
    visible: set<SessionState>,  // every state ever returned by State
    closedOk: bool)              // some Close has returned nil

  const NEW_TURNS := Turns(NEW_CORE, None, map[], 0, {}, false)

  datatype Move =
    | SendCall(g: nat)
    | SendLock(g: nat)
    | SendReturn(g: nat, ok: bool)
    | Tick(g: nat)               // TryLock and what follows up to runtime.Run
    | TickReturn(g: nat, ok: bool)
    | StateCall(g: nat)
    | StateRead(g: nat)
    | CloseCall(g: nat)
    | CloseLock(g: nat)
    | RuntimeClosed(g: nat, ok: bool)
    | CloseLockAgain(g: nat)

  function PcOf(s: Turns, g: nat): Pc {
    if g in s.pcs then s.pcs[g] else Outside
  }

  predicate Running(p: Pc) {
    p.SendRunning? || p.TickRunning?
  }

  /** Send assumes a runtime; see SendNeedsARuntime. */
  predicate MayMove(s: Turns, e: Move) {
    match e
    case SendCall(g) => PcOf(s, g).Outside?
    case SendLock(g) => PcOf(s, g).SendWaiting? && s.mu.None? && s.core.open
    case SendReturn(g, _) => PcOf(s, g).SendRunning?
    case Tick(g) => PcOf(s, g).Outside?
    case TickReturn(g, _) => PcOf(s, g).TickRunning?
    case StateCall(g) => PcOf(s, g).Outside?
    case StateRead(g) => PcOf(s, g).StateWaiting? && s.mu.None?
    case CloseCall(g) => PcOf(s, g).Outside?
    case CloseLock(g) => PcOf(s, g).CloseWaiting? && s.mu.None?
    case RuntimeClosed(g, _) => PcOf(s, g).CloseCalling?
    case CloseLockAgain(g) => PcOf(s, g).CloseWaitingAgain? && s.mu.None?
  }

  predicate StartsTurn(s: Turns, e: Move) {
    e.SendLock? || (e.Tick? && s.mu.None? && TickMayRun(s.core))
  }

  function At(s: Turns, g: nat, p: Pc): Turns {
    s.(pcs := s.pcs[g := p])
  }

  function Next(s: Turns, e: Move): Turns
    requires MayMove(s, e)
  {
    match e
    case SendCall(g) => At(s, g, SendWaiting)
    case SendLock(g) => At(s, g, SendRunning).(mu := Some(g), core := s.core.(state := Busy), started := s.started + 1)
    case SendReturn(g, ok) => At(s, g, Outside).(mu := None, core := AfterRun(s.core, ok))
    case Tick(g) =>
      if !StartsTurn(s, e) then s
      else At(s, g, TickRunning).(mu := Some(g), core := s.core.(state := Busy), started := s.started + 1)
    case TickReturn(g, ok) => At(s, g, Outside).(mu := None, core := AfterRun(s.core, ok))
    case StateCall(g) => At(s, g, StateWaiting)
    case StateRead(g) => At(s, g, Outside).(visible := s.visible + {s.core.state})
    case CloseCall(g) => At(s, g, CloseWaiting)
    case CloseLock(g) =>
      if s.core.open then At(s, g, CloseCalling)
      else At(s, g, Outside).(core := s.core.(state := Stopped), closedOk := true)
    case RuntimeClosed(g, ok) => At(s, g, if ok then CloseWaitingAgain else Outside)
    case CloseLockAgain(g) => At(s, g, Outside).(core := AfterClose(s.core), closedOk := true)
  }

  ghost predicate MovesTo(s: Turns, es: seq<Move>, t: Turns)
    decreases |es|
  {
    if es == [] then s == t else MayMove(s, es[0]) && MovesTo(Next(s, es[0]), es[1..], t)
  }

  ghost predicate TurnInv(s: Turns) {
    && (forall g: nat :: Running(PcOf(s, g)) <==> s.mu == Some(g))
    && (s.core.state == Busy <==> s.mu.Some?)
    && (s.core.state == Stopped <==> !s.core.open)
    && s.core.state != Starting
    && Busy !in s.visible
    && (s.closedOk ==> !s.core.open)
  }

  lemma TurnInvStep(s: Turns, e: Move)
    requires TurnInv(s) && MayMove(s, e)
    ensures TurnInv(Next(s, e))
    ensures s.closedOk ==> Next(s, e).closedOk && Next(s, e).started == s.started
  {
    forall g: nat
      ensures Running(PcOf(Next(s, e), g)) <==> Next(s, e).mu == Some(g)
    {
      assert Running(PcOf(s, g)) <==> s.mu == Some(g);
      assert Running(PcOf(s, e.g)) <==> s.mu == Some(e.g);
    }
  }

  lemma {:induction false} TurnInvRun(s: Turns, es: seq<Move>, t: Turns)
    requires TurnInv(s) && MovesTo(s, es, t)
    ensures TurnInv(t)
    ensures s.closedOk ==> t.closedOk && t.started == s.started
    decreases |es|
  {
    if es == [] {
    } else {
      TurnInvStep(s, es[0]);
      TurnInvRun(Next(s, es[0]), es[1..], t);
    }
  }

  /** At most one turn runs, whoever started it; Busy is exactly "the turn mutex is held" and
      is never returned by State; Stopped is exactly "no runtime"; a tick that starts a turn
      finds the session Ready with its runtime. */
  lemma TurnsExclude(es: seq<Move>, t: Turns)
    requires MovesTo(NEW_TURNS, es, t)
    ensures forall g: nat, h: nat :: Running(PcOf(t, g)) && Running(PcOf(t, h)) ==> g == h
    ensures t.core.state == Busy <==> t.mu.Some?
    ensures Busy !in t.visible
    ensures t.core.state == Stopped <==> !t.core.open
    ensures forall g: nat :: MayMove(t, Tick(g)) && StartsTurn(t, Tick(g)) ==> t.core == Core(Ready, true)
  {
    TurnInvRun(NEW_TURNS, es, t);
  }

  /** Once some Close has returned nil, no turn of any kind ever starts again. */
  lemma NoTurnAfterClose(es: seq<Move>, s: Turns, fs: seq<Move>, t: Turns)
    requires MovesTo(NEW_TURNS, es, s) && s.closedOk
    requires MovesTo(s, fs, t)
    ensures t.started == s.started && t.core == Core(Stopped, false)
    ensures forall e :: MayMove(t, e) ==> !StartsTurn(t, e)
  {
    TurnInvRun(NEW_TURNS, es, s);
    TurnInvRun(s, fs, t);
  }

  /** Send itself checks neither: with the mutex free it can run exactly when the runtime is
      still there, and a Send that waited out a successful Close finds none. */
  lemma SendNeedsARuntime(es: seq<Move>, t: Turns, g: nat)
    requires MovesTo(NEW_TURNS, es, t)
    requires PcOf(t, g).SendWaiting? && t.mu.None?
    ensures MayMove(t, SendLock(g)) <==> t.core.state != Stopped
    ensures t.closedOk ==> !MayMove(t, SendLock(g))
  {
    TurnInvRun(NEW_TURNS, es, t);
  }

  lemma {:induction false} ExtendMoves(s: Turns, es: seq<Move>, t: Turns, e: Move)
    requires MovesTo(s, es, t) && MayMove(t, e)
    ensures MovesTo(s, es + [e], Next(t, e))
    decreases |es|
  {
    if es == [] {
      assert [e][1..] == [];
    } else {
      assert (es + [e])[1..] == es[1..] + [e];
      ExtendMoves(Next(s, es[0]), es[1..], t, e);
    }
  }

  /** And there is such a Send: it waits for the mutex, with nothing to run, once another
      goroutine has closed the session. */
  lemma SendCanOutwaitClose()
    ensures exists es, t :: MovesTo(NEW_TURNS, es, t) && t.closedOk && t.mu.None? && PcOf(t, 0).SendWaiting?
                            && !MayMove(t, SendLock(0))
  {
    var s1 := Next(NEW_TURNS, SendCall(0));
    var s2 := Next(s1, CloseCall(1));
    var s3 := Next(s2, CloseLock(1));
    var s4 := Next(s3, RuntimeClosed(1, true));
    var s5 := Next(s4, CloseLockAgain(1));
    var r0: seq<Move> := [];
    ExtendMoves(NEW_TURNS, r0, NEW_TURNS, SendCall(0));
    ExtendMoves(NEW_TURNS, r0 + [SendCall(0)], s1, CloseCall(1));
    ExtendMoves(NEW_TURNS, r0 + [SendCall(0)] + [CloseCall(1)], s2, CloseLock(1));
    ExtendMoves(NEW_TURNS, r0 + [SendCall(0)] + [CloseCall(1)] + [CloseLock(1)], s3, RuntimeClosed(1, true));
    ExtendMoves(NEW_TURNS, r0 + [SendCall(0)] + [CloseCall(1)] + [CloseLock(1)] + [RuntimeClosed(1, true)], s4, CloseLockAgain(1));
    assert PcOf(s5, 0).SendWaiting?;
  }
}
