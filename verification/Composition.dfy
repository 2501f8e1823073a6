/** The whole orchestrator: any number of bots over one shared state, stopped and started at any
    time, with goroutines of stopped generations still at work. As long as these do no harm
    every bot is served like a pipeline of its own. */
module Composition {
  import opened Common
  import opened Dedup
  import opened Pipeline
  import opened Orchestrator
  import Safety = PipelineSafety
  import Foreign = PipelineForeign

  /** The goroutines of one bot. Once the bot is stopped its channels are known to them only. */
  datatype Threads = Threads(
    stopped: bool,
    left: Chans,
    leftPending: Option<Msg>,
    starter: Starter,
    acc: Accept,
    del: Deliver,
    log: Log)

  /** The goroutines of a stopped generation, after the bot has been started again. */
  datatype Left = Left(bot: string, threads: Threads)

  datatype World = World(o: Shared, threads: map<string, Threads>, behind: seq<Left>, clock: int)

  function Empty(clock: int): World {
    World(Orchestrator.Shared(map[], map[], None, 0), map[], [], clock)
  }

  const NO_THREADS := ThreadsOf(FRESH)

  function ThreadsOf(s: Pipe): Threads {
    Threads(s.stopped, if s.stopped then s.chans else [], if s.stopped then s.pending else None,
            s.starter, s.acc, s.del, s.log)
  }

  /** One bot's part of the world, with a duplicate filter of its own. */
  function Whole(o: Shared, bot: string, t: Threads, slice: Slice): Pipe {
    Pipe(slice,
         if t.stopped || bot !in o.bots then t.left else o.bots[bot].chans,
         if t.stopped || bot !in o.bots then t.leftPending else o.bots[bot].pending,
         t.stopped, t.starter, t.acc, t.del, t.log)
  }

  /** e is the first admission of a generation. */
  predicate Starts(w: World, bot: string, e: Step) {
    e.AdmitMsg? && (bot in w.threads ==> w.threads[bot].stopped)
  }

  function ThreadsFor(w: World, bot: string, e: Step): Threads {
    if Starts(w, bot, e) || bot !in w.threads then NO_THREADS else w.threads[bot]
  }

  predicate ReadsClock(e: Step) {
    e.AdmitMsg? || e.FailFinish? || e.AccFinish? || e.DelFinish?
  }

  predicate Possible(w: World, bot: string, e: Step) {
    && (bot in w.threads || e.AdmitMsg?)
    && Enabled(Whole(w.o, bot, ThreadsFor(w, bot, e), EMPTY_SLICE), e)
    && (ReadsClock(e) ==> w.clock <= e.now)
  }

  /** A channel operation of bot; after StopBot the shared state does not have the channel. */
  function PutChans(o: Shared, bot: string, chans: Chans): Shared {
    if bot in o.bots then o.(bots := o.bots[bot := o.bots[bot].(chans := chans)]) else o
  }

  /** What a step does to the shared state: a lock section, a channel operation or nothing. */
  function SharedStep(o: Shared, bot: string, s: Pipe, e: Step): Shared
    requires Enabled(s, e)
  {
    match e
    case AdmitMsg(m, now) => AdmitSpec(o, bot, m, now)
    case Install => if bot in o.bots then InstallSpec(o, bot, o.bots[bot].gen) else o
    case StarterSend => PutChans(o, bot, Apply(s, e).chans)
    case AccReceive => PutChans(o, bot, Apply(s, e).chans)
    case AccMark => MarkSpec(o, bot)
    case FailFinish(now) => FinishSpec(o, bot, s.acc.m.id, false, now)
    case AccFinish(now) => FinishSpec(o, bot, s.acc.m.id, false, now)
    case DelFinish(now) => FinishSpec(o, bot, s.del.m.id, s.del.ok, now)
    case ResolveOk(size, _) => ResizeSpec(o, bot, size)
    case StopBot => StopSpec(o, bot)
    case StarterEval => o
    case AccEnter => o
    case AccStopped => o
    case ResolveFail => o
    case Handoff => o
    case AccAbort => o
    case AccFinalise => o
    case DelStopped => o
    case SendReturn(_) => o
    case DelFinalise => o
  }

  /** What a step does to the goroutines; the admission is decided on the shared state. */
  function ThreadsStep(o: Shared, bot: string, s: Pipe, e: Step): Threads
    requires Enabled(s, e)
  {
    if e.AdmitMsg? then
      ThreadsOf(if AdmitVerdict(o, bot, e.m, e.now).Admitted? then s.(log := AdmitLog(s, e.m)) else s)
    else ThreadsOf(Apply(s, e))
  }

  function Next(w: World, bot: string, e: Step): World
    requires Possible(w, bot, e)
  {
    var s := Whole(w.o, bot, ThreadsFor(w, bot, e), EMPTY_SLICE);
    World(SharedStep(w.o, bot, s, e), w.threads[bot := ThreadsStep(w.o, bot, s, e)],
          if Starts(w, bot, e) && bot in w.threads then w.behind + [Left(bot, w.threads[bot])] else w.behind,
          if ReadsClock(e) then e.now else w.clock)
  }

  // ---------------------------------------------------------------- goroutines left behind

  /** What a generation that is left behind works on: its channels are its own. */
  function OldPipe(t: Threads): Pipe {
    Pipe(EMPTY_SLICE, t.left, t.leftPending, true, t.starter, t.acc, t.del, t.log)
  }

  /** What a step of it does to the shared state: the lock sections look the bot up by id. */
  function Intrudes(o: Shared, bot: string, s: Pipe, e: Step): Shared
    requires Enabled(s, e)
  {
    if e.AccMark? then MarkSpec(o, bot)
    else if e.ResolveOk? then ResizeSpec(o, bot, e.size)
    else if Finishes(s, e).Some? && ReadsClock(e)
    then FinishSpec(o, bot, Finishes(s, e).value.id, e.DelFinish? && s.del.ok, e.now)
    else o
  }

  predicate BehindPossible(w: World, i: nat, e: Step) {
    i < |w.behind| && Enabled(OldPipe(w.behind[i].threads), e) && (ReadsClock(e) ==> w.clock <= e.now)
  }

  function BehindNext(w: World, i: nat, e: Step): World
    requires BehindPossible(w, i, e)
  {
    var s := OldPipe(w.behind[i].threads);
    World(Intrudes(w.o, w.behind[i].bot, s, e), w.threads,
          w.behind[i := Left(w.behind[i].bot, ThreadsOf(Apply(s, e)))], if ReadsClock(e) then e.now else w.clock)
  }

  // ---------------------------------------------------------------- moves

  /** A move of the world. ensureWorker is called with the entry that admitMessage returned,
      some time before; gen says which one that was. */
  datatype Move =
    | Do(bot: string, e: Step)
    | EnsureWorker(bot: string, gen: nat)
    | Behind(i: nat, e: Step)              // generation i of those left behind

  /** The step of a bot's present generation that a move is; none for an ensureWorker that comes
      too late. */
  function StepOf(w: World, m: Move): Option<Step> {
    match m
    case Do(_, e) => Some(e)
    case EnsureWorker(bot, gen) => if MayInstall(w.o, bot, gen) then Some(Install) else None
    case Behind(_, _) => None
  }

  predicate CanMove(w: World, m: Move) {
    && (m.Do? ==> !m.e.Install?)
    && (m.Behind? ==> BehindPossible(w, m.i, m.e))
    && (StepOf(w, m).Some? ==> Possible(w, m.bot, StepOf(w, m).value))
  }

  function After(w: World, m: Move): World
    requires CanMove(w, m)
  {
    if m.Behind? then BehindNext(w, m.i, m.e)
    else if StepOf(w, m).Some? then Next(w, m.bot, StepOf(w, m).value)
    else w
  }

  ghost predicate MovesTo(w: World, ms: seq<Move>, v: World)
    decreases |ms|
  {
    if ms == [] then w == v else CanMove(w, ms[0]) && MovesTo(After(w, ms[0]), ms[1..], v)
  }

  /** The steps of bot's present generation after m, when they were past before. */
  function Grown(w: World, m: Move, bot: string, past: seq<Step>): seq<Step> {
    if StepOf(w, m).None? || m.bot != bot then past
    else if Starts(w, bot, StepOf(w, m).value) then [StepOf(w, m).value]
    else past + [StepOf(w, m).value]
  }

  /** The steps of bot's present generation after the moves ms. */
  function Project(w: World, ms: seq<Move>, bot: string, past: seq<Step>): seq<Step>
    decreases |ms|
  {
    if ms == [] || !CanMove(w, ms[0]) then past
    else Project(After(w, ms[0]), ms[1..], bot, Grown(w, ms[0], bot, past))
  }

  // ---------------------------------------------------------------- simulation

  /** A live bot without a worker has a message waiting for one. */
  predicate Awaits(s: Pipe) {
    !s.stopped && !HasWorker(s.chans) ==> s.pending.Some?
  }

  /** s is bot's pipeline, with a history that has not been pruned. */
  ghost predicate Sim(w: World, bot: string, s: Pipe) {
    && bot in w.threads
    && Describes(w.o, bot, s, w.clock)
    && s == Whole(w.o, bot, w.threads[bot], s.slice)
    && Awaits(s)
  }

  /** A bot without a generation. */
  const NOBODY := FRESH.(stopped := true, slice := EMPTY_SLICE)

  /** past are the steps of the bot's present generation, and lead to where it is. */
  ghost predicate Tracks(w: World, bot: string, past: seq<Step>) {
    if bot in w.threads then exists s :: Reaches(FRESH, past, s) && Sim(w, bot, s)
    else past == [] && Describes(w.o, bot, NOBODY, w.clock)
  }

  /** The goroutines do not look at the duplicate filter. */
  lemma ThreadsIgnoreTheFilter(s: Pipe, slice: Slice, e: Step)
    requires Enabled(s, e) && !e.AdmitMsg?
    ensures Enabled(s.(slice := slice), e)
    ensures Apply(s.(slice := slice), e) == Apply(s, e).(slice := Apply(s.(slice := slice), e).slice)
  {
  }

  lemma WholeAgain(o: Shared, bot: string, s: Pipe, t: int)
    requires Describes(o, bot, s, t)
    ensures Whole(o, bot, ThreadsOf(s), s.slice) == s
  {
  }

  predicate OnChannels(e: Step) {
    e.StarterSend? || e.AccReceive?
  }

  predicate Locks(e: Step) {
    e.AccMark? || e.Install? || e.ResolveOk? || e.StopBot?
  }

  /** The bot's own lock sections and channel operations, on the shared state. */
  lemma OwnLock(o: Shared, bot: string, s: Pipe, t: int, e: Step)
    requires Describes(o, bot, s, t) && Enabled(s, e) && Locks(e)
    ensures Describes(SharedStep(o, bot, s, e), bot, Apply(s, e), t)
  {
    match e {
      case AccMark => MarkIsAPipelineStep(o, bot, s, t);
      case Install => QueueSectionsArePipelineSteps(o, bot, s, t, o.bots[bot].gen, 0, None);
      case ResolveOk(size, sess) => QueueSectionsArePipelineSteps(o, bot, s, t, 0, size, sess);
      case StopBot => StopIsAPipelineStep(o, bot, s, t);
    }
  }

  lemma OwnChannel(o: Shared, bot: string, s: Pipe, t: int, e: Step)
    requires Describes(o, bot, s, t) && Enabled(s, e) && OnChannels(e)
    ensures Describes(SharedStep(o, bot, s, e), bot, Apply(s, e), t)
  {
    assert IndexOf(PutChans(o, bot, Apply(s, e).chans)) == IndexOf(o);
    assert Apply(s, e) == s.(chans := Apply(s, e).chans, starter := Apply(s, e).starter, acc := Apply(s, e).acc, log := Apply(s, e).log);
  }

  lemma OwnLocal(o: Shared, bot: string, s: Pipe, t: int, e: Step)
    requires Describes(o, bot, s, t) && Enabled(s, e)
    requires !e.AdmitMsg? && !Locks(e) && !OnChannels(e) && Finishes(s, e).None?
    ensures SharedStep(o, bot, s, e) == o && Describes(o, bot, Apply(s, e), t)
  {
    assert Apply(s, e) == s.(starter := Apply(s, e).starter, acc := Apply(s, e).acc, del := Apply(s, e).del, log := Apply(s, e).log);
  }

  lemma SharedFinish(o: Shared, bot: string, s: Pipe, e: Step)
    requires Enabled(s, e) && Finishes(s, e).Some?
    ensures ReadsClock(e)
    ensures SharedStep(o, bot, s, e) == FinishSpec(o, bot, Finishes(s, e).value.id, e.DelFinish? && s.del.ok, e.now)
  {
  }

  lemma OwnFinish(o: Shared, bot: string, s: Pipe, t: int, e: Step)
    requires Describes(o, bot, s, t) && Enabled(s, e) && Finishes(s, e).Some? && ReadsClock(e) && t <= e.now
    ensures Describes(SharedStep(o, bot, s, e), bot, Apply(s, e), e.now)
  {
    FinishIsAPipelineStep(o, bot, s, t, e);
    SharedFinish(o, bot, s, e);
  }

  lemma OthersIgnoreTheClock(s: Pipe, e: Step)
    requires Enabled(s, e) && Finishes(s, e).None? && !e.AdmitMsg?
    ensures !ReadsClock(e)
  {
  }

  lemma OwnShared(o: Shared, bot: string, s: Pipe, t: int, e: Step)
    requires Describes(o, bot, s, t) && Enabled(s, e) && !e.AdmitMsg?
    requires ReadsClock(e) ==> t <= e.now
    ensures Describes(SharedStep(o, bot, s, e), bot, Apply(s, e), if ReadsClock(e) then e.now else t)
  {
    if Finishes(s, e).Some? {
      SharedFinish(o, bot, s, e);
      OwnFinish(o, bot, s, t, e);
    } else {
      OthersIgnoreTheClock(s, e);
      if Locks(e) {
        OwnLock(o, bot, s, t, e);
      } else if OnChannels(e) {
        OwnChannel(o, bot, s, t, e);
      } else {
        OwnLocal(o, bot, s, t, e);
      }
    }
  }

  /** The shared part of a step does not depend on the filter either. */
  lemma SharedIgnoresTheFilter(o: Shared, bot: string, s: Pipe, slice: Slice, e: Step)
    requires Enabled(s, e) && !e.AdmitMsg?
    ensures Enabled(s.(slice := slice), e) && SharedStep(o, bot, s.(slice := slice), e) == SharedStep(o, bot, s, e)
  {
    ThreadsIgnoreTheFilter(s, slice, e);
  }

  lemma AwaitsStep(s: Pipe, e: Step)
    requires Awaits(s) && Enabled(s, e)
    ensures Awaits(Apply(s, e))
  {
  }

  /** A bot's own step is a step of its pipeline. */
  lemma OwnMove(w: World, bot: string, s: Pipe, e: Step)
    requires Sim(w, bot, s) && Possible(w, bot, e) && !Starts(w, bot, e)
    ensures Enabled(s, e) && Sim(Next(w, bot, e), bot, Apply(s, e))
  {
    if e.AdmitMsg? {
      OwnAdmission(w, bot, s, e);
    } else {
      var p := Whole(w.o, bot, w.threads[bot], EMPTY_SLICE);
      assert p == s.(slice := EMPTY_SLICE) && s == p.(slice := s.slice);
      ThreadsIgnoreTheFilter(p, s.slice, e);
      SharedIgnoresTheFilter(w.o, bot, p, s.slice, e);
      OwnShared(w.o, bot, s, w.clock, e);
      WholeAgain(Next(w, bot, e).o, bot, Apply(s, e), Next(w, bot, e).clock);
      AwaitsStep(s, e);
    }
  }

  lemma OwnAdmission(w: World, bot: string, s: Pipe, e: Step)
    requires Sim(w, bot, s) && Possible(w, bot, e) && !Starts(w, bot, e) && e.AdmitMsg?
    ensures Enabled(s, e) && Sim(Next(w, bot, e), bot, Apply(s, e))
  {
    var p := Whole(w.o, bot, w.threads[bot], EMPTY_SLICE);
    assert p == s.(slice := EMPTY_SLICE);
    AdmitIsAPipelineStep(w.o, bot, s, w.clock, e.m, e.now);
    assert ThreadsStep(w.o, bot, p, e) == ThreadsOf(Apply(s, e));
    WholeAgain(Next(w, bot, e).o, bot, Apply(s, e), Next(w, bot, e).clock);
    AwaitsStep(s, e);
  }

  /** The first admission of a generation starts a pipeline. */
  lemma FirstMove(w: World, bot: string, e: Step)
    requires Describes(w.o, bot, NOBODY, w.clock) && Possible(w, bot, e) && Starts(w, bot, e)
    ensures Enabled(FRESH, e) && Sim(Next(w, bot, e), bot, Apply(FRESH, e))
  {
    var event := Admission(w.o, bot, e.m, e.now);
    OwnStepAgrees(IndexOf(w.o), EMPTY_SLICE, bot, w.clock, event);
    AdmitIndex(w.o, bot, e.m, e.now);
    assert SliceStep(EMPTY_SLICE, event) == SliceStep(FRESH.slice, Admit("", e.m.id, true, e.now));
    assert ThreadsStep(w.o, bot, Whole(w.o, bot, NO_THREADS, EMPTY_SLICE), e) == ThreadsOf(Apply(FRESH, e));
    WholeAgain(Next(w, bot, e).o, bot, Apply(FRESH, e), e.now);
  }

  /** A stopped generation has left nothing in the shared state. */
  lemma StoppedIsNobody(w: World, bot: string, s: Pipe)
    requires Safety.Inv(s) && Sim(w, bot, s) && s.stopped
    ensures Describes(w.o, bot, NOBODY, w.clock)
  {
    assert s.slice == EMPTY_SLICE;
  }

  lemma OtherShared(o: Shared, bot: string, s: Pipe, t: int, other: string, p: Pipe, e: Step)
    requires Describes(o, bot, s, t) && Enabled(p, e)
    requires other != bot && Apart(other, bot)
    requires ReadsClock(e) ==> t <= e.now
    ensures Describes(SharedStep(o, other, p, e), bot, s, if ReadsClock(e) then e.now else t)
  {
    if e.AdmitMsg? {
      OtherAdmission(o, bot, s, t, other, e.m, e.now);
    } else if Finishes(p, e).Some? {
      SharedFinish(o, other, p, e);
      OtherFinish(o, bot, s, t, other, Finishes(p, e).value.id, e.DelFinish? && p.del.ok, e.now);
    } else {
      OthersIgnoreTheClock(p, e);
      OtherUntimed(o, bot, s, t, other, p, e);
    }
  }

  lemma OtherUntimed(o: Shared, bot: string, s: Pipe, t: int, other: string, p: Pipe, e: Step)
    requires Describes(o, bot, s, t) && Enabled(p, e)
    requires other != bot && Apart(other, bot)
    requires !e.AdmitMsg? && Finishes(p, e).None?
    ensures Describes(SharedStep(o, other, p, e), bot, s, t)
  {
    if Locks(e) {
      OtherLock(o, bot, s, t, other, p, e);
    } else if OnChannels(e) {
      assert IndexOf(PutChans(o, other, Apply(p, e).chans)) == IndexOf(o);
    } else {
      LocalLeavesShared(o, other, p, e);
    }
  }

  lemma LocalLeavesShared(o: Shared, bot: string, s: Pipe, e: Step)
    requires Enabled(s, e) && !e.AdmitMsg? && !Locks(e) && !OnChannels(e) && Finishes(s, e).None?
    ensures SharedStep(o, bot, s, e) == o
  {
  }

  /** A step of another bot is none of this bot's pipeline. */
  lemma OtherMove(w: World, bot: string, s: Pipe, other: string, e: Step)
    requires Describes(w.o, bot, s, w.clock)
    requires other != bot && Apart(other, bot) && Possible(w, other, e)
    ensures Describes(Next(w, other, e).o, bot, s, Next(w, other, e).clock)
  {
    OtherShared(w.o, bot, s, w.clock, other, Whole(w.o, other, ThreadsFor(w, other, e), EMPTY_SLICE), e);
  }

  /** So it leaves the bot as it was, whether it has a pipeline or not. */
  lemma OthersDoNotMatter(w: World, bot: string, s: Pipe, other: string, e: Step)
    requires other != bot && Apart(other, bot) && Possible(w, other, e)
    ensures Sim(w, bot, s) ==> Sim(Next(w, other, e), bot, s)
    ensures Describes(w.o, bot, NOBODY, w.clock) ==> Describes(Next(w, other, e).o, bot, NOBODY, Next(w, other, e).clock)
  {
    var v := Next(w, other, e);
    if Sim(w, bot, s) {
      OtherMove(w, bot, s, other, e);
      assert v.threads[bot] == w.threads[bot];
      assert s == Whole(v.o, bot, v.threads[bot], s.slice);
    }
    if Describes(w.o, bot, NOBODY, w.clock) {
      OtherMove(w, bot, NOBODY, other, e);
    }
  }

  lemma OtherLock(o: Shared, bot: string, s: Pipe, t: int, other: string, p: Pipe, e: Step)
    requires Describes(o, bot, s, t) && other != bot && Apart(other, bot)
    requires Enabled(p, e) && Locks(e)
    ensures Describes(SharedStep(o, other, p, e), bot, s, t)
  {
    match e {
      case AccMark => OtherQueue(o, bot, s, t, other, 0, 0);
      case Install => OtherQueue(o, bot, s, t, other, if other in o.bots then o.bots[other].gen else 0, 0);
      case ResolveOk(size, _) => OtherQueue(o, bot, s, t, other, 0, size);
      case StopBot => OtherStop(o, bot, s, t, other);
    }
  }

  // ---------------------------------------------------------------- harm

  predicate KeyInProgress(o: Shared, bot: string, id: string) {
    id != "" && Key(bot, id) in o.seen && o.seen[Key(bot, id)].inProgress
  }

  /** A step e of a generation s left behind leaves the present one, with goroutines t, in order. */
  predicate Harmless(o: Shared, bot: string, t: Threads, s: Pipe, e: Step)
    requires Enabled(s, e)
  {
    bot in o.bots ==>
      if Finishes(s, e).Some? then
        var id := Finishes(s, e).value.id;
        !KeyInProgress(o, bot, id) && (id == "" ==> o.bots[bot].active == 0)
      else if e.AccMark? then false
      else if e.ResolveOk? then
        !(Foreign.Replaces(o.bots[bot].chans, QueueSize(e.size)) && (t.acc.AccSelect? || t.starter.Sending?))
      else true
  }

  /** It cannot even be seen. */
  predicate Quiet(o: Shared, bot: string, t: Threads, s: Pipe, e: Step)
    requires Enabled(s, e)
  {
    Harmless(o, bot, t, s, e) &&
    (bot in o.bots && e.ResolveOk? ==> !Foreign.Replaces(o.bots[bot].chans, QueueSize(e.size)))
  }

  predicate HarmlessMove(w: World, m: Move, bot: string)
    requires CanMove(w, m)
  {
    m.Behind? && w.behind[m.i].bot == bot && bot in w.threads ==>
      Harmless(w.o, bot, w.threads[bot], OldPipe(w.behind[m.i].threads), m.e)
  }

  predicate QuietMove(w: World, m: Move, bot: string)
    requires CanMove(w, m)
  {
    m.Behind? && w.behind[m.i].bot == bot && bot in w.threads ==>
      Quiet(w.o, bot, w.threads[bot], OldPipe(w.behind[m.i].threads), m.e)
  }

  ghost predicate AllHarmless(w: World, ms: seq<Move>, bot: string)
    decreases |ms|
  {
    ms == [] || !CanMove(w, ms[0]) || (HarmlessMove(w, ms[0], bot) && AllHarmless(After(w, ms[0]), ms[1..], bot))
  }

  ghost predicate AllQuiet(w: World, ms: seq<Move>, bot: string)
    decreases |ms|
  {
    ms == [] || !CanMove(w, ms[0]) || (QuietMove(w, ms[0], bot) && AllQuiet(After(w, ms[0]), ms[1..], bot))
  }

  lemma LaterIsFine(o: Shared, bot: string, s: Pipe, t: int, u: int)
    requires Describes(o, bot, s, t) && t <= u
    ensures Describes(o, bot, s, u)
  {
  }

  /** The generation of another bot. */
  lemma OtherIntrudes(o: Shared, bot: string, s: Pipe, t: int, other: string, p: Pipe, e: Step)
    requires Describes(o, bot, s, t) && other != bot && Apart(other, bot) && Enabled(p, e)
    requires ReadsClock(e) ==> t <= e.now
    ensures Describes(Intrudes(o, other, p, e), bot, s, if ReadsClock(e) then e.now else t)
  {
    if e.AccMark? {
      OtherQueue(o, bot, s, t, other, 0, 0);
    } else if e.ResolveOk? {
      OtherQueue(o, bot, s, t, other, 0, e.size);
    } else if Finishes(p, e).Some? && ReadsClock(e) {
      OtherFinish(o, bot, s, t, other, Finishes(p, e).value.id, e.DelFinish? && p.del.ok, e.now);
    } else if ReadsClock(e) {
      LaterIsFine(o, bot, s, t, e.now);
    }
  }

  lemma IdleFinish(o: Shared, bot: string, id: string, ok: bool, now: int)
    requires bot in o.bots ==> !KeyInProgress(o, bot, id) && (id == "" ==> o.bots[bot].active == 0)
    ensures FinishSpec(o, bot, id, ok, now) == o
  {
    if bot in o.bots {
      assert o.bots[bot := o.bots[bot].(active := o.bots[bot].active)] == o.bots;
      FinishIsHarmlessExactlyWhen(IndexOf(o), bot, id, ok, now);
    }
  }

  lemma StillQueue(o: Shared, bot: string, s: Pipe, t: int, size: int)
    requires Describes(o, bot, s, t)
    requires bot in o.bots ==> !Foreign.Replaces(o.bots[bot].chans, QueueSize(size))
    ensures Describes(ResizeSpec(o, bot, size), bot, s, t)
  {
    assert IndexOf(ResizeSpec(o, bot, size)) == IndexOf(o);
  }

  lemma QuietIntrudes(o: Shared, bot: string, s: Pipe, t: int, th: Threads, p: Pipe, e: Step)
    requires Describes(o, bot, s, t) && Enabled(p, e) && Quiet(o, bot, th, p, e)
    requires ReadsClock(e) ==> t <= e.now
    ensures Describes(Intrudes(o, bot, p, e), bot, s, if ReadsClock(e) then e.now else t)
  {
    if e.ResolveOk? {
      StillQueue(o, bot, s, t, e.size);
    } else if Finishes(p, e).Some? && ReadsClock(e) {
      IdleFinish(o, bot, Finishes(p, e).value.id, e.DelFinish? && p.del.ok, e.now);
      LaterIsFine(o, bot, s, t, e.now);
    } else if ReadsClock(e) {
      LaterIsFine(o, bot, s, t, e.now);
    }
  }

  /** A foreign resize, seen at the bot's pipeline. */
  lemma ResizeIntrudes(o: Shared, bot: string, s: Pipe, t: int, size: int)
    requires Describes(o, bot, s, t) && bot in o.bots
    ensures Describes(ResizeSpec(o, bot, size), bot, Foreign.Resized(s, size), t)
  {
    assert IndexOf(ResizeSpec(o, bot, size)) == IndexOf(o);
  }

  // ---------------------------------------------------------------- main results

  predicate AllApart(ms: seq<Move>, bot: string) {
    forall m | m in ms :: m.Behind? || m.bot == bot || Apart(m.bot, bot)
  }

  predicate OldApart(w: World, bot: string) {
    forall l | l in w.behind :: l.bot == bot || Apart(l.bot, bot)
  }

  lemma OldApartMove(w: World, m: Move, bot: string)
    requires OldApart(w, bot) && CanMove(w, m) && AllApart([m], bot)
    ensures OldApart(After(w, m), bot)
  {
    assert m in [m];
  }

  /** The start of a generation, the first or a later one, whatever became of the last. */
  lemma StartIsTracked(w: World, bot: string, e: Step)
    requires bot in w.threads ==> exists s :: Safety.Inv(s) && Sim(w, bot, s)
    requires bot !in w.threads ==> Describes(w.o, bot, NOBODY, w.clock)
    requires Possible(w, bot, e) && Starts(w, bot, e)
    ensures Tracks(Next(w, bot, e), bot, [e])
  {
    if bot in w.threads {
      var s :| Safety.Inv(s) && Sim(w, bot, s);
      StoppedIsNobody(w, bot, s);
    }
    FirstMove(w, bot, e);
    var r0: seq<Step> := [];
    assert Reaches(FRESH, r0, FRESH);
    Safety.Extend(FRESH, r0, FRESH, e);
    assert r0 + [e] == [e];
  }

  lemma StepIsTracked(w: World, bot: string, past: seq<Step>, e: Step)
    requires Tracks(w, bot, past) && Possible(w, bot, e) && !Starts(w, bot, e)
    ensures Tracks(Next(w, bot, e), bot, past + [e])
  {
    var s :| Reaches(FRESH, past, s) && Sim(w, bot, s);
    OwnMove(w, bot, s, e);
    Safety.Extend(FRESH, past, s, e);
  }

  lemma OtherIsTracked(w: World, bot: string, past: seq<Step>, other: string, e: Step)
    requires Tracks(w, bot, past) && other != bot && Apart(other, bot) && Possible(w, other, e)
    ensures Tracks(Next(w, other, e), bot, past)
  {
    OthersDoNotMatter(w, bot, FRESH, other, e);
    if bot in w.threads {
      var s :| Reaches(FRESH, past, s) && Sim(w, bot, s);
      OthersDoNotMatter(w, bot, s, other, e);
    }
  }

  /** A step of a generation left behind that cannot be seen. */
  lemma BehindKeepsSim(w: World, i: nat, e: Step, bot: string, s: Pipe)
    requires BehindPossible(w, i, e) && OldApart(w, bot)
    requires QuietMove(w, Behind(i, e), bot) || w.behind[i].bot != bot
    ensures Sim(w, bot, s) ==> Sim(BehindNext(w, i, e), bot, s)
    ensures bot !in w.threads && Describes(w.o, bot, NOBODY, w.clock) ==>
              Describes(BehindNext(w, i, e).o, bot, NOBODY, BehindNext(w, i, e).clock)
  {
    var p, v := OldPipe(w.behind[i].threads), BehindNext(w, i, e);
    assert w.behind[i] in w.behind;
    if Sim(w, bot, s) {
      if w.behind[i].bot != bot {
        OtherIntrudes(w.o, bot, s, w.clock, w.behind[i].bot, p, e);
      } else {
        QuietIntrudes(w.o, bot, s, w.clock, w.threads[bot], p, e);
      }
      WholeAgain(v.o, bot, s, v.clock);
      assert s == Whole(v.o, bot, v.threads[bot], s.slice);
    }
    if bot !in w.threads && Describes(w.o, bot, NOBODY, w.clock) {
      if w.behind[i].bot != bot {
        OtherIntrudes(w.o, bot, NOBODY, w.clock, w.behind[i].bot, p, e);
      } else {
        QuietIntrudes(w.o, bot, NOBODY, w.clock, NO_THREADS, p, e);
      }
    }
  }

  lemma BehindIsTracked(w: World, i: nat, e: Step, bot: string, past: seq<Step>)
    requires Tracks(w, bot, past) && BehindPossible(w, i, e) && OldApart(w, bot) && QuietMove(w, Behind(i, e), bot)
    ensures Tracks(BehindNext(w, i, e), bot, past)
  {
    BehindKeepsSim(w, i, e, bot, FRESH);
    if bot in w.threads {
      var s :| Reaches(FRESH, past, s) && Sim(w, bot, s);
      BehindKeepsSim(w, i, e, bot, s);
    }
  }

  lemma TracksInv(w: World, bot: string, past: seq<Step>)
    requires Tracks(w, bot, past) && bot in w.threads
    ensures exists s :: Safety.Inv(s) && Sim(w, bot, s)
  {
    var s :| Reaches(FRESH, past, s) && Sim(w, bot, s);
    Safety.FreshInv();
    Safety.InvRun(FRESH, past, s);
  }

  lemma MoveIsTracked(w: World, m: Move, bot: string, past: seq<Step>)
    requires Tracks(w, bot, past) && CanMove(w, m) && AllApart([m], bot) && OldApart(w, bot) && QuietMove(w, m, bot)
    ensures Tracks(After(w, m), bot, Grown(w, m, bot, past))
  {
    assert m in [m];
    if m.Behind? {
      BehindIsTracked(w, m.i, m.e, bot, past);
    } else if StepOf(w, m).Some? {
      var e := StepOf(w, m).value;
      if m.bot != bot {
        OtherIsTracked(w, bot, past, m.bot, e);
      } else if Starts(w, bot, e) {
        if bot in w.threads {
          TracksInv(w, bot, past);
        }
        StartIsTracked(w, bot, e);
      } else {
        StepIsTracked(w, bot, past, e);
      }
    }
  }

  lemma {:induction false} RunIsTracked(w: World, ms: seq<Move>, v: World, bot: string, past: seq<Step>)
    requires Tracks(w, bot, past) && MovesTo(w, ms, v) && AllApart(ms, bot) && OldApart(w, bot) && AllQuiet(w, ms, bot)
    ensures Tracks(v, bot, Project(w, ms, bot, past))
    decreases |ms|
  {
    if ms == [] {
    } else {
      assert AllApart([ms[0]], bot) && AllApart(ms[1..], bot);
      MoveIsTracked(w, ms[0], bot, past);
      OldApartMove(w, ms[0], bot);
      RunIsTracked(After(w, ms[0]), ms[1..], v, bot, Grown(w, ms[0], bot, past));
    }
  }

  /** The whole orchestrator refines independent pipelines: in every run, with any number of
      bots, stops and new starts at any time, one shared, lazily pruned filter and any
      interleaving, the steps of each bot's present generation are by themselves a run of a
      pipeline with its own never-pruned filter, and lead to the state that the bot's channels,
      counters and goroutines are in; provided that the lock sections of generations left
      behind are quiet. Their guards decide that: see Quiet. */
  lemma EveryBotRunsItsPipeline(clock: int, ms: seq<Move>, w: World, bot: string)
    requires MovesTo(Empty(clock), ms, w) && AllApart(ms, bot) && AllQuiet(Empty(clock), ms, bot)
    ensures Tracks(w, bot, Project(Empty(clock), ms, bot, []))
  {
    RunIsTracked(Empty(clock), ms, w, bot, []);
  }

  // ---------------------------------------------------------------- exactly how far

  /** The bot's present generation keeps all invariants of a pipeline. */
  ghost predicate InOrder(w: World, bot: string) {
    if bot in w.threads then exists s :: Safety.Inv(s) && Sim(w, bot, s)
    else Describes(w.o, bot, NOBODY, w.clock)
  }

  lemma PipelineStep(w: World, bot: string, e: Step)
    requires InOrder(w, bot) && Possible(w, bot, e)
    ensures InOrder(Next(w, bot, e), bot)
  {
    if Starts(w, bot, e) {
      StartIsTracked(w, bot, e);
      TracksInv(Next(w, bot, e), bot, [e]);
    } else {
      var s :| Safety.Inv(s) && Sim(w, bot, s);
      OwnMove(w, bot, s, e);
      Safety.InvStep(s, e);
    }
  }

  lemma OtherKeepsOrder(w: World, bot: string, other: string, e: Step)
    requires InOrder(w, bot) && other != bot && Apart(other, bot) && Possible(w, other, e)
    ensures InOrder(Next(w, other, e), bot)
  {
    OthersDoNotMatter(w, bot, FRESH, other, e);
    if bot in w.threads {
      var s :| Safety.Inv(s) && Sim(w, bot, s);
      OthersDoNotMatter(w, bot, s, other, e);
    }
  }

  /** A harmless foreign resize gives the pipeline another empty queue. */
  lemma BehindResize(w: World, i: nat, e: Step, bot: string, s: Pipe)
    requires BehindPossible(w, i, e) && w.behind[i].bot == bot && e.ResolveOk?
    requires Safety.Inv(s) && Sim(w, bot, s) && !s.stopped && HarmlessMove(w, Behind(i, e), bot)
    ensures var t := Foreign.Resized(s, e.size); Safety.Inv(t) && Sim(BehindNext(w, i, e), bot, t)
  {
    var v, t := BehindNext(w, i, e), Foreign.Resized(s, e.size);
    Foreign.HarmlessResize(s, e.size);
    ResizeIntrudes(w.o, bot, s, w.clock, e.size);
    WholeAgain(v.o, bot, t, v.clock);
  }

  lemma BehindKeepsOrder(w: World, i: nat, e: Step, bot: string)
    requires InOrder(w, bot) && BehindPossible(w, i, e) && OldApart(w, bot) && HarmlessMove(w, Behind(i, e), bot)
    ensures InOrder(BehindNext(w, i, e), bot)
  {
    if bot in w.threads {
      var s :| Safety.Inv(s) && Sim(w, bot, s);
      if w.behind[i].bot == bot && e.ResolveOk? && !s.stopped {
        BehindResize(w, i, e, bot, s);
      } else {
        BehindKeepsSim(w, i, e, bot, s);
      }
    } else {
      BehindKeepsSim(w, i, e, bot, FRESH);
    }
  }

  lemma MoveKeepsOrder(w: World, m: Move, bot: string)
    requires InOrder(w, bot) && CanMove(w, m) && AllApart([m], bot) && OldApart(w, bot) && HarmlessMove(w, m, bot)
    ensures InOrder(After(w, m), bot)
  {
    assert m in [m];
    if m.Behind? {
      BehindKeepsOrder(w, m.i, m.e, bot);
    } else if StepOf(w, m).Some? {
      if m.bot == bot {
        PipelineStep(w, bot, StepOf(w, m).value);
      } else {
        OtherKeepsOrder(w, bot, m.bot, StepOf(w, m).value);
      }
    }
  }

  lemma {:induction false} RunKeepsOrder(w: World, ms: seq<Move>, v: World, bot: string)
    requires InOrder(w, bot) && MovesTo(w, ms, v) && AllApart(ms, bot) && OldApart(w, bot) && AllHarmless(w, ms, bot)
    ensures InOrder(v, bot)
    decreases |ms|
  {
    if ms == [] {
    } else {
      assert AllApart([ms[0]], bot) && AllApart(ms[1..], bot);
      MoveKeepsOrder(w, ms[0], bot);
      OldApartMove(w, ms[0], bot);
      RunKeepsOrder(After(w, ms[0]), ms[1..], v, bot);
    }
  }

  /** In every such run every bot's present generation keeps the invariants of a pipeline, as
      long as the lock sections of generations left behind are harmless. */
  lemma EveryBotStaysInOrder(clock: int, ms: seq<Move>, w: World, bot: string)
    requires MovesTo(Empty(clock), ms, w) && AllApart(ms, bot) && AllHarmless(Empty(clock), ms, bot)
    ensures InOrder(w, bot)
  {
    RunKeepsOrder(Empty(clock), ms, w, bot);
  }

  /** The shared state shows the keys in progress of a pipeline, because those are not pruned. */
  lemma KeysAreShared(w: World, bot: string, s: Pipe, id: string)
    requires Sim(w, bot, s)
    ensures Safety.InProgress(s, id) <==> KeyInProgress(w.o, bot, id)
  {
    PartMembership(w.o.seen, bot, id);
    assert IndexOf(w.o).seen == w.o.seen;
  }

  /** A harmful section breaks the order: no pipeline in order fits the state after it. */
  lemma HarmIsDone(w: World, i: nat, e: Step, bot: string, s: Pipe, t: Pipe)
    requires BehindPossible(w, i, e) && w.behind[i].bot == bot && bot in w.o.bots
    requires Safety.Inv(s) && Sim(w, bot, s) && !s.log.raced && !HarmlessMove(w, Behind(i, e), bot)
    requires Sim(BehindNext(w, i, e), bot, t)
    ensures !Safety.Inv(t)
  {
    var p := OldPipe(w.behind[i].threads);
    if Finishes(p, e).Some? {
      FinishHarms(w, i, e, bot, s, t);
    } else if e.AccMark? {
      assert w.o.bots[bot].active == Safety.Accepted(s);
      assert t.slice.active == Some(Safety.Accepted(s) + 1) && Safety.Accepted(t) == Safety.Accepted(s);
      assert !Safety.ActiveOk(t);
    } else {
      assert t.chans == Foreign.Resized(s, e.size).chans && t.log == s.log;
      assert t.acc == s.acc && t.starter == s.starter;
      assert !(Safety.Shape(t) && Safety.QueueOrder(t));
    }
  }

  lemma FinishHarms(w: World, i: nat, e: Step, bot: string, s: Pipe, t: Pipe)
    requires BehindPossible(w, i, e) && w.behind[i].bot == bot && bot in w.o.bots
    requires Finishes(OldPipe(w.behind[i].threads), e).Some?
    requires Safety.Inv(s) && Sim(w, bot, s) && !HarmlessMove(w, Behind(i, e), bot)
    requires Sim(BehindNext(w, i, e), bot, t)
    ensures !Safety.Inv(t)
  {
    var p, v := OldPipe(w.behind[i].threads), BehindNext(w, i, e);
    SharedFinish(w.o, bot, p, e);
    var id := Finishes(p, e).value.id;
    assert t == s.(slice := t.slice);
    if id == "" {
      assert v.o.bots[bot].active == Lower(w.o.bots[bot].active);
      assert !Safety.ActiveOk(t);
    } else {
      KeysAreShared(w, bot, s, id);
      KeysAreShared(v, bot, t, id);
      assert !KeyInProgress(v.o, bot, id);
      var m: Msg :| m.id == id && Safety.Holders(s, m) > 0;
      assert Safety.Holders(t, m) > 0 && !Safety.InProgress(t, id);
      assert !Safety.Keys(t);
    }
  }

  /** So a section of a generation left behind leaves the present one in order exactly if it is
      harmless, which its guards decide: a finish whose key is not in progress, or of a message
      without an id when nothing is active; no marking; a resize that does not replace the
      queue under a waiting accept loop or under the sender of the pending message. */
  lemma BehindIsHarmlessExactlyWhen(w: World, i: nat, e: Step, bot: string, s: Pipe)
    requires BehindPossible(w, i, e) && OldApart(w, bot) && w.behind[i].bot == bot && bot in w.o.bots
    requires Safety.Inv(s) && Sim(w, bot, s) && !s.log.raced
    ensures InOrder(BehindNext(w, i, e), bot) <==> HarmlessMove(w, Behind(i, e), bot)
  {
    if HarmlessMove(w, Behind(i, e), bot) {
      BehindKeepsOrder(w, i, e, bot);
    } else if InOrder(BehindNext(w, i, e), bot) {
      var t :| Safety.Inv(t) && Sim(BehindNext(w, i, e), bot, t);
      HarmIsDone(w, i, e, bot, s, t);
    }
  }

  // ---------------------------------------------------------------- service

  /** What the pipeline results say of a bot that runs. */
  ghost predicate Served(s: Pipe) {
    && s.slice.active == Some(Safety.Accepted(s)) && Safety.Accepted(s) <= 2
    && (!s.log.raced ==>
          && s.log.lost == multiset{}
          && s.log.turns + Safety.Passing(s.acc) + Safety.Waiting(s) == Without(s.log.admitted, s.log.failed))
  }

  lemma InOrderIsServed(s: Pipe)
    requires Safety.Inv(s) && !s.stopped
    ensures Served(s)
  {
    if !s.log.raced {
      Safety.OrderFromInv(s);
      assert s.log.turns + s.log.dropped == s.log.turns;
    }
  }

  lemma SharedStateIsServed(w: World, bot: string, s: Pipe)
    requires Sim(w, bot, s) && bot in w.o.bots && Served(s)
    ensures w.o.bots[bot].active == Safety.Accepted(s)
    ensures Served(Whole(w.o, bot, w.threads[bot], Slice(Some(w.o.bots[bot].active), map[])))
  {
    var t := Whole(w.o, bot, w.threads[bot], Slice(Some(w.o.bots[bot].active), map[]));
    assert t == s.(slice := t.slice);
  }

  /** What that gives for the real, shared state: while a bot runs, its active count is the
      number of messages between acceptance and finish, so at most two; unless an admission
      raced with its start, nothing its present generation admitted has been lost and its
      turns, the message in its accept loop and its queue are what it admitted, in order,
      minus resolver failures. */
  lemma EveryBotIsServedInOrder(clock: int, ms: seq<Move>, w: World, bot: string)
    requires MovesTo(Empty(clock), ms, w) && AllApart(ms, bot) && AllHarmless(Empty(clock), ms, bot)
    requires bot in w.o.bots
    ensures bot in w.threads
    ensures Served(Whole(w.o, bot, w.threads[bot], Slice(Some(w.o.bots[bot].active), map[])))
  {
    EveryBotStaysInOrder(clock, ms, w, bot);
    var s :| Safety.Inv(s) && Sim(w, bot, s);
    InOrderIsServed(s);
    SharedStateIsServed(w, bot, s);
  }

  // ---------------------------------------------------------------- late callers

  /** ensureWorker is never in the way: whatever entry a caller was given, it can go on. */
  lemma EnsureWorkerIsAlwaysPossible(clock: int, ms: seq<Move>, w: World, bot: string, gen: nat)
    requires MovesTo(Empty(clock), ms, w) && AllApart(ms, bot) && AllHarmless(Empty(clock), ms, bot)
    ensures CanMove(w, EnsureWorker(bot, gen))
  {
    EveryBotStaysInOrder(clock, ms, w, bot);
    InOrderInstalls(w, bot, gen);
  }

  lemma InOrderInstalls(w: World, bot: string, gen: nat)
    requires InOrder(w, bot)
    ensures CanMove(w, EnsureWorker(bot, gen))
  {
    if MayInstall(w.o, bot, gen) {
      var s :| Safety.Inv(s) && Sim(w, bot, s);
      InstallIsPossible(w, bot, gen, s);
    } else {
      assert StepOf(w, EnsureWorker(bot, gen)).None?;
    }
  }

  lemma InstallIsPossible(w: World, bot: string, gen: nat, s: Pipe)
    requires Sim(w, bot, s) && MayInstall(w.o, bot, gen)
    ensures CanMove(w, EnsureWorker(bot, gen))
  {
    var p := Whole(w.o, bot, w.threads[bot], EMPTY_SLICE);
    assert p == s.(slice := EMPTY_SLICE);
    assert Enabled(p, Install);
    assert ThreadsFor(w, bot, Install) == w.threads[bot];
  }

  /** Entry gen of the bot is gone for good. */
  predicate Retired(o: Shared, bot: string, gen: nat) {
    gen < o.nextGen && (bot in o.bots ==> o.bots[bot].gen != gen)
  }

  predicate GensOk(o: Shared) {
    forall b | b in o.bots :: o.bots[b].gen < o.nextGen
  }

  lemma GensStep(o: Shared, bot: string, gen: nat, other: string, s: Pipe, e: Step)
    requires Enabled(s, e)
    ensures GensOk(o) ==> GensOk(SharedStep(o, other, s, e))
    ensures Retired(o, bot, gen) ==> Retired(SharedStep(o, other, s, e), bot, gen)
  {
  }

  lemma GensIntrude(o: Shared, bot: string, gen: nat, other: string, s: Pipe, e: Step)
    requires Enabled(s, e)
    ensures GensOk(o) ==> GensOk(Intrudes(o, other, s, e))
    ensures Retired(o, bot, gen) ==> Retired(Intrudes(o, other, s, e), bot, gen)
  {
  }

  lemma {:induction false} GensRun(w: World, ms: seq<Move>, v: World, bot: string, gen: nat)
    requires MovesTo(w, ms, v)
    ensures GensOk(w.o) ==> GensOk(v.o)
    ensures Retired(w.o, bot, gen) ==> Retired(v.o, bot, gen)
    decreases |ms|
  {
    if ms == [] {
    } else {
      var m := ms[0];
      if m.Behind? {
        GensIntrude(w.o, bot, gen, w.behind[m.i].bot, OldPipe(w.behind[m.i].threads), m.e);
      } else if StepOf(w, m).Some? {
        var e := StepOf(w, m).value;
        GensStep(w.o, bot, gen, m.bot, Whole(w.o, m.bot, ThreadsFor(w, m.bot, e), EMPTY_SLICE), e);
      }
      GensRun(After(w, m), ms[1..], v, bot, gen);
    }
  }

  /** A caller that was given an entry before the bot was stopped never starts a worker, not
      even when the bot has been started again and waits for one: the check of the entry in
      ensureWorker tells the two apart. */
  lemma LateCallersStartNothing(clock: int, ms: seq<Move>, w: World, bot: string, rest: seq<Move>, v: World)
    requires MovesTo(Empty(clock), ms, w) && bot in w.o.bots
    requires CanMove(w, Do(bot, StopBot)) && MovesTo(After(w, Do(bot, StopBot)), rest, v)
    ensures var late := EnsureWorker(bot, w.o.bots[bot].gen);
            CanMove(v, late) && After(v, late) == v
  {
    var gen := w.o.bots[bot].gen;
    GensRun(Empty(clock), ms, w, bot, gen);
    GensRun(After(w, Do(bot, StopBot)), rest, v, bot, gen);
  }
}
