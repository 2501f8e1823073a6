/** One bot's message pipeline, from its first admission to the exit of its two goroutines:
    the pending slot, the resizable queue, the accept loop, the unbuffered hand-off, the
    deliver loop and StopBot. Every step is one critical section, one channel operation or
    one call to the outside; steps of different goroutines interleave freely. */
module Pipeline {
  import opened Common
  import opened Dedup

  datatype Msg = Msg(id: string, text: string)

  const DEFAULT_QUEUE_SIZE: nat := 1

  // ---------------------------------------------------------------- channels of one bot

  datatype Chan = Chan(cap: nat, items: seq<Msg>)

  /** The channels ever made for worker.queue, oldest first; the last one is worker.queue.
      No channel means that the worker does not exist yet. */
  type Chans = seq<Chan>

  predicate HasWorker(chans: Chans) {
    |chans| > 0
  }

  function Current(chans: Chans): Chan
    requires HasWorker(chans)
  {
    chans[|chans| - 1]
  }

  function Queued(chans: Chans): seq<Msg> {
    if HasWorker(chans) then Current(chans).items else []
  }

  predicate HasRoom(chans: Chans) {
    HasWorker(chans) ==> |Current(chans).items| < Current(chans).cap
  }

  function Push(chans: Chans, ch: nat, m: Msg): Chans
    requires ch < |chans|
  {
    chans[ch := chans[ch].(items := chans[ch].items + [m])]
  }

  function QueueSize(size: int): nat {
    if size <= 0 then DEFAULT_QUEUE_SIZE else size
  }

  /** resizeWorkerQueue replaces the queue only while it is empty. */
  function Resize(chans: Chans, size: nat): Chans {
    if !HasWorker(chans) || Current(chans).cap == size || |Current(chans).items| > 0 then chans
    else chans + [Chan(size, [])]
  }

  // ---------------------------------------------------------------- state

  /** A message with the progress session it carries, on its way to the deliver loop. */
  datatype Item = Item(msg: Msg, sess: Option<nat>)

  /** The goroutine that runs ensureWorker, between installing the worker and having sent
      the pending message; it evaluates worker.queue before it sends. */
  datatype Starter = Away | Evaluating(m: Msg) | Sending(ch: nat, m: Msg)

  datatype Accept =
    | AccAbsent
    | AccTop
    | AccSelect(ch: nat)
    | AccGot(m: Msg)
    | AccMarked(m: Msg)
    | AccFailing(m: Msg)
    | AccHolding(item: Item)
    | AccStopping(item: Item)
    | AccFinishing(m: Msg)
    | AccExit

  datatype Deliver =
    | DelAbsent
    | DelSelect
    | DelRunning(item: Item)
    | DelReturned(item: Item, ok: bool)
    | DelFinishing(m: Msg, ok: bool)
    | DelExit

  /** What has happened so far; nothing in the pipeline reads it. */
  datatype Log = Log(
    admitted: seq<Msg>,       // in admission order
    taken: seq<Msg>,          // in the order the accept loop received them
    failed: set<nat>,         // positions in taken whose spec could not be resolved
    turns: seq<Msg>,          // in the order executor.Send was called
    dropped: seq<Msg>,        // given up by the accept loop because of StopBot
    finished: multiset<Msg>,
    lost: multiset<Msg>,      // overwritten in the pending slot
    raced: bool,              // a second admission came before the pending message was queued
    carried: seq<nat>,        // progress sessions that were attached to an item
    finalised: seq<nat>)      // progress sessions that received Done or Fail

  datatype Pipe = Pipe(
    // shared, under the orchestrator's mutex
    slice: Slice,
    chans: Chans,
    pending: Option<Msg>,
    stopped: bool,
    // goroutines
    starter: Starter,
    acc: Accept,
    del: Deliver,
    log: Log)

  /** The state right after admitMessage created the bot's entry. */
  const FRESH := Pipe(Slice(Some(0), map[]), [], None, false, Away, AccAbsent, DelAbsent,
                      Log([], [], {}, [], [], multiset{}, multiset{}, false, [], []))

  datatype Step =
    | AdmitMsg(m: Msg, now: int)
    | Install
    | StarterEval
    | StarterSend
    | AccEnter
    | AccReceive
    | AccStopped
    | AccMark
    | ResolveFail
    | FailFinish(now: int)
    | ResolveOk(size: int, sess: Option<nat>)
    | Handoff
    | AccAbort
    | AccFinalise
    | AccFinish(now: int)
    | DelStopped
    | SendReturn(ok: bool)
    | DelFinalise
    | DelFinish(now: int)
    | StopBot

  predicate Enabled(s: Pipe, e: Step) {
    match e
    case AdmitMsg(_, _) => !s.stopped
    case Install => !s.stopped && !HasWorker(s.chans) && s.pending.Some?
    case StarterEval => s.starter.Evaluating? && HasWorker(s.chans)
    case StarterSend => s.starter.Sending? && s.starter.ch < |s.chans| &&
                        |s.chans[s.starter.ch].items| < s.chans[s.starter.ch].cap
    case AccEnter => s.acc.AccTop? && HasWorker(s.chans)
    case AccReceive => s.acc.AccSelect? && s.acc.ch < |s.chans| && s.chans[s.acc.ch].items != []
    case AccStopped => s.acc.AccSelect? && s.stopped
    case AccMark => s.acc.AccGot?
    case ResolveFail => s.acc.AccMarked?
    case FailFinish(_) => s.acc.AccFailing?
    case ResolveOk(_, _) => s.acc.AccMarked?
    case Handoff => s.acc.AccHolding? && s.del.DelSelect?
    case AccAbort => s.acc.AccHolding? && s.stopped
    case AccFinalise => s.acc.AccStopping?
    case AccFinish(_) => s.acc.AccFinishing?
    case DelStopped => s.del.DelSelect? && s.stopped
    case SendReturn(_) => s.del.DelRunning?
    case DelFinalise => s.del.DelReturned?
    case DelFinish(_) => s.del.DelFinishing?
    case StopBot => !s.stopped
  }

  /** admitMessage takes the message. */
  predicate Accepts(s: Pipe, m: Msg, now: int) {
    Decide(Lookup(s.slice.seen, m.id), m.id, HasRoom(s.chans), now).Admitted?
  }

  /** admitMessage for this bot: the duplicate filter decides, then the message goes to the
      pending slot (no worker yet) or to the queue. */
  function ApplyAdmit(s: Pipe, m: Msg, now: int): Pipe {
    var slice := SliceStep(s.slice, Admit("", m.id, HasRoom(s.chans), now)).0;
    if !Accepts(s, m, now) then s.(slice := slice)
    else if !HasWorker(s.chans) then s.(slice := slice, pending := Some(m), log := AdmitLog(s, m))
    else s.(slice := slice, chans := Push(s.chans, |s.chans| - 1, m), log := AdmitLog(s, m))
  }

  /** The log after m has been taken. */
  function AdmitLog(s: Pipe, m: Msg): Log {
    if HasWorker(s.chans)
    then s.log.(admitted := s.log.admitted + [m], raced := s.log.raced || !s.starter.Away?)
    else s.log.(admitted := s.log.admitted + [m], lost := s.log.lost + AsMultiset(s.pending),
                raced := s.log.raced || s.pending.Some?)
  }

  /** The message taken last has failed. */
  function FailLast(log: Log): Log {
    if log.taken == [] then log else log.(failed := log.failed + {|log.taken| - 1})
  }

  function ApplyFinish(s: Pipe, m: Msg, ok: bool, now: int): Pipe {
    s.(slice := SliceStep(s.slice, Finish("", m.id, ok, now)).0,
       log := s.log.(finished := s.log.finished + multiset{m}))
  }

  function Apply(s: Pipe, e: Step): Pipe
    requires Enabled(s, e)
  {
    match e
    case AdmitMsg(m, now) => ApplyAdmit(s, m, now)
    case Install =>
      s.(chans := [Chan(DEFAULT_QUEUE_SIZE, [])], pending := None, starter := Evaluating(s.pending.value),
         acc := AccTop, del := DelSelect)
    case StarterEval => s.(starter := Sending(|s.chans| - 1, s.starter.m))
    case StarterSend => s.(starter := Away, chans := Push(s.chans, s.starter.ch, s.starter.m))
    case AccEnter => s.(acc := AccSelect(|s.chans| - 1))
    case AccReceive =>
      var c := s.chans[s.acc.ch];
      s.(acc := AccGot(c.items[0]), chans := s.chans[s.acc.ch := c.(items := c.items[1..])],
         log := s.log.(taken := s.log.taken + [c.items[0]]))
    case AccStopped => s.(acc := AccExit)
    case AccMark => s.(acc := AccMarked(s.acc.m), slice := SliceStep(s.slice, MarkStarted("")).0)
    case ResolveFail =>
      s.(acc := AccFailing(s.acc.m), log := FailLast(s.log))
    case FailFinish(now) => ApplyFinish(s, s.acc.m, false, now).(acc := AccTop)
    case ResolveOk(size, sess) =>
      s.(acc := AccHolding(Item(s.acc.m, sess)), log := s.log.(carried := s.log.carried + AsSeq(sess)),
         chans := if s.stopped then s.chans else Resize(s.chans, QueueSize(size)))
    case Handoff =>
      s.(acc := AccTop, del := DelRunning(s.acc.item), log := s.log.(turns := s.log.turns + [s.acc.item.msg]))
    case AccAbort =>
      s.(acc := AccStopping(s.acc.item), log := s.log.(dropped := s.log.dropped + [s.acc.item.msg]))
    case AccFinalise =>
      s.(acc := AccFinishing(s.acc.item.msg),
         log := s.log.(finalised := s.log.finalised + AsSeq(s.acc.item.sess)))
    case AccFinish(now) => ApplyFinish(s, s.acc.m, false, now).(acc := AccExit)
    case DelStopped => s.(del := DelExit)
    case SendReturn(ok) => s.(del := DelReturned(s.del.item, ok))
    case DelFinalise =>
      s.(del := DelFinishing(s.del.item.msg, s.del.ok),
         log := s.log.(finalised := s.log.finalised + AsSeq(s.del.item.sess)))
    case DelFinish(now) => ApplyFinish(s, s.del.m, s.del.ok, now).(del := DelSelect)
    case StopBot => s.(stopped := true, slice := SliceStep(s.slice, Stop("")).0)
  }

  /** es is a run from s to t. */
  ghost predicate Reaches(s: Pipe, es: seq<Step>, t: Pipe)
    decreases |es|
  {
    if es == [] then s == t else Enabled(s, es[0]) && Reaches(Apply(s, es[0]), es[1..], t)
  }

  // ---------------------------------------------------------------- where a message is

  function HeldByStarter(st: Starter): Option<Msg> {
    match st
    case Away => None
    case Evaluating(m) => Some(m)
    case Sending(_, m) => Some(m)
  }

  function HeldByAccept(a: Accept): Option<Msg> {
    match a
    case AccGot(m) => Some(m)
    case AccMarked(m) => Some(m)
    case AccFailing(m) => Some(m)
    case AccHolding(item) => Some(item.msg)
    case AccStopping(item) => Some(item.msg)
    case AccFinishing(m) => Some(m)
    case _ => None
  }

  function HeldByDeliver(d: Deliver): Option<Msg> {
    match d
    case DelRunning(item) => Some(item.msg)
    case DelReturned(item, _) => Some(item.msg)
    case DelFinishing(m, _) => Some(m)
    case _ => None
  }

  function InChans(chans: Chans): multiset<Msg>
    decreases |chans|
  {
    if chans == [] then multiset{} else multiset(chans[0].items) + InChans(chans[1..])
  }

  function One(o: Option<Msg>, m: Msg): nat {
    if o == Some(m) then 1 else 0
  }

  /** How many copies of m are admitted, not finished and not lost. */
  function Copies(s: Pipe, m: Msg): nat {
    One(s.pending, m) + One(HeldByStarter(s.starter), m) + InChans(s.chans)[m]
    + One(HeldByAccept(s.acc), m) + One(HeldByDeliver(s.del), m)
  }

  lemma {:induction false} InChansUpdate(chans: Chans, i: nat, c: Chan, m: Msg)
    requires i < |chans|
    ensures InChans(chans[i := c])[m] + multiset(chans[i].items)[m] == InChans(chans)[m] + multiset(c.items)[m]
    decreases |chans|
  {
    var rest, upd := chans[1..], chans[i := c];
    if i == 0 {
      assert upd[0] == c && upd[1..] == rest;
    } else {
      assert upd[0] == chans[0] && upd[1..] == rest[i - 1 := c] && rest[i - 1] == chans[i];
      InChansUpdate(rest, i - 1, c, m);
    }
  }

  lemma {:induction false} InChansAppendEmpty(chans: Chans, cap: nat)
    ensures InChans(chans + [Chan(cap, [])]) == InChans(chans)
    decreases |chans|
  {
    var more := chans + [Chan(cap, [])];
    if chans == [] {
      assert more[1..] == [];
    } else {
      assert more[0] == chans[0] && more[1..] == chans[1..] + [Chan(cap, [])];
      InChansAppendEmpty(chans[1..], cap);
    }
  }

  lemma PushAccounting(chans: Chans, ch: nat, x: Msg, m: Msg)
    requires ch < |chans|
    ensures InChans(Push(chans, ch, x))[m] == InChans(chans)[m] + One(Some(x), m)
  {
    InChansUpdate(chans, ch, chans[ch].(items := chans[ch].items + [x]), m);
  }

  lemma PopAccounting(chans: Chans, ch: nat, m: Msg)
    requires ch < |chans| && chans[ch].items != []
    ensures InChans(chans[ch := chans[ch].(items := chans[ch].items[1..])])[m] + One(Some(chans[ch].items[0]), m)
         == InChans(chans)[m]
  {
    var c := chans[ch];
    assert c.items == [c.items[0]] + c.items[1..];
    InChansUpdate(chans, ch, c.(items := c.items[1..]), m);
  }

  /** The message a step finishes, if any. */
  function Finishes(s: Pipe, e: Step): Option<Msg>
    requires Enabled(s, e)
  {
    match e
    case FailFinish(_) => Some(s.acc.m)
    case AccFinish(_) => Some(s.acc.m)
    case DelFinish(_) => Some(s.del.m)
    case _ => None
  }

  /** The message a step admits, if any. */
  function Admits(s: Pipe, e: Step): Option<Msg> {
    if e.AdmitMsg? && Accepts(s, e.m, e.now) then Some(e.m) else None
  }

  /** The message that an admission pushes out of the pending slot, if any. */
  function Overwrites(s: Pipe, e: Step): Option<Msg> {
    if Admits(s, e).Some? && !HasWorker(s.chans) then s.pending else None
  }

  lemma AdmitAccounting(s: Pipe, x: Msg, now: int, m: Msg)
    requires Accepts(s, x, now)
    ensures var t := ApplyAdmit(s, x, now);
            Copies(t, m) + (if HasWorker(s.chans) then 0 else One(s.pending, m)) == Copies(s, m) + One(Some(x), m)
  {
    if HasWorker(s.chans) {
      PushAccounting(s.chans, |s.chans| - 1, x, m);
    }
  }

  /** Finishing a message takes it from the goroutine that held it and from nowhere else. */
  lemma FinishAccounting(s: Pipe, e: Step, m: Msg)
    requires Enabled(s, e) && Finishes(s, e).Some?
    ensures Copies(Apply(s, e), m) + One(Finishes(s, e), m) == Copies(s, m)
    ensures Apply(s, e).log == s.log.(finished := s.log.finished + multiset{Finishes(s, e).value})
  {
  }

  predicate TouchesQueue(e: Step) {
    e.Install? || e.StarterSend? || e.AccReceive? || e.ResolveOk?
  }

  lemma QueueAccounting(s: Pipe, e: Step, m: Msg)
    requires Enabled(s, e) && TouchesQueue(e)
    requires e.Install? ==> s.starter.Away? && s.acc.AccAbsent? && s.del.DelAbsent?
    ensures Copies(Apply(s, e), m) == Copies(s, m)
  {
    match e {
      case Install => InstallAccounting(s, m);
      case StarterSend => PushAccounting(s.chans, s.starter.ch, s.starter.m, m);
      case AccReceive => PopAccounting(s.chans, s.acc.ch, m);
      case ResolveOk(size, _) => InChansAppendEmpty(s.chans, QueueSize(size));
    }
  }

  lemma InstallAccounting(s: Pipe, m: Msg)
    requires Enabled(s, Install) && s.starter.Away? && s.acc.AccAbsent? && s.del.DelAbsent?
    ensures Copies(Apply(s, Install), m) == Copies(s, m)
  {
    var c := Chan(DEFAULT_QUEUE_SIZE, []);
    assert s.chans == [] && [c][1..] == [];
    assert InChans([c]) == multiset(c.items) + InChans([]);
  }

  lemma QueueStepsOnlyMove(s: Pipe, e: Step)
    requires Enabled(s, e) && TouchesQueue(e)
    ensures Apply(s, e).log.finished == s.log.finished && Apply(s, e).log.lost == s.log.lost
    ensures Apply(s, e).log.admitted == s.log.admitted
  {
  }

  /** The remaining steps only move a goroutine on. */
  lemma LocalAccounting(s: Pipe, e: Step, m: Msg)
    requires Enabled(s, e) && !TouchesQueue(e) && !e.AdmitMsg? && Finishes(s, e).None?
    ensures Copies(Apply(s, e), m) == Copies(s, m)
    ensures Apply(s, e).log.finished == s.log.finished && Apply(s, e).log.lost == s.log.lost
    ensures Apply(s, e).log.admitted == s.log.admitted
  {
  }

  /** Every step moves messages between places; only admissions add one, only finishes and
      overwritten pending slots take one away. */
  lemma StepAccounting(s: Pipe, e: Step, m: Msg)
    requires Enabled(s, e)
    requires e.Install? ==> s.starter.Away? && s.acc.AccAbsent? && s.del.DelAbsent?
    ensures var t := Apply(s, e);
            && Copies(t, m) + One(Finishes(s, e), m) + One(Overwrites(s, e), m) == Copies(s, m) + One(Admits(s, e), m)
            && t.log.finished[m] == s.log.finished[m] + One(Finishes(s, e), m)
            && t.log.lost[m] == s.log.lost[m] + One(Overwrites(s, e), m)
            && t.log.admitted == s.log.admitted + AsSeq(Admits(s, e))
  {
    if TouchesQueue(e) {
      QueueAccounting(s, e, m);
      QueueStepsOnlyMove(s, e);
    } else if e.AdmitMsg? {
      if Accepts(s, e.m, e.now) {
        AdmitAccounting(s, e.m, e.now, m);
      }
    } else if Finishes(s, e).Some? {
      FinishAccounting(s, e, m);
    } else {
      LocalAccounting(s, e, m);
    }
  }
}
