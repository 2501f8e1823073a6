/** BotConnectionManager: the reservation with which Start keeps a second runtime from being
    started for a bot, under every interleaving of Start calls and runtime state events. */
module ConnectionManager {
  import opened Common

  /** The handle table: a bot that is being started has an entry without a handle. */
  type Handles = map<string, Option<nat>>

  // ---------------------------------------------------------------- critical sections

  predicate Reserved(h: Handles, bot: string) {
    bot in h && h[bot].None?
  }

  function ReserveSpec(h: Handles, bot: string): Handles {
    if bot in h then h else h[bot := None]
  }

  function InstallSpec(h: Handles, bot: string, handle: nat): Handles {
    if Reserved(h, bot) then h[bot := Some(handle)] else h
  }

  /** The deferred clean-up of a Start that did not install its handle. */
  function CleanupSpec(h: Handles, bot: string): Handles {
    if Reserved(h, bot) then h - {bot} else h
  }

  class BotConnectionManager {
    var handles: Handles

    constructor ()
      ensures handles == map[]
    {
      handles := map[];
    }

    method Reserve(bot: string) returns (alreadyStarted: bool)
      modifies this
      ensures alreadyStarted == (bot in old(handles)) && handles == ReserveSpec(old(handles), bot)
    {
      if bot in handles {
        return true;
      }
      handles := handles[bot := None];
      return false;
    }

    method Install(bot: string, handle: nat) returns (alreadyStarted: bool)
      modifies this
      ensures alreadyStarted == !Reserved(old(handles), bot) && handles == InstallSpec(old(handles), bot, handle)
    {
      if bot !in handles {
        return true;
      } else if handles[bot] != None {
        return true;
      }
      handles := handles[bot := Some(handle)];
      return false;
    }

    method Cleanup(bot: string)
      modifies this
      ensures handles == CleanupSpec(old(handles), bot)
    {
      if bot in handles && handles[bot] == None {
        handles := handles - {bot};
      }
    }

    /** The effect of a state event: the bot has no entry any more, reserved or installed, and
        no other bot's entry is touched. */
    method Remove(bot: string, ghost w: World)
      requires handles == w.handles
      modifies this
      ensures handles == Apply(w, StateEvent(bot)).handles
      ensures bot !in handles && forall b | b != bot :: b in handles <==> b in old(handles)
      ensures forall b | b in handles :: handles[b] == old(handles)[b]
    {
      handles := handles - {bot};
    }
  }

  // ---------------------------------------------------------------- all interleavings

  /** Where one call of Start is. Handles are numbered in the order StartRuntime made them. */
  datatype Call =
    | NoCall
    | Starting(bot: string)               // looking things up, then StartRuntime
    | Started(bot: string, handle: nat)   // StartRuntime has returned a handle
    | Stopping(bot: string, handle: nat)  // could not be installed
    | CleaningUp(bot: string)

  datatype World = World(
    handles: Handles,
    owners: seq<string>,      // the bot each handle was made for
    installed: set<nat>,      // handles ever installed
    stopped: set<nat>,        // handles Start has stopped
    calls: map<nat, Call>,
    disturbed: set<string>)   // bots whose reservation a state event has removed, until no call works on them

  const FRESH := World(map[], [], {}, {}, map[], {})

  datatype Step =
    | Begin(c: nat, bot: string)
    | Fail(c: nat)
    | RuntimeStarted(c: nat)
    | TryInstall(c: nat)
    | StopHandle(c: nat)
    | Finish(c: nat)
    | StateEvent(bot: string)   // error or stopped

  function CallOf(w: World, c: nat): Call {
    if c in w.calls then w.calls[c] else NoCall
  }

  predicate Enabled(w: World, e: Step) {
    match e
    case Begin(c, _) => CallOf(w, c).NoCall?
    case Fail(c) => CallOf(w, c).Starting?
    case RuntimeStarted(c) => CallOf(w, c).Starting?
    case TryInstall(c) => CallOf(w, c).Started?
    case StopHandle(c) => CallOf(w, c).Stopping?
    case Finish(c) => CallOf(w, c).CleaningUp?
    case StateEvent(_) => true
  }

  /** The call works on a start of bot that has not been installed. */
  predicate WorksOn(p: Call, bot: string) {
    !p.NoCall? && p.bot == bot
  }

  predicate UnderWay(w: World, bot: string) {
    exists c | c in w.calls :: WorksOn(w.calls[c], bot)
  }

  /** Once no call works on the bot any more, the disturbance is over. */
  function Settled(w: World): World {
    w.(disturbed := set b | b in w.disturbed && UnderWay(w, b))
  }

  function Apply(w: World, e: Step): World
    requires Enabled(w, e)
  {
    Settled(Act(w, e))
  }

  function Act(w: World, e: Step): World
    requires Enabled(w, e)
  {
    match e
    case Begin(c, bot) =>
      if bot in w.handles then w
      else w.(handles := ReserveSpec(w.handles, bot), calls := w.calls[c := Starting(bot)])
    case Fail(c) => w.(calls := w.calls[c := CleaningUp(w.calls[c].bot)])
    case RuntimeStarted(c) =>
      w.(owners := w.owners + [w.calls[c].bot], calls := w.calls[c := Started(w.calls[c].bot, |w.owners|)])
    case TryInstall(c) =>
      var Started(bot, handle) := w.calls[c];
      if Reserved(w.handles, bot)
      then w.(handles := InstallSpec(w.handles, bot, handle), installed := w.installed + {handle}, calls := w.calls[c := NoCall])
      else w.(calls := w.calls[c := Stopping(bot, handle)])
    case StopHandle(c) =>
      w.(stopped := w.stopped + {w.calls[c].handle}, calls := w.calls[c := CleaningUp(w.calls[c].bot)])
    case Finish(c) => w.(handles := CleanupSpec(w.handles, w.calls[c].bot), calls := w.calls[c := NoCall])
    case StateEvent(bot) =>
      w.(handles := w.handles - {bot}, disturbed := if Reserved(w.handles, bot) then w.disturbed + {bot} else w.disturbed)
  }

  ghost predicate Reaches(w: World, es: seq<Step>, v: World)
    decreases |es|
  {
    if es == [] then w == v else Enabled(w, es[0]) && Reaches(Apply(w, es[0]), es[1..], v)
  }

  // ---------------------------------------------------------------- invariant

  predicate InHand(p: Call, h: nat) {
    (p.Started? || p.Stopping?) && p.handle == h
  }

  ghost predicate Kept(w: World, h: nat) {
    h in w.installed || h in w.stopped || exists c: nat :: InHand(CallOf(w, c), h)
  }

  /** A call that has a handle in hand works for the bot the handle was made for. */
  ghost predicate Owns(w: World, c: nat) {
    var p := CallOf(w, c);
    p.Started? || p.Stopping? ==> p.handle < |w.owners| && w.owners[p.handle] == p.bot
  }

  /** Of the starts of b at most one is under way, and b's entry is reserved for it. */
  ghost predicate AtMostOne(w: World, b: string) {
    && (forall c: nat | WorksOn(CallOf(w, c), b) :: Reserved(w.handles, b) && !CallOf(w, c).Stopping?)
    && (forall c: nat, d: nat | WorksOn(CallOf(w, c), b) && WorksOn(CallOf(w, d), b) :: c == d)
  }

  ghost predicate Inv(w: World) {
    && (forall h: nat | h < |w.owners| :: Kept(w, h))
    && (forall b | b in w.handles && w.handles[b].Some? ::
          w.handles[b].value < |w.owners| && w.owners[w.handles[b].value] == b && w.handles[b].value in w.installed)
    && (forall c: nat :: Owns(w, c))
    && (forall b: string | b !in w.disturbed :: AtMostOne(w, b))
  }

  lemma KeptStep(w: World, e: Step, h: nat)
    requires Inv(w) && Enabled(w, e) && h < |Apply(w, e).owners|
    ensures Kept(Apply(w, e), h)
  {
    var v := Apply(w, e);
    if h == |w.owners| {
      assert InHand(CallOf(v, e.c), h);
    } else {
      assert Kept(w, h);
      if h !in w.installed && h !in w.stopped {
        var c: nat :| InHand(CallOf(w, c), h);
        assert InHand(CallOf(v, c), h) || h in v.installed || h in v.stopped;
      }
    }
  }

  lemma CallsStep(w: World, e: Step, c: nat)
    requires Enabled(w, e)
    ensures (e.StateEvent? || c != e.c) ==> CallOf(Apply(w, e), c) == CallOf(w, c)
  {
  }

  lemma AtMostOneStep(w: World, e: Step, b: string)
    requires Enabled(w, e) && AtMostOne(w, b)
    requires e == StateEvent(b) ==> !Reserved(w.handles, b)
    ensures AtMostOne(Apply(w, e), b)
  {
    var v := Apply(w, e);
    forall c: nat
      ensures (e.StateEvent? || c != e.c) ==> CallOf(v, c) == CallOf(w, c)
    {
      CallsStep(w, e, c);
    }
    if !e.StateEvent? && WorksOn(CallOf(w, e.c), b) {
      assert Reserved(w.handles, b) && forall c: nat | c != e.c :: !WorksOn(CallOf(w, c), b);
    } else if !e.StateEvent? && !WorksOn(CallOf(v, e.c), b) {
      assert b in w.handles ==> b in v.handles && v.handles[b] == w.handles[b];
    }
  }

  lemma IdleIsInOrder(w: World, b: string)
    requires !UnderWay(w, b)
    ensures AtMostOne(w, b)
  {
    forall c: nat
      ensures !WorksOn(CallOf(w, c), b)
    {
      if c in w.calls {
        assert !WorksOn(w.calls[c], b);
      }
    }
  }

  lemma InvStep(w: World, e: Step)
    requires Inv(w) && Enabled(w, e)
    ensures Inv(Apply(w, e))
  {
    var v := Apply(w, e);
    forall h: nat | h < |v.owners|
      ensures Kept(v, h)
    {
      KeptStep(w, e, h);
    }
    if e.TryInstall? {
      assert Owns(w, e.c);
    }
    forall b: string | b !in v.disturbed
      ensures AtMostOne(v, b)
    {
      if UnderWay(v, b) {
        AtMostOneStep(w, e, b);
      } else {
        IdleIsInOrder(v, b);
      }
    }
    forall c: nat
      ensures Owns(v, c)
    {
      assert Owns(w, c);
      CallsStep(w, e, c);
    }
  }

  lemma InvFresh()
    ensures Inv(FRESH)
  {
    assert forall c: nat :: CallOf(FRESH, c) == NoCall;
  }

  lemma {:induction false} InvRun(w: World, es: seq<Step>, v: World)
    requires Inv(w) && Reaches(w, es, v)
    ensures Inv(v)
    decreases |es|
  {
    if es == [] {
    } else {
      InvStep(w, es[0]);
      InvRun(Apply(w, es[0]), es[1..], v);
    }
  }

  // ---------------------------------------------------------------- main results

  /** An installed handle stays until a state event for its bot: no Start overwrites it, and
      no clean-up of a failed Start removes it. */
  lemma InstalledHandlesStay(w: World, e: Step, bot: string)
    requires Enabled(w, e) && bot in w.handles && w.handles[bot].Some?
    ensures e != StateEvent(bot) ==> bot in Apply(w, e).handles && Apply(w, e).handles[bot] == w.handles[bot]
  {
  }

  /** Every handle that StartRuntime returned has been installed or stopped, or a Start call
      still has it in hand and has nothing else to do than install or stop it. */
  lemma NoHandleIsLeaked(es: seq<Step>, w: World)
    requires Reaches(FRESH, es, w)
    ensures forall h: nat | h < |w.owners| :: Kept(w, h)
    ensures (forall c: nat :: CallOf(w, c).NoCall?) ==> forall h: nat | h < |w.owners| :: h in w.installed || h in w.stopped
    ensures forall b | b in w.handles && w.handles[b].Some? :: w.handles[b].value < |w.owners| && w.owners[w.handles[b].value] == b
  {
    InvFresh();
    InvRun(FRESH, es, w);
    if forall c: nat :: CallOf(w, c).NoCall? {
      forall h: nat | h < |w.owners|
        ensures h in w.installed || h in w.stopped
      {
        assert Kept(w, h);
      }
    }
  }

  /** A step lets go of the reservation of a start that is under way exactly if it is a state
      event for that bot. */
  lemma ReservationIsLostExactlyWhen(w: World, e: Step, bot: string)
    requires Enabled(w, e) && AtMostOne(w, bot)
    ensures AtMostOne(Apply(w, e), bot) <==> !(e == StateEvent(bot) && UnderWay(w, bot))
  {
    if e != StateEvent(bot) {
      AtMostOneStep(w, e, bot);
    } else if UnderWay(w, bot) {
      var c :| c in w.calls && WorksOn(w.calls[c], bot);
      assert WorksOn(CallOf(Apply(w, e), c), bot);
    } else {
      assert forall c: nat :: !WorksOn(CallOf(w, c), bot);
    }
  }

  /** Unless a state event has removed the bot's reservation, and since then calls of Start
      have been at work on the bot all the time, at most one start of the bot is under way,
      its entry is reserved all the while, and every handle it gets is installed. Events for
      an installed runtime do no harm, and a disturbed start does none to those after it. */
  lemma OneStartAtATime(es: seq<Step>, w: World, bot: string)
    requires Reaches(FRESH, es, w) && bot !in w.disturbed
    ensures forall c: nat, d: nat | WorksOn(CallOf(w, c), bot) && WorksOn(CallOf(w, d), bot) :: c == d
    ensures forall c: nat | WorksOn(CallOf(w, c), bot) :: Reserved(w.handles, bot)
    ensures forall c: nat | CallOf(w, c).Started? && CallOf(w, c).bot == bot ::
              var h := Apply(w, TryInstall(c)).handles;
              bot in h && h[bot] == Some(CallOf(w, c).handle)
  {
    InvFresh();
    InvRun(FRESH, es, w);
    assert AtMostOne(w, bot);
    forall c: nat | CallOf(w, c).Started? && CallOf(w, c).bot == bot
      ensures Reserved(w.handles, bot)
    {
      assert WorksOn(CallOf(w, c), bot);
    }
  }

  /** Such an event always lets a second start in: whoever calls Start next makes a second
      reservation while the first StartRuntime still runs. */
  lemma DisturbedStartIsDoubled(w: World, c: nat, d: nat, bot: string)
    requires CallOf(w, c) == Starting(bot) && CallOf(w, d).NoCall?
    ensures var v := Apply(Apply(w, StateEvent(bot)), Begin(d, bot));
            CallOf(v, c) == Starting(bot) && CallOf(v, d) == Starting(bot)
  {
    assert bot !in Apply(w, StateEvent(bot)).handles;
  }

  /** An example from the start. */
  lemma StateEventLetsASecondStartIn(bot: string)
    ensures exists es, w :: Reaches(FRESH, es, w) && CallOf(w, 0) == Starting(bot) && CallOf(w, 1) == Starting(bot)
  {
    var w1 := Apply(FRESH, Begin(0, bot));
    var w2 := Apply(w1, StateEvent(bot));
    var w3 := Apply(w2, Begin(1, bot));
    assert bot !in w2.handles;
    var es := [Begin(0, bot), StateEvent(bot), Begin(1, bot)];
    assert es[2..][1..] == [] && Reaches(w3, [], w3) && Reaches(w2, es[2..], w3);
    assert es[1..][1..] == es[2..] && Reaches(w1, es[1..], w3);
    assert Reaches(FRESH, es, w3);
    assert CallOf(w3, 0) == Starting(bot) && CallOf(w3, 1) == Starting(bot);
  }
}
