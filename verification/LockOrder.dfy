/** The mutexes of the agent manager and its sessions. Every operation is a list of parts, and
    every part a list of lock actions; goroutines run any such lists, interleaved in any way. */
module LockOrder {
  import opened Common

  /** Manager.mu; a session's turn mutex, held while a turn runs; a session's scheduler mutex. */
  datatype Lock = Mgr | Turn(s: nat) | Sched(s: nat)

  datatype Action = Acquire(l: Lock) | Release(l: Lock) | TryOrStop(l: Lock)

  type Program = seq<Action>

  // ---------------------------------------------------------------- the operations

  function Section(l: Lock): Program {
    [Acquire(l), Release(l)]
  }

  /** Manager.Schedule, CancelTask, Tasks and SetPushSink: look for the session, then lock its
      scheduler if there is one. */
  function SchedulerCall(s: Option<nat>): Program {
    Section(Mgr) + (if s.Some? then Section(Sched(s.value)) else [])
  }

  /** A turn during which the agent makes scheduler calls of its own, on any sessions. */
  function TurnBody(calls: seq<Option<nat>>): Program {
    if calls == [] then [] else SchedulerCall(calls[0]) + TurnBody(calls[1..])
  }

  /** An operation is a sequence of parts; between parts it holds nothing. Looking a session
      up, swapping it, Matches, State, Close, CancelTask and the like are brief parts, on the
      manager's, a turn or a scheduler mutex; Send ends with a full turn. Which parts follow
      each other depends on what is found on the way (no session, another session than the
      one inspected, a spec that does not match, a failed Init or Close), so any list may. */
  datatype Part =
    | Brief(l: Lock)                       // lock, touch the state, unlock
    | FullTurn(s: nat, calls: seq<Option<nat>>)    // runtime.Run under the turn mutex
    | TickTurn(s: nat, calls: seq<Option<nat>>)    // the same, if TryLock succeeds

  function PartProgram(part: Part): Program {
    match part
    case Brief(l) => Section(l)
    case FullTurn(s, calls) => [Acquire(Turn(s))] + TurnBody(calls) + [Release(Turn(s))]
    case TickTurn(s, calls) => [TryOrStop(Turn(s))] + TurnBody(calls) + [Release(Turn(s))]
  }

  function PartsProgram(parts: seq<Part>): Program {
    if parts == [] then [] else PartProgram(parts[0]) + PartsProgram(parts[1..])
  }

  // ---------------------------------------------------------------- discipline

  predicate Leaf(l: Lock) {
    !l.Turn?
  }

  /** A turn mutex is only asked for with nothing held; a leaf only with no leaf held. */
  predicate MayAcquire(l: Lock, held: set<Lock>) {
    l !in held && (if l.Turn? then held == {} else forall h | h in held :: !Leaf(h))
  }

  predicate Disciplined(p: Program, held: set<Lock>)
    decreases |p|
  {
    if p == [] then held == {}
    else
      match p[0]
      case Acquire(l) => MayAcquire(l, held) && Disciplined(p[1..], held + {l})
      case TryOrStop(l) => l.Turn? && held == {} && Disciplined(p[1..], {l})
      case Release(l) => l in held && Disciplined(p[1..], held - {l})
  }

  lemma SectionThen(l: Lock, p: Program, held: set<Lock>)
    requires MayAcquire(l, held) && Disciplined(p, held)
    ensures Disciplined(Section(l) + p, held)
  {
    var q := Section(l) + p;
    assert q[1..] == [Release(l)] + p && q[1..][1..] == p;
    assert held + {l} - {l} == held;
  }

  lemma SchedulerCallThen(s: Option<nat>, p: Program, held: set<Lock>)
    requires (forall h | h in held :: !Leaf(h)) && Disciplined(p, held)
    ensures Disciplined(SchedulerCall(s) + p, held)
  {
    if s.Some? {
      SectionThen(Sched(s.value), p, held);
      SectionThen(Mgr, Section(Sched(s.value)) + p, held);
      assert SchedulerCall(s) + p == Section(Mgr) + (Section(Sched(s.value)) + p);
    } else {
      SectionThen(Mgr, p, held);
      assert SchedulerCall(s) + p == Section(Mgr) + p;
    }
  }

  lemma {:induction false} TurnBodyThen(calls: seq<Option<nat>>, p: Program, held: set<Lock>)
    requires (forall h | h in held :: !Leaf(h)) && Disciplined(p, held)
    ensures Disciplined(TurnBody(calls) + p, held)
    decreases |calls|
  {
    if calls == [] {
      assert TurnBody(calls) + p == p;
    } else {
      TurnBodyThen(calls[1..], p, held);
      SchedulerCallThen(calls[0], TurnBody(calls[1..]) + p, held);
      assert TurnBody(calls) + p == SchedulerCall(calls[0]) + (TurnBody(calls[1..]) + p);
    }
  }

  lemma TurnThen(l: Lock, calls: seq<Option<nat>>, p: Program)
    requires l.Turn? && Disciplined(p, {})
    ensures Disciplined(TurnBody(calls) + [Release(l)] + p, {l})
  {
    var end := [Release(l)] + p;
    assert end[1..] == p && {l} - {l} == {};
    assert Disciplined(end, {l});
    TurnBodyThen(calls, end, {l});
    assert TurnBody(calls) + [Release(l)] + p == TurnBody(calls) + end;
  }

  lemma PartThen(part: Part, p: Program)
    requires Disciplined(p, {})
    ensures Disciplined(PartProgram(part) + p, {})
  {
    if part.Brief? {
      SectionThen(part.l, p, {});
    } else {
      var l := Turn(part.s);
      var rest := TurnBody(part.calls) + [Release(l)] + p;
      TurnThen(l, part.calls, p);
      var first := if part.FullTurn? then Acquire(l) else TryOrStop(l);
      assert PartProgram(part) + p == [first] + rest;
      FirstThen(l, rest);
    }
  }

  lemma FirstThen(l: Lock, rest: Program)
    requires l.Turn? && Disciplined(rest, {l})
    ensures Disciplined([Acquire(l)] + rest, {}) && Disciplined([TryOrStop(l)] + rest, {})
  {
    assert ([Acquire(l)] + rest)[1..] == rest && ([TryOrStop(l)] + rest)[1..] == rest;
    assert {} + {l} == {l};
  }

  /** Every operation, with any number of scheduler calls from inside its turn, keeps to the
      lock order: the manager's and the schedulers' mutexes are leaves below the turn mutex. */
  lemma {:induction false} PartsAreDisciplined(parts: seq<Part>)
    ensures Disciplined(PartsProgram(parts), {})
    decreases |parts|
  {
    if parts == [] {
    } else {
      PartsAreDisciplined(parts[1..]);
      PartThen(parts[0], PartsProgram(parts[1..]));
    }
  }

  // ---------------------------------------------------------------- interleavings

  /** What each goroutine has left to do, and who holds each lock. */
  datatype World = World(left: map<nat, Program>, holder: map<Lock, nat>)

  const EMPTY := World(map[], map[])

  datatype Step = Spawn(g: nat, parts: seq<Part>) | Go(g: nat)

  function Left(w: World, g: nat): Program {
    if g in w.left then w.left[g] else []
  }

  function Held(w: World, g: nat): set<Lock> {
    set l | l in w.holder && w.holder[l] == g
  }

  /** Goroutine g can take its next action now. */
  predicate CanGo(w: World, g: nat) {
    Left(w, g) != [] && (Left(w, g)[0].Acquire? ==> Left(w, g)[0].l !in w.holder)
  }

  predicate Enabled(w: World, e: Step) {
    match e
    case Spawn(g, _) => Left(w, g) == []
    case Go(g) => CanGo(w, g)
  }

  function Apply(w: World, e: Step): World
    requires Enabled(w, e)
  {
    match e
    case Spawn(g, parts) => w.(left := w.left[g := PartsProgram(parts)])
    case Go(g) =>
      var p := w.left[g];
      match p[0]
      case Acquire(l) => World(w.left[g := p[1..]], w.holder[l := g])
      case Release(l) => World(w.left[g := p[1..]], w.holder - {l})
      case TryOrStop(l) =>
        if l in w.holder then w.(left := w.left[g := []]) else World(w.left[g := p[1..]], w.holder[l := g])
  }

  ghost predicate Reaches(w: World, es: seq<Step>, v: World)
    decreases |es|
  {
    if es == [] then w == v else Enabled(w, es[0]) && Reaches(Apply(w, es[0]), es[1..], v)
  }

  ghost predicate Inv(w: World) {
    forall g: nat :: Disciplined(Left(w, g), Held(w, g))
  }

  lemma InvStep(w: World, e: Step)
    requires Inv(w) && Enabled(w, e)
    ensures Inv(Apply(w, e))
  {
    var v := Apply(w, e);
    assert Disciplined(Left(w, e.g), Held(w, e.g));
    forall g: nat
      ensures Disciplined(Left(v, g), Held(v, g))
    {
      assert Disciplined(Left(w, g), Held(w, g));
      if g != e.g {
        assert Left(v, g) == Left(w, g);
        assert Held(v, g) == Held(w, g);
      } else {
        match e {
          case Spawn(_, parts) =>
            PartsAreDisciplined(parts);
            assert Held(v, g) == Held(w, g) == {};
          case Go(_) =>
            match w.left[g][0] {
              case Acquire(l) => assert Held(v, g) == Held(w, g) + {l};
              case Release(l) => assert Held(v, g) == Held(w, g) - {l};
              case TryOrStop(l) => assert Held(v, g) == if l in w.holder then {} else {l};
            }
        }
      }
    }
  }

  lemma {:induction false} InvRun(w: World, es: seq<Step>, v: World)
    requires Inv(w) && Reaches(w, es, v)
    ensures Inv(v)
    decreases |es|
  {
    if es == [] {
    } else {
      InvStep(w, es[0]);
      InvRun(Apply(w, es[0]), es[1..], v);
    }
  }

  /** The holder of a leaf lock never waits. */
  lemma LeafHolderGoes(w: World, l: Lock)
    requires Inv(w) && l in w.holder && Leaf(l)
    ensures CanGo(w, w.holder[l])
  {
    var g := w.holder[l];
    assert Disciplined(Left(w, g), Held(w, g));
    assert l in Held(w, g);
  }

  /** The goroutine that holds up g: the holder of the lock g waits for, or, if that one
      waits inside its turn for a leaf, the holder of the leaf. */
  function Culprit(w: World, g: nat): nat {
    if Left(w, g) == [] || !Left(w, g)[0].Acquire? || Left(w, g)[0].l !in w.holder then g
    else
      var h := w.holder[Left(w, g)[0].l];
      if Left(w, h) == [] || !Left(w, h)[0].Acquire? || Left(w, h)[0].l !in w.holder then h
      else w.holder[Left(w, h)[0].l]
  }

  /** No deadlock: in every reachable state, whatever mix of sends with re-entrant scheduler
      calls, replacements, ticks, queries and stops is under way, every goroutine that has not
      finished can go on, or is held up by one that can, at most two locks away. */
  lemma NobodyWaitsForEver(es: seq<Step>, w: World, g: nat)
    requires Reaches(EMPTY, es, w) && Left(w, g) != []
    ensures CanGo(w, Culprit(w, g))
  {
    forall h: nat
      ensures Held(EMPTY, h) == {}
    {
    }
    InvRun(EMPTY, es, w);
    assert Disciplined(Left(w, g), Held(w, g));
    if !CanGo(w, g) {
      var l := Left(w, g)[0].l;
      var h := w.holder[l];
      assert l in Held(w, h) && Disciplined(Left(w, h), Held(w, h));
      if !CanGo(w, h) {
        var m := Left(w, h)[0].l;
        assert MayAcquire(m, Held(w, h));
        LeafHolderGoes(w, m);
      }
    }
  }

  /** Finished goroutines hold nothing. */
  lemma FinishedHoldNothing(es: seq<Step>, w: World, g: nat)
    requires Reaches(EMPTY, es, w) && Left(w, g) == []
    ensures Held(w, g) == {}
  {
    forall h: nat
      ensures Held(EMPTY, h) == {}
    {
    }
    InvRun(EMPTY, es, w);
    assert Disciplined(Left(w, g), Held(w, g));
  }

  // ---------------------------------------------------------------- why the order is as it is

  /** If a turn asked for the state of its own session, or sent to it, it would wait for
      itself: such a program breaks the order. */
  lemma ReentrantQueryBreaksTheOrder(s: nat, rest: Program)
    ensures !Disciplined([Acquire(Turn(s))] + Section(Mgr) + [Acquire(Turn(s))] + rest, {})
  {
    var p := [Acquire(Turn(s))] + Section(Mgr) + [Acquire(Turn(s))] + rest;
    var p1, p2, p3 := p[1..], p[1..][1..], p[1..][1..][1..];
    assert p1[0] == Acquire(Mgr) && p2[0] == Release(Mgr) && p3[0] == Acquire(Turn(s));
    var h := {} + {Turn(s)} + {Mgr} - {Mgr};
    assert Turn(s) in h;
    assert !Disciplined(p3, h);
    assert !Disciplined(p2, {} + {Turn(s)} + {Mgr});
    assert !Disciplined(p1, {} + {Turn(s)});
  }

  /** Had sessionFor kept the manager's mutex while asking for the turn mutex, a turn that
      schedules a task could face it in a deadlock: each waits for the other's lock. */
  lemma HoldingTheManagerWouldDeadlock(s: nat, a: nat, b: nat)
    requires a != b
    ensures var w := World(map[a := [Acquire(Turn(s)), Release(Turn(s)), Release(Mgr)],
                               b := SchedulerCall(Some(s)) + [Release(Turn(s))]],
                           map[Mgr := a, Turn(s) := b]);
            && !CanGo(w, a) && !CanGo(w, b)
            && !Disciplined([Acquire(Mgr), Acquire(Turn(s)), Release(Turn(s)), Release(Mgr)], {})
  {
    var p := [Acquire(Mgr), Acquire(Turn(s)), Release(Turn(s)), Release(Mgr)];
    assert p[1..][0] == Acquire(Turn(s));
    assert Mgr in {} + {Mgr};
  }
}
