/** What every interleaving of one bot's pipeline keeps. */
module PipelineSafety {
  import opened Common
  import opened Dedup
  import opened Pipeline

  // ---------------------------------------------------------------- shape

  ghost predicate ChansOk(chans: Chans) {
    forall i | 0 <= i < |chans| :: chans[i].cap >= 1 && |chans[i].items| <= chans[i].cap
  }

  predicate AccStoppingPhase(a: Accept) {
    a.AccStopping? || a.AccFinishing? || a.AccExit?
  }

  /** The control points fit together. In particular the accept loop never waits on a
      replaced queue, because only the accept loop replaces it. */
  ghost predicate Shape(s: Pipe) {
    && ChansOk(s.chans)
    && (HasWorker(s.chans) <==> !s.acc.AccAbsent?)
    && (HasWorker(s.chans) <==> !s.del.DelAbsent?)
    && (!HasWorker(s.chans) ==> s.starter.Away?)
    && (HasWorker(s.chans) ==> s.pending.None?)
    && (s.acc.AccSelect? ==> s.acc.ch == |s.chans| - 1)
    && (s.starter.Sending? ==> s.starter.ch < |s.chans|)
    && (s.stopped <==> s.slice.active.None?)
    && (s.stopped ==> s.slice.seen == map[])
    && (AccStoppingPhase(s.acc) ==> s.stopped)
    && (s.del.DelExit? ==> s.stopped)
    && (!AccStoppingPhase(s.acc) ==> s.log.dropped == [])
    && (HeldByAccept(s.acc).Some? ==> |s.log.taken| > 0 && s.log.taken[|s.log.taken| - 1] == HeldByAccept(s.acc).value)
    && (forall i | i in s.log.failed :: i < |s.log.taken|)
  }

  lemma ChansOkStep(s: Pipe, e: Step)
    requires ChansOk(s.chans) && Enabled(s, e)
    requires !s.stopped ==> s.slice.active.Some?
    ensures ChansOk(Apply(s, e).chans)
  {
  }

  /** A step moves the bot out of the map only if it is StopBot, and then for good. */
  lemma SliceLife(s: Pipe, e: Step)
    requires Enabled(s, e)
    requires s.stopped <==> s.slice.active.None?
    requires s.stopped ==> s.slice.seen == map[]
    ensures var t := Apply(s, e);
            && (t.stopped <==> s.stopped || e.StopBot?)
            && (t.stopped <==> t.slice.active.None?)
            && (t.stopped ==> t.slice.seen == map[])
  {
  }

  lemma ShapeStep(s: Pipe, e: Step)
    requires Shape(s) && Enabled(s, e)
    ensures Shape(Apply(s, e))
  {
    if e.AdmitMsg? {
      AdmitKeepsShape(s, e.m, e.now);
    } else if Finishes(s, e).Some? {
      FinishKeepsShape(s, e);
    } else {
      ChansOkStep(s, e);
      SliceLife(s, e);
    }
  }

  lemma AdmitKeepsShape(s: Pipe, m: Msg, now: int)
    requires Shape(s) && Enabled(s, AdmitMsg(m, now))
    ensures Shape(ApplyAdmit(s, m, now))
  {
    ChansOkStep(s, AdmitMsg(m, now));
    SliceLife(s, AdmitMsg(m, now));
    AdmitKeepsControl(s, m, now);
  }

  lemma FinishKeepsShape(s: Pipe, e: Step)
    requires Shape(s) && Enabled(s, e) && Finishes(s, e).Some?
    ensures Shape(Apply(s, e))
  {
    SliceLife(s, e);
  }

  lemma AdmitKeepsControl(s: Pipe, m: Msg, now: int)
    ensures var t := ApplyAdmit(s, m, now);
            && |t.chans| == |s.chans|
            && (HasWorker(s.chans) ==> t.pending == s.pending)
            && t == s.(slice := t.slice, chans := t.chans, pending := t.pending, log := t.log)
            && t.log == s.log.(admitted := t.log.admitted, lost := t.log.lost, raced := t.log.raced)
  {
  }

  // ---------------------------------------------------------------- conservation

  /** Every admitted message is, occurrence by occurrence, in exactly one place, or finished
      exactly once, or was overwritten in the pending slot. */
  ghost predicate Conservation(s: Pipe) {
    forall m :: Copies(s, m) + s.log.finished[m] + s.log.lost[m] == multiset(s.log.admitted)[m]
  }

  lemma ConservationStep(s: Pipe, e: Step)
    requires Shape(s) && Enabled(s, e)
    requires Conservation(s)
    ensures Conservation(Apply(s, e))
  {
    forall m
      ensures Copies(Apply(s, e), m) + Apply(s, e).log.finished[m] + Apply(s, e).log.lost[m] == multiset(Apply(s, e).log.admitted)[m]
    {
      StepAccounting(s, e, m);
    }
  }

  // ---------------------------------------------------------------- keys

  /** Copies of m that still hold its key: unfinished ones, and overwritten ones. */
  function Holders(s: Pipe, m: Msg): nat {
    Copies(s, m) + s.log.lost[m]
  }

  predicate InProgress(s: Pipe, id: string) {
    id != "" && id in s.slice.seen && s.slice.seen[id].inProgress
  }

  /** While the bot lives, a message id is in progress exactly while one copy of one message
      with that id holds it. */
  ghost predicate Keys(s: Pipe) {
    && (forall m: Msg :: m.id != "" && Holders(s, m) > 0 ==> Holders(s, m) == 1 && InProgress(s, m.id))
    && (forall m: Msg, n: Msg :: m.id == n.id != "" && Holders(s, m) > 0 && Holders(s, n) > 0 ==> m == n)
    && (forall id :: InProgress(s, id) ==> exists m: Msg :: m.id == id && Holders(s, m) > 0)
  }

  /** How a step changes the holders of m. */
  lemma HoldersStep(s: Pipe, e: Step, m: Msg)
    requires Shape(s) && Enabled(s, e)
    ensures Holders(Apply(s, e), m) + One(Finishes(s, e), m) == Holders(s, m) + One(Admits(s, e), m)
  {
    StepAccounting(s, e, m);
  }

  /** The three ways a step can treat the keys of a live bot. */
  lemma SliceEffect(s: Pipe, e: Step)
    requires Shape(s) && Enabled(s, e)
    requires !Apply(s, e).stopped
    ensures var t := Apply(s, e);
            match (Admits(s, e), Finishes(s, e))
            case (Some(m), _) => Finishes(s, e).None? && !InProgress(s, m.id) &&
                                 (forall id :: InProgress(t, id) <==> InProgress(s, id) || (id == m.id && id != ""))
            case (None, Some(m)) => forall id :: InProgress(t, id) <==> InProgress(s, id) && id != m.id
            case (None, None) => forall id :: InProgress(t, id) <==> InProgress(s, id)
  {
    if e.AdmitMsg? {
      AdmitEffect(s, e.m, e.now);
    } else if Finishes(s, e).Some? {
      FinishEffect(s, e);
    }
  }

  lemma AdmitEffect(s: Pipe, m: Msg, now: int)
    ensures var t := ApplyAdmit(s, m, now);
            && (Accepts(s, m, now) ==> !InProgress(s, m.id))
            && forall id :: InProgress(t, id) <==> InProgress(s, id) || (Accepts(s, m, now) && id == m.id && id != "")
  {
  }

  lemma FinishEffect(s: Pipe, e: Step)
    requires Enabled(s, e) && Finishes(s, e).Some? && !s.stopped && (s.stopped <==> s.slice.active.None?)
    ensures forall id :: InProgress(Apply(s, e), id) <==> InProgress(s, id) && id != Finishes(s, e).value.id
  {
  }

  /** Keys in progress after a step, from the holders before it. */
  lemma KeysStep(s: Pipe, e: Step)
    requires Shape(s) && Enabled(s, e)
    requires !s.stopped ==> Keys(s)
    requires !Apply(s, e).stopped
    ensures Keys(Apply(s, e))
  {
    var t := Apply(s, e);
    SliceEffect(s, e);
    forall m: Msg | m.id != "" && Holders(t, m) > 0
      ensures Holders(t, m) == 1 && InProgress(t, m.id)
    {
      KeyKept(s, e, m);
    }
    forall m: Msg, n: Msg | m.id == n.id != "" && Holders(t, m) > 0 && Holders(t, n) > 0
      ensures m == n
    {
      HoldersStep(s, e, m);
      HoldersStep(s, e, n);
    }
    forall id | InProgress(t, id)
      ensures exists m: Msg :: m.id == id && Holders(t, m) > 0
    {
      KeyHasHolder(s, e, id);
    }
  }

  lemma KeyKept(s: Pipe, e: Step, m: Msg)
    requires Shape(s) && Enabled(s, e) && Keys(s)
    requires !Apply(s, e).stopped
    requires m.id != "" && Holders(Apply(s, e), m) > 0
    ensures Holders(Apply(s, e), m) == 1 && InProgress(Apply(s, e), m.id)
  {
    SliceEffect(s, e);
    HoldersStep(s, e, m);
    if Finishes(s, e).Some? {
      var f := Finishes(s, e).value;
      assert Holders(s, f) > 0;
      HoldersStep(s, e, f);
    }
  }

  lemma KeyHasHolder(s: Pipe, e: Step, id: string)
    requires Shape(s) && Enabled(s, e) && Keys(s)
    requires !Apply(s, e).stopped && InProgress(Apply(s, e), id)
    ensures exists m: Msg :: m.id == id && Holders(Apply(s, e), m) > 0
  {
    SliceEffect(s, e);
    if Admits(s, e).Some? && Admits(s, e).value.id == id {
      HoldersStep(s, e, Admits(s, e).value);
      assert Holders(Apply(s, e), Admits(s, e).value) > 0;
    } else {
      var m: Msg :| m.id == id && Holders(s, m) > 0;
      HoldersStep(s, e, m);
      assert Holders(Apply(s, e), m) > 0;
    }
  }

  // ---------------------------------------------------------------- the active count

  /** Messages the accept loop has marked started and nobody has finished. */
  function Accepted(s: Pipe): nat {
    (if HeldByAccept(s.acc).Some? && !s.acc.AccGot? then 1 else 0) + (if HeldByDeliver(s.del).Some? then 1 else 0)
  }

  /** The active count is the accepted messages and extra more. */
  ghost predicate ActiveIs(s: Pipe, extra: nat) {
    s.slice.active == Some(Accepted(s) + extra)
  }

  ghost predicate ActiveOk(s: Pipe) {
    ActiveIs(s, 0)
  }

  /** finishMessage lowers the count every time it is called, because the message it is
      called for still holds its key. */
  lemma ActiveStep(s: Pipe, e: Step, extra: nat)
    requires Shape(s) && Enabled(s, e)
    requires !s.stopped ==> Keys(s) && ActiveIs(s, extra)
    requires !Apply(s, e).stopped
    ensures ActiveIs(Apply(s, e), extra)
  {
    if Finishes(s, e).Some? {
      ActiveFinish(s, e, extra);
    }
  }

  lemma ActiveFinish(s: Pipe, e: Step, extra: nat)
    requires Enabled(s, e) && Finishes(s, e).Some?
    requires !s.stopped && Keys(s) && ActiveIs(s, extra)
    ensures ActiveIs(Apply(s, e), extra)
  {
    var f := Finishes(s, e).value;
    assert Holders(s, f) > 0;
    assert f.id != "" ==> InProgress(s, f.id);
  }

  // ---------------------------------------------------------------- order

  /** The message the accept loop has taken and may still hand over. */
  function Passing(a: Accept): seq<Msg> {
    match a
    case AccGot(m) => [m]
    case AccMarked(m) => [m]
    case AccHolding(item) => [item.msg]
    case _ => []
  }

  /** From the accept loop on: turns happen in the order messages were taken, minus failures. */
  ghost predicate TurnOrder(s: Pipe) {
    && Without(s.log.taken, s.log.failed) == s.log.turns + s.log.dropped + Passing(s.acc)
    && (Passing(s.acc) != [] ==> |s.log.taken| - 1 !in s.log.failed)
  }

  lemma TurnOrderFailure(s: Pipe)
    requires Shape(s) && TurnOrder(s) && Enabled(s, ResolveFail)
    ensures TurnOrder(Apply(s, ResolveFail))
  {
    var front, passed := s.log.taken[..|s.log.taken| - 1], s.log.turns + s.log.dropped;
    WithoutLast(s.log.taken, s.log.failed);
    var w := Without(front, s.log.failed);
    assert w + [s.acc.m] == passed + [s.acc.m];
    assert w == (w + [s.acc.m])[..|w|] == (passed + [s.acc.m])[..|passed|] == passed;
  }

  lemma TurnOrderReceive(s: Pipe)
    requires Shape(s) && TurnOrder(s) && Enabled(s, AccReceive)
    ensures TurnOrder(Apply(s, AccReceive))
  {
    WithoutAppend(s.log.taken, [s.chans[s.acc.ch].items[0]], s.log.failed);
  }

  lemma TurnOrderAdmit(s: Pipe, m: Msg, now: int)
    requires TurnOrder(s)
    ensures TurnOrder(ApplyAdmit(s, m, now))
  {
    AdmitKeepsControl(s, m, now);
  }

  lemma TurnOrderFinish(s: Pipe, e: Step)
    requires TurnOrder(s) && Enabled(s, e) && Finishes(s, e).Some?
    ensures TurnOrder(Apply(s, e))
  {
    FinishAccounting(s, e, Finishes(s, e).value);
  }

  lemma TurnOrderStep(s: Pipe, e: Step)
    requires Shape(s) && Enabled(s, e)
    requires TurnOrder(s)
    ensures TurnOrder(Apply(s, e))
  {
    if e.AdmitMsg? {
      TurnOrderAdmit(s, e.m, e.now);
      return;
    }
    if Finishes(s, e).Some? {
      TurnOrderFinish(s, e);
      return;
    }
    if e.ResolveFail? {
      TurnOrderFailure(s);
    } else if e.AccReceive? {
      TurnOrderReceive(s);
    }
  }

  function Waiting(s: Pipe): seq<Msg> {
    Queued(s.chans) + AsSeq(HeldByStarter(s.starter)) + AsSeq(s.pending)
  }

  /** From admission to the accept loop, while no admission has raced with the start: nothing
      is on a replaced queue, and messages are taken in admission order. */
  ghost predicate QueueOrder(s: Pipe) {
    && (forall i | 0 <= i < |s.chans| - 1 :: s.chans[i].items == [])
    && (!HasWorker(s.chans) ==> s.log.taken == [])
    && (!s.starter.Away? ==> s.log.taken == [] && Queued(s.chans) == [])
    && (s.starter.Sending? ==> s.starter.ch == |s.chans| - 1)
    && s.log.lost == multiset{}
    && s.log.taken + Waiting(s) == s.log.admitted
  }

  lemma QueueOrderStep(s: Pipe, e: Step)
    requires Shape(s) && Enabled(s, e)
    requires !s.log.raced ==> QueueOrder(s)
    requires !Apply(s, e).log.raced
    ensures QueueOrder(Apply(s, e))
  {
    if e.AdmitMsg? {
      QueueOrderAdmit(s, e.m, e.now);
    } else if TouchesQueue(e) {
      QueueOrderQueue(s, e);
    }
  }

  lemma QueueOrderAdmit(s: Pipe, m: Msg, now: int)
    requires Shape(s) && !s.stopped
    requires QueueOrder(s) && !ApplyAdmit(s, m, now).log.raced
    ensures QueueOrder(ApplyAdmit(s, m, now))
  {
  }

  lemma QueueOrderQueue(s: Pipe, e: Step)
    requires Shape(s) && Enabled(s, e) && TouchesQueue(e)
    requires QueueOrder(s)
    ensures QueueOrder(Apply(s, e))
  {
    if e.AccReceive? {
      QueueOrderReceive(s);
    } else if e.ResolveOk? {
      QueueOrderResize(s, e.size, e.sess);
    } else if e.StarterSend? {
      assert Queued(s.chans) == [] && Queued(Apply(s, e).chans) == [s.starter.m];
    }
  }

  lemma QueueOrderResize(s: Pipe, size: int, sess: Option<nat>)
    requires Shape(s) && Enabled(s, ResolveOk(size, sess))
    requires QueueOrder(s)
    ensures QueueOrder(Apply(s, ResolveOk(size, sess)))
  {
    var t := Apply(s, ResolveOk(size, sess));
    assert Queued(t.chans) == Queued(s.chans);
    assert !s.starter.Away? ==> t.chans == s.chans by {
      assert !s.starter.Away? ==> s.log.taken == [];
    }
  }

  lemma QueueOrderReceive(s: Pipe)
    requires Shape(s) && Enabled(s, AccReceive)
    requires QueueOrder(s)
    ensures QueueOrder(Apply(s, AccReceive))
  {
    var q := Current(s.chans).items;
    var tail := AsSeq(HeldByStarter(s.starter)) + AsSeq(s.pending);
    assert s.log.taken + Waiting(s) == (s.log.taken + [q[0]]) + (q[1..] + tail);
  }

  // ---------------------------------------------------------------- progress sessions

  function SessionOfAccept(a: Accept): seq<nat> {
    match a
    case AccHolding(item) => AsSeq(item.sess)
    case AccStopping(item) => AsSeq(item.sess)
    case _ => []
  }

  function SessionOfDeliver(d: Deliver): seq<nat> {
    match d
    case DelRunning(item) => AsSeq(item.sess)
    case DelReturned(item, _) => AsSeq(item.sess)
    case _ => []
  }

  function Count(xs: seq<nat>, x: nat): nat {
    multiset(xs)[x]
  }

  /** Every progress session that was attached to an item is still with it, or has received
      Done or Fail exactly once. */
  ghost predicate SessionsOk(s: Pipe) {
    forall x :: Count(s.log.carried, x) == Count(s.log.finalised, x) + InHand(s, x)
  }

  function InHand(s: Pipe, x: nat): nat {
    Count(SessionOfAccept(s.acc), x) + Count(SessionOfDeliver(s.del), x)
  }

  predicate MovesSession(e: Step) {
    e.ResolveOk? || e.AccFinalise? || e.DelFinalise?
  }

  lemma CountAppend(xs: seq<nat>, ys: seq<nat>, x: nat)
    ensures Count(xs + ys, x) == Count(xs, x) + Count(ys, x)
  {
  }

  lemma SessionMoves(s: Pipe, e: Step, x: nat)
    requires Enabled(s, e) && MovesSession(e)
    requires Count(s.log.carried, x) == Count(s.log.finalised, x) + InHand(s, x)
    ensures Count(Apply(s, e).log.carried, x) == Count(Apply(s, e).log.finalised, x) + InHand(Apply(s, e), x)
  {
    if e.ResolveOk? {
      SessionAttached(s, e.size, e.sess, x);
    } else if e.AccFinalise? {
      SessionFailed(s, x);
    } else {
      SessionEnded(s, x);
    }
  }

  lemma SessionAttached(s: Pipe, size: int, sess: Option<nat>, x: nat)
    requires Enabled(s, ResolveOk(size, sess))
    ensures var t := Apply(s, ResolveOk(size, sess));
            && Count(t.log.carried, x) == Count(s.log.carried, x) + Count(AsSeq(sess), x)
            && t.log.finalised == s.log.finalised
            && InHand(t, x) == InHand(s, x) + Count(AsSeq(sess), x)
  {
    CountAppend(s.log.carried, AsSeq(sess), x);
    assert SessionOfAccept(s.acc) == [];
  }

  lemma SessionFailed(s: Pipe, x: nat)
    requires Enabled(s, AccFinalise)
    ensures var t := Apply(s, AccFinalise);
            && t.log.carried == s.log.carried
            && Count(t.log.finalised, x) + InHand(t, x) == Count(s.log.finalised, x) + InHand(s, x)
  {
    CountAppend(s.log.finalised, SessionOfAccept(s.acc), x);
  }

  lemma SessionEnded(s: Pipe, x: nat)
    requires Enabled(s, DelFinalise)
    ensures var t := Apply(s, DelFinalise);
            && t.log.carried == s.log.carried
            && Count(t.log.finalised, x) + InHand(t, x) == Count(s.log.finalised, x) + InHand(s, x)
  {
    CountAppend(s.log.finalised, SessionOfDeliver(s.del), x);
  }

  lemma SessionStays(s: Pipe, e: Step, x: nat)
    requires Enabled(s, e) && !MovesSession(e)
    requires e.Install? ==> s.acc.AccAbsent? && s.del.DelAbsent?
    ensures Apply(s, e).log.carried == s.log.carried && Apply(s, e).log.finalised == s.log.finalised
    ensures InHand(Apply(s, e), x) == InHand(s, x)
  {
    if e.AdmitMsg? {
      AdmitKeepsControl(s, e.m, e.now);
    } else if Finishes(s, e).Some? {
      FinishLeavesSessions(s, e);
    } else if e.Handoff? {
      HandoffMovesSession(s, x);
    } else {
      LocalLeavesSessions(s, e);
    }
  }

  lemma FinishLeavesSessions(s: Pipe, e: Step)
    requires Enabled(s, e) && Finishes(s, e).Some?
    ensures Apply(s, e).log == s.log.(finished := s.log.finished + multiset{Finishes(s, e).value})
    ensures SessionOfAccept(Apply(s, e).acc) == SessionOfAccept(s.acc)
    ensures SessionOfDeliver(Apply(s, e).del) == SessionOfDeliver(s.del)
  {
  }

  lemma HandoffMovesSession(s: Pipe, x: nat)
    requires Enabled(s, Handoff)
    ensures InHand(Apply(s, Handoff), x) == InHand(s, x)
  {
  }

  lemma LocalLeavesSessions(s: Pipe, e: Step)
    requires Enabled(s, e) && !MovesSession(e) && !e.AdmitMsg? && Finishes(s, e).None? && !e.Handoff?
    requires e.Install? ==> s.acc.AccAbsent? && s.del.DelAbsent?
    ensures Apply(s, e).log.carried == s.log.carried && Apply(s, e).log.finalised == s.log.finalised
    ensures SessionOfAccept(Apply(s, e).acc) == SessionOfAccept(s.acc)
    ensures SessionOfDeliver(Apply(s, e).del) == SessionOfDeliver(s.del)
  {
  }

  lemma SessionsStep(s: Pipe, e: Step)
    requires Enabled(s, e) && Shape(s)
    requires SessionsOk(s)
    ensures SessionsOk(Apply(s, e))
  {
    forall x
      ensures Count(Apply(s, e).log.carried, x) == Count(Apply(s, e).log.finalised, x) + InHand(Apply(s, e), x)
    {
      if MovesSession(e) {
        SessionMoves(s, e, x);
      } else {
        SessionStays(s, e, x);
      }
    }
  }

  // ---------------------------------------------------------------- over whole runs

  ghost predicate Inv(s: Pipe) {
    && Shape(s)
    && Conservation(s)
    && (!s.stopped ==> Keys(s) && ActiveOk(s))
    && TurnOrder(s)
    && (!s.log.raced ==> QueueOrder(s))
    && SessionsOk(s)
  }

  lemma FreshInv()
    ensures Inv(FRESH)
  {
  }

  lemma InvStep(s: Pipe, e: Step)
    requires Inv(s) && Enabled(s, e)
    ensures Inv(Apply(s, e))
  {
    var t := Apply(s, e);
    ShapeStep(s, e);
    ConservationStep(s, e);
    SliceLife(s, e);
    if !t.stopped {
      KeysStep(s, e);
      ActiveStep(s, e, 0);
    }
    TurnOrderStep(s, e);
    if !t.log.raced {
      QueueOrderStep(s, e);
    }
    SessionsStep(s, e);
  }

  lemma {:induction false} InvRun(s: Pipe, es: seq<Step>, t: Pipe)
    requires Inv(s) && Reaches(s, es, t)
    ensures Inv(t)
    decreases |es|
  {
    if es == [] {
    } else {
      InvStep(s, es[0]);
      InvRun(Apply(s, es[0]), es[1..], t);
    }
  }

  lemma {:induction false} Extend(s: Pipe, es: seq<Step>, t: Pipe, e: Step)
    requires Reaches(s, es, t) && Enabled(t, e)
    ensures Reaches(s, es + [e], Apply(t, e))
    decreases |es|
  {
    if es == [] {
      assert ([e])[1..] == [];
    } else {
      assert (es + [e])[1..] == es[1..] + [e];
      Extend(Apply(s, es[0]), es[1..], t, e);
    }
  }

  /** The number of messages admitted and neither finished nor lost. */
  function Backlog(s: Pipe): nat {
    |AsSeq(s.pending)| + |AsSeq(HeldByStarter(s.starter))| + |Queued(s.chans)|
    + |AsSeq(HeldByAccept(s.acc))| + |AsSeq(HeldByDeliver(s.del))|
  }

  /** Conservation over every run: nothing is lost except by overwriting the pending slot,
      nothing is finished twice, no id is worked on twice, and the active count is the number
      of accepted unfinished messages, so it is 0, 1 or 2. */
  lemma MessagesAreConserved(es: seq<Step>, t: Pipe)
    requires Reaches(FRESH, es, t)
    ensures forall m :: Copies(t, m) + t.log.finished[m] + t.log.lost[m] == multiset(t.log.admitted)[m]
    ensures !t.log.raced ==> t.log.lost == multiset{}
    ensures !t.stopped ==> t.slice.active == Some(Accepted(t)) && Accepted(t) <= 2
    ensures !t.stopped ==> forall m: Msg :: m.id != "" && Copies(t, m) > 0 ==> Copies(t, m) == 1 && InProgress(t, m.id)
    ensures !t.stopped ==> forall m: Msg, n: Msg :: m.id == n.id != "" && Copies(t, m) > 0 && Copies(t, n) > 0 ==> m == n
    ensures !t.stopped && !t.log.raced ==>
              forall id :: InProgress(t, id) ==> exists m: Msg :: m.id == id && Copies(t, m) > 0
  {
    FreshInv();
    InvRun(FRESH, es, t);
    assert forall m :: Copies(t, m) <= Holders(t, m);
    if !t.stopped && !t.log.raced {
      forall id | InProgress(t, id)
        ensures exists m: Msg :: m.id == id && Copies(t, m) > 0
      {
        var m: Msg :| m.id == id && Holders(t, m) > 0;
        assert Copies(t, m) > 0;
      }
    }
  }

  /** First in, first out through any number of queue replacements: the turns started, then
      what the accept loop gave up on StopBot, then what it holds, then the queue (and the
      first message on its way there) are the admissions in order, minus resolver failures. */
  lemma OrderIsKept(es: seq<Step>, t: Pipe)
    requires Reaches(FRESH, es, t) && !t.log.raced
    ensures t.log.turns + t.log.dropped + Passing(t.acc) + Waiting(t) == Without(t.log.admitted, t.log.failed)
    ensures !t.stopped ==> t.log.dropped == []
    ensures HasWorker(t.chans) ==> Backlog(t) <= Current(t.chans).cap + 2
    ensures !HasWorker(t.chans) ==> Backlog(t) <= 1
  {
    FreshInv();
    InvRun(FRESH, es, t);
    OrderFromInv(t);
    BacklogFromInv(t);
  }

  lemma OrderFromInv(t: Pipe)
    requires TurnOrder(t) && QueueOrder(t) && (forall i | i in t.log.failed :: i < |t.log.taken|)
    ensures t.log.turns + t.log.dropped + Passing(t.acc) + Waiting(t) == Without(t.log.admitted, t.log.failed)
  {
    WithoutAppend(t.log.taken, Waiting(t), t.log.failed);
  }

  lemma BacklogFromInv(t: Pipe)
    requires Shape(t) && QueueOrder(t)
    ensures HasWorker(t.chans) ==> Backlog(t) <= Current(t.chans).cap + 2
    ensures !HasWorker(t.chans) ==> Backlog(t) <= 1
  {
  }

  // ---------------------------------------------------------------- the race at the start

  /** Until the pending message is in the queue, an admission that succeeds is a race, and this
      is the only way the two results above can fail. admitMessage sees the pending slot, but
      not the goroutine that sends the pending message. */
  lemma RacesAreAdmissionsDuringTheStart(s: Pipe, e: Step)
    requires Inv(s) && Enabled(s, e) && !s.log.raced
    ensures Apply(s, e).log.raced <==>
            (e.AdmitMsg? && Accepts(s, e.m, e.now) && (s.pending.Some? || !s.starter.Away?))
    ensures Apply(s, e).log.lost != s.log.lost <==>
            (e.AdmitMsg? && Accepts(s, e.m, e.now) && s.pending.Some?)
  {
    if e.AdmitMsg? {
      RacingAdmission(s, e.m, e.now);
    } else {
      OnlyAdmissionsRace(s, e);
    }
  }

  lemma OnlyAdmissionsRace(s: Pipe, e: Step)
    requires Enabled(s, e) && !e.AdmitMsg?
    ensures Apply(s, e).log.raced == s.log.raced && Apply(s, e).log.lost == s.log.lost
  {
    if Finishes(s, e).Some? {
      FinishAccounting(s, e, Finishes(s, e).value);
    }
  }

  lemma RacingAdmission(s: Pipe, m: Msg, now: int)
    requires !s.log.raced && (HasWorker(s.chans) ==> s.pending.None?) && (!HasWorker(s.chans) ==> s.starter.Away?)
    ensures var t := ApplyAdmit(s, m, now);
            && (t.log.raced <==> Accepts(s, m, now) && (s.pending.Some? || !s.starter.Away?))
            && (t.log.lost != s.log.lost <==> Accepts(s, m, now) && s.pending.Some?)
  {
    if s.pending.Some? {
      var p := s.pending.value;
      assert (s.log.lost + multiset{p})[p] == s.log.lost[p] + 1;
    }
  }

  /** Two first messages before ensureWorker: the first one is overwritten, no goroutine will
      ever see it, and its id stays in progress, so every later copy of it is refused. */
  lemma OverwrittenFirstMessageIsRefusedForever(m: Msg, n: Msg, now: int, es: seq<Step>, t: Pipe, later: int)
    requires m.id != "" && n.id != m.id
    requires Reaches(Apply(Apply(FRESH, AdmitMsg(m, now)), AdmitMsg(n, now)), es, t)
    requires !t.stopped
    ensures Copies(t, m) == 0 && t.log.lost[m] == 1
    ensures !Accepts(t, m, later)
  {
    FreshInv();
    InvStep(FRESH, AdmitMsg(m, now));
    var s1 := Apply(FRESH, AdmitMsg(m, now));
    SecondFirstMessageOverwrites(s1, m, n, now);
    InvStep(s1, AdmitMsg(n, now));
    var s2 := Apply(s1, AdmitMsg(n, now));
    InvRun(s2, es, t);
    LostGrows(s2, es, t, m);
    LostKeyIsRefused(t, m, later);
  }

  lemma SecondFirstMessageOverwrites(s: Pipe, m: Msg, n: Msg, now: int)
    requires s == Apply(FRESH, AdmitMsg(m, now)) && m.id != n.id
    ensures Enabled(s, AdmitMsg(n, now)) && Apply(s, AdmitMsg(n, now)).log.lost == multiset{m}
  {
    assert s.pending == Some(m);
  }

  lemma LostKeyIsRefused(t: Pipe, m: Msg, later: int)
    requires Shape(t) && Keys(t) && !t.stopped && m.id != "" && t.log.lost[m] > 0
    ensures Copies(t, m) == 0 && t.log.lost[m] == 1 && !Accepts(t, m, later)
  {
    assert Holders(t, m) > 0;
  }

  lemma {:induction false} LostGrows(s: Pipe, es: seq<Step>, t: Pipe, m: Msg)
    requires Reaches(s, es, t)
    ensures t.log.lost[m] >= s.log.lost[m]
    decreases |es|
  {
    if es == [] {
    } else {
      LostGrows(Apply(s, es[0]), es[1..], t, m);
    }
  }

  /** A message admitted between the installation of the worker and the sending of the
      pending message is queued ahead of it, although it was admitted after it. */
  lemma RacingAdmissionOvertakes(s: Pipe, n: Msg, now: int)
    requires Shape(s) && QueueOrder(s) && !s.stopped
    requires !s.starter.Away? && Accepts(s, n, now)
    ensures var t := Apply(s, AdmitMsg(n, now));
            var first := HeldByStarter(s.starter).value;
            t.log.admitted == [first, n] && Queued(t.chans) == [n] && HeldByStarter(t.starter) == Some(first)
  {
    assert s.log.taken + Waiting(s) == [HeldByStarter(s.starter).value];
  }
}
