/** What is left behind: messages on channels that have been replaced, and lock sections that
    goroutines of a stopped generation call for their successor. */
module PipelineForeign {
  import opened Common
  import opened Dedup
  import opened Pipeline
  import opened PipelineSafety
  import PipelineStop

  // ---------------------------------------------------------------- replaced channels

  /** resizeWorkerQueue puts another channel in the place of the present one. */
  predicate Replaces(chans: Chans, size: nat) {
    HasWorker(chans) && Current(chans).items == [] && Current(chans).cap != size
  }

  /** No message is on a replaced channel, or on its way to one. */
  ghost predicate Unstranded(s: Pipe) {
    && (s.starter.Sending? ==> s.starter.ch == |s.chans| - 1)
    && (forall i | 0 <= i < |s.chans| - 1 :: s.chans[i].items == [])
  }

  /** What leaves a message stranded is exactly a replacement of the queue while the pending
      message is about to be sent to it. */
  lemma StrandedExactlyWhen(s: Pipe, e: Step)
    requires Shape(s) && Unstranded(s) && Enabled(s, e)
    ensures Unstranded(Apply(s, e)) <==>
            !(e.ResolveOk? && !s.stopped && Replaces(s.chans, QueueSize(e.size)) && s.starter.Sending?)
  {
    if e.AdmitMsg? {
      AdmitKeepsControl(s, e.m, e.now);
    } else if !TouchesQueue(e) {
      OthersLeaveChans(s, e);
    }
  }

  lemma OthersLeaveChans(s: Pipe, e: Step)
    requires Enabled(s, e) && !TouchesQueue(e) && !e.AdmitMsg?
    ensures Apply(s, e).chans == s.chans
    ensures !e.StarterEval? ==> Apply(s, e).starter == s.starter
  {
  }

  /** Without a race at the start it never happens. */
  lemma NothingIsStrandedWithoutARace(es: seq<Step>, s: Pipe)
    requires Reaches(FRESH, es, s) && !s.log.raced
    ensures Unstranded(s)
  {
    FreshInv();
    InvRun(FRESH, es, s);
  }

  lemma ReplacedStep(s: Pipe, e: Step, i: nat)
    requires Shape(s) && Enabled(s, e) && i < |s.chans| - 1
    ensures |s.chans| <= |Apply(s, e).chans| && s.chans[i].items <= Apply(s, e).chans[i].items
    ensures s.starter.Sending? && s.starter.ch == i ==>
              Apply(s, e).starter == s.starter || s.starter.m in Apply(s, e).chans[i].items
  {
    if e.AdmitMsg? {
      AdmitKeepsControl(s, e.m, e.now);
    } else if !TouchesQueue(e) {
      OthersLeaveChans(s, e);
    } else if e.StarterSend? {
      var items := s.chans[s.starter.ch].items;
      assert (items + [s.starter.m])[|items|] == s.starter.m;
    }
  }

  /** m is on replaced channel i, or about to be sent to it. */
  predicate StrandedAt(s: Pipe, i: nat, m: Msg) {
    i < |s.chans| - 1 && (s.starter == Sending(i, m) || m in s.chans[i].items)
  }

  /** A message on a replaced channel stays there in every continuation: nobody takes it. */
  lemma {:induction false} StrandedStays(s: Pipe, es: seq<Step>, t: Pipe, i: nat, m: Msg)
    requires Shape(s) && StrandedAt(s, i, m) && Reaches(s, es, t)
    ensures Shape(t) && StrandedAt(t, i, m)
    decreases |es|
  {
    if es == [] {
    } else {
      ShapeStep(s, es[0]);
      ReplacedStep(s, es[0], i);
      StrandedStays(Apply(s, es[0]), es[1..], t, i, m);
    }
  }

  lemma {:induction false} OnChannel(chans: Chans, i: nat, m: Msg)
    requires i < |chans| && m in chans[i].items
    ensures InChans(chans)[m] > 0
    decreases i
  {
    if i == 0 {
    } else {
      OnChannel(chans[1..], i - 1, m);
    }
  }

  lemma {:induction false} KeysRun(s: Pipe, es: seq<Step>, t: Pipe)
    requires Shape(s) && (!s.stopped ==> Keys(s)) && Reaches(s, es, t)
    ensures Shape(t) && (!t.stopped ==> Keys(t))
    decreases |es|
  {
    if es == [] {
    } else {
      ShapeStep(s, es[0]);
      if !Apply(s, es[0]).stopped {
        KeysStep(s, es[0]);
      }
      KeysRun(Apply(s, es[0]), es[1..], t);
    }
  }

  /** So it is never taken, and as long as the bot lives every later copy of it is refused. */
  lemma StrandedIsNeverTaken(s: Pipe, es: seq<Step>, t: Pipe, i: nat, m: Msg, later: int)
    requires Shape(s) && (!s.stopped ==> Keys(s)) && StrandedAt(s, i, m) && Reaches(s, es, t)
    ensures StrandedAt(t, i, m)
    ensures !t.stopped && m.id != "" ==> !Accepts(t, m, later)
  {
    StrandedStays(s, es, t, i, m);
    KeysRun(s, es, t);
    if m in t.chans[i].items {
      OnChannel(t.chans, i, m);
    }
    assert Copies(t, m) > 0;
    if !t.stopped && m.id != "" {
      assert Holders(t, m) > 0;
    }
  }

  // ---------------------------------------------------------------- resizeWorkerQueue

  /** The state after the accept loop of another generation has called resizeWorkerQueue. */
  function Resized(s: Pipe, size: int): Pipe {
    s.(chans := Resize(s.chans, QueueSize(size)))
  }

  lemma ResizedKeepsCopies(s: Pipe, size: int, m: Msg)
    ensures Copies(Resized(s, size), m) == Copies(s, m)
  {
    InChansAppendEmpty(s.chans, QueueSize(size));
  }

  lemma ResizedKeepsKeys(s: Pipe, size: int)
    ensures Conservation(s) ==> Conservation(Resized(s, size))
    ensures Keys(s) ==> Keys(Resized(s, size))
  {
    forall m
      ensures Copies(Resized(s, size), m) == Copies(s, m) && Holders(Resized(s, size), m) == Holders(s, m)
    {
      ResizedKeepsCopies(s, size, m);
    }
    forall id
      ensures InProgress(Resized(s, size), id) <==> InProgress(s, id)
    {
    }
    if Keys(s) {
      forall id | InProgress(Resized(s, size), id)
        ensures exists m: Msg :: m.id == id && Holders(Resized(s, size), m) > 0
      {
        var m: Msg :| m.id == id && Holders(s, m) > 0;
        assert Holders(Resized(s, size), m) > 0;
      }
    }
  }

  /** resizeWorkerQueue looks the bot up by id, so the accept loop of a stopped generation can
      replace the queue of its successor. That keeps the successor in order except exactly
      when it swaps the queue under a waiting accept loop, or under the goroutine that is
      about to send the pending message. */
  lemma ForeignResizeIsHarmlessExactlyWhen(s: Pipe, size: int)
    requires Inv(s) && !s.stopped && !s.log.raced
    ensures Inv(Resized(s, size)) <==>
            !(Replaces(s.chans, QueueSize(size)) && (s.acc.AccSelect? || s.starter.Sending?))
  {
    if Replaces(s.chans, QueueSize(size)) && (s.acc.AccSelect? || s.starter.Sending?) {
      assert |Resized(s, size).chans| == |s.chans| + 1;
      assert s.acc.AccSelect? ==> !Shape(Resized(s, size));
      assert s.starter.Sending? ==> !QueueOrder(Resized(s, size));
    } else {
      HarmlessResize(s, size);
    }
  }

  /** In one direction this does not need the absence of a race. */
  lemma HarmlessResize(s: Pipe, size: int)
    requires Inv(s) && !s.stopped
    requires !(Replaces(s.chans, QueueSize(size)) && (s.acc.AccSelect? || s.starter.Sending?))
    ensures Inv(Resized(s, size))
  {
    var t := Resized(s, size);
    ResizedKeepsKeys(s, size);
    assert Queued(t.chans) == Queued(s.chans);
    assert Shape(t);
    assert !s.log.raced ==> QueueOrder(t);
    assert SessionsOk(t) by {
      forall x
        ensures Count(t.log.carried, x) == Count(t.log.finalised, x) + InHand(t, x)
      {
        assert Count(s.log.carried, x) == Count(s.log.finalised, x) + InHand(s, x);
      }
    }
  }

  /** The accept loop waits on a replaced, empty queue that nobody is about to send to, or is
      gone. */
  predicate Stranded(s: Pipe) {
    && HasWorker(s.chans)
    && (!s.acc.AccExit? ==>
          && s.acc.AccSelect? && s.acc.ch < |s.chans| - 1 && s.chans[s.acc.ch].items == []
          && (s.starter.Sending? ==> s.starter.ch != s.acc.ch))
  }

  lemma StrandedStep(s: Pipe, e: Step)
    requires Stranded(s) && Enabled(s, e)
    ensures Stranded(Apply(s, e)) && Apply(s, e).log.taken == s.log.taken
  {
    if e.AdmitMsg? {
      AdmitKeepsControl(s, e.m, e.now);
    }
  }

  lemma {:induction false} StrandedRun(s: Pipe, es: seq<Step>, t: Pipe)
    requires Stranded(s) && Reaches(s, es, t)
    ensures t.log.taken == s.log.taken
    decreases |es|
  {
    if es == [] {
    } else {
      StrandedStep(s, es[0]);
      StrandedRun(Apply(s, es[0]), es[1..], t);
    }
  }

  /** Under a waiting accept loop: no message is ever taken out of the queue again. */
  lemma ForeignResizeStrandsTheQueue(s: Pipe, size: int, es: seq<Step>, t: Pipe)
    requires Shape(s) && Unstranded(s)
    requires Replaces(s.chans, QueueSize(size)) && s.acc.AccSelect? && !s.starter.Sending?
    requires Reaches(Resized(s, size), es, t)
    ensures t.log.taken == s.log.taken
  {
    StrandedRun(Resized(s, size), es, t);
  }

  /** The accept loop waits for the next message, after one whose spec could not be resolved. */
  function Idle(log: Log): Pipe {
    Pipe(Slice(Some(0), map[]), [Chan(DEFAULT_QUEUE_SIZE, [])], None, false, Away, AccSelect(0), DelSelect, log)
  }

  /** A message waits in the queue of a fresh worker. */
  function Arrived(m: Msg): Pipe {
    FRESH.(chans := [Chan(DEFAULT_QUEUE_SIZE, [m])], acc := AccTop, del := DelSelect, log := FRESH.log.(admitted := [m]))
  }

  lemma ArrivedIsReached(m: Msg)
    requires m.id == ""
    ensures exists es :: Reaches(FRESH, es, Arrived(m))
  {
    var s1 := FRESH.(pending := Some(m), log := FRESH.log.(admitted := [m]));
    assert Apply(FRESH, AdmitMsg(m, 0)) == s1;
    var s2 := s1.(chans := [Chan(1, [])], pending := None, starter := Evaluating(m), acc := AccTop, del := DelSelect);
    assert Apply(s1, Install) == s2;
    var s3 := s2.(starter := Sending(0, m));
    assert Apply(s2, StarterEval) == s3;
    assert Apply(s3, StarterSend) == Arrived(m);
    var r0: seq<Step> := [];
    assert Reaches(FRESH, r0, FRESH);
    Extend(FRESH, r0, FRESH, AdmitMsg(m, 0));
    var r1 := r0 + [AdmitMsg(m, 0)];
    Extend(FRESH, r1, s1, Install);
    var r2 := r1 + [Install];
    Extend(FRESH, r2, s2, StarterEval);
    Extend(FRESH, r2 + [StarterEval], s3, StarterSend);
  }

  /** The accept loop has taken the message and is about to finish it as failed. */
  function Failing(m: Msg): Pipe {
    Arrived(m).(chans := [Chan(DEFAULT_QUEUE_SIZE, [])], slice := Slice(Some(1), map[]), acc := AccFailing(m),
                log := Arrived(m).log.(taken := [m], failed := {0}))
  }

  /** It has just taken it. */
  function Taken(m: Msg): Pipe {
    Arrived(m).(chans := [Chan(DEFAULT_QUEUE_SIZE, [])], acc := AccGot(m), log := Arrived(m).log.(taken := [m]))
  }

  lemma TakenIsReached(m: Msg)
    requires m.id == ""
    ensures exists es :: Reaches(FRESH, es, Taken(m))
  {
    ArrivedIsReached(m);
    var s := Arrived(m);
    var es :| Reaches(FRESH, es, s);
    var s1 := s.(acc := AccSelect(0));
    assert Apply(s, AccEnter) == s1;
    Extend(FRESH, es, s, AccEnter);
    assert [m][1..] == [] && s1.chans[0 := Chan(1, [])] == Taken(m).chans && s1.log.taken + [m] == [m];
    assert Apply(s1, AccReceive) == Taken(m);
    Extend(FRESH, es + [AccEnter], s1, AccReceive);
  }

  lemma FailingIsReached(m: Msg)
    requires m.id == ""
    ensures exists es :: Reaches(FRESH, es, Failing(m))
  {
    TakenIsReached(m);
    var es :| Reaches(FRESH, es, Taken(m));
    var s := Taken(m).(acc := AccMarked(m), slice := Slice(Some(1), map[]));
    assert Apply(Taken(m), AccMark) == s;
    Extend(FRESH, es, Taken(m), AccMark);
    assert FailLast(s.log).failed == {0};
    assert Apply(s, ResolveFail) == Failing(m);
    Extend(FRESH, es + [AccMark], s, ResolveFail);
  }

  /** The state that a foreign resize spoils is an everyday one: after one message the accept
      loop waits on an empty queue. If the accept loop of a stopped generation then replaces
      it by one of another capacity, no message is ever taken again. */
  lemma ForeignResizeStrandsAnIdleBot(m: Msg, size: int)
    requires m.id == "" && QueueSize(size) != DEFAULT_QUEUE_SIZE
    ensures exists es, s ::
              && Reaches(FRESH, es, s) && s.acc == AccSelect(0) && s.starter.Away? && s.log.taken == [m]
              && forall fs, t | Reaches(Resized(s, size), fs, t) :: t.log.taken == [m]
  {
    FailingIsReached(m);
    var es :| Reaches(FRESH, es, Failing(m));
    var s := Idle(Failing(m).log.(finished := multiset{m}));
    IdleIsReached(m, es);
    IdleIsInOrder(es + [FailFinish(0)] + [AccEnter], s);
    forall fs, t | Reaches(Resized(s, size), fs, t)
      ensures t.log.taken == [m]
    {
      ForeignResizeStrandsTheQueue(s, size, fs, t);
    }
  }

  lemma IdleIsInOrder(es: seq<Step>, s: Pipe)
    requires Reaches(FRESH, es, s)
    ensures Shape(s)
  {
    FreshInv();
    InvRun(FRESH, es, s);
  }

  lemma IdleIsReached(m: Msg, es: seq<Step>)
    requires m.id == "" && Reaches(FRESH, es, Failing(m))
    ensures Reaches(FRESH, es + [FailFinish(0)] + [AccEnter], Idle(Failing(m).log.(finished := multiset{m})))
  {
    var s1 := Failing(m).(slice := Slice(Some(0), map[]), acc := AccTop, log := Failing(m).log.(finished := multiset{m}));
    assert Failing(m).log.finished + multiset{m} == multiset{m};
    assert Apply(Failing(m), FailFinish(0)) == s1;
    Extend(FRESH, es, Failing(m), FailFinish(0));
    Extend(FRESH, es + [FailFinish(0)], s1, AccEnter);
  }

  /** Under the sender of the pending message, while the accept loop is elsewhere: that message
      is never taken. */
  lemma ForeignResizeStrandsThePendingMessage(s: Pipe, size: int, es: seq<Step>, t: Pipe, later: int)
    requires Inv(s) && !s.stopped && Unstranded(s)
    requires Replaces(s.chans, QueueSize(size)) && !s.acc.AccSelect? && s.starter.Sending?
    requires Reaches(Resized(s, size), es, t)
    ensures StrandedAt(t, s.starter.ch, s.starter.m)
    ensures !t.stopped && s.starter.m.id != "" ==> !Accepts(t, s.starter.m, later)
  {
    ResizedKeepsKeys(s, size);
    assert Shape(Resized(s, size));
    StrandedIsNeverTaken(Resized(s, size), es, t, s.starter.ch, s.starter.m, later);
  }

  /** When both wait for each other on the replaced channel, the damage can heal: the message
      arrives, and then the accept loop turns to the new queue. */
  lemma ForeignResizeCanHeal(s: Pipe, size: int)
    requires Shape(s) && Unstranded(s)
    requires Replaces(s.chans, QueueSize(size)) && s.acc.AccSelect? && s.starter.Sending?
    ensures var s1 := Resized(s, size);
            && Enabled(s1, StarterSend) && Enabled(Apply(s1, StarterSend), AccReceive)
            && var t := Apply(Apply(s1, StarterSend), AccReceive);
               Shape(t) && Unstranded(t) && t.log.taken == s.log.taken + [s.starter.m]
  {
    var s1 := Resized(s, size);
    var s2 := Apply(s1, StarterSend);
    var i := s.acc.ch;
    assert s2.chans[i].items == [s.starter.m] && s2.chans[i].items[1..] == [];
    var t := Apply(s2, AccReceive);
    assert t.chans == s1.chans;
  }

  /** The pending message of a fresh worker is about to be sent. */
  function Sending0(m: Msg): Pipe {
    FRESH.(chans := [Chan(1, [])], starter := Sending(0, m), acc := AccTop, del := DelSelect,
           log := FRESH.log.(admitted := [m]))
  }

  /** A run that strands the pending message, by a foreign resize in the moment before it is
      sent. */
  lemma ForeignResizeStrandsAFreshBot(m: Msg, size: int)
    requires m.id == "" && QueueSize(size) != DEFAULT_QUEUE_SIZE
    ensures exists es :: Reaches(FRESH, es, Sending0(m))
    ensures forall fs, t | Reaches(Resized(Sending0(m), size), fs, t) :: StrandedAt(t, 0, m)
  {
    PipelineStop.StarterIsReached(m);
    var es :| Reaches(FRESH, es, Sending0(m));
    FreshInv();
    InvRun(FRESH, es, Sending0(m));
    forall fs, t | Reaches(Resized(Sending0(m), size), fs, t)
      ensures StrandedAt(t, 0, m)
    {
      ForeignResizeStrandsThePendingMessage(Sending0(m), size, fs, t, 0);
    }
  }

  /** A message admitted between the evaluation of the queue and the sending of the pending
      message has been taken, and its spec is about to be resolved. */
  function Overtaken(m: Msg, n: Msg): Pipe {
    Sending0(m).(acc := AccMarked(n), slice := Slice(Some(1), map[]),
                 log := FRESH.log.(admitted := [m, n], taken := [n], raced := true))
  }

  lemma OvertakenIsReached(m: Msg, n: Msg)
    requires m.id == "" && n.id == ""
    ensures exists es :: Reaches(FRESH, es, Overtaken(m, n))
  {
    PipelineStop.StarterIsReached(m);
    var s := Sending0(m);
    var es :| Reaches(FRESH, es, s);
    var s1 := s.(chans := [Chan(1, [n])], log := s.log.(admitted := [m, n], raced := true));
    assert s.chans[0].items + [n] == [n] && s.chans[0 := Chan(1, [n])] == s1.chans && [m] + [n] == [m, n];
    assert Apply(s, AdmitMsg(n, 0)) == s1;
    Extend(FRESH, es, s, AdmitMsg(n, 0));
    OvertakerIsTaken(m, n, es + [AdmitMsg(n, 0)], s1);
  }

  lemma OvertakerIsTaken(m: Msg, n: Msg, es: seq<Step>, s1: Pipe)
    requires s1 == Sending0(m).(chans := [Chan(1, [n])], log := FRESH.log.(admitted := [m, n], raced := true))
    requires Reaches(FRESH, es, s1)
    ensures exists fs :: Reaches(FRESH, fs, Overtaken(m, n))
  {
    var s2 := s1.(acc := AccSelect(0));
    assert Apply(s1, AccEnter) == s2;
    Extend(FRESH, es, s1, AccEnter);
    var s3 := s2.(acc := AccGot(n), chans := [Chan(1, [])], log := s2.log.(taken := [n]));
    assert [n][1..] == [] && s2.chans[0 := Chan(1, [])] == s3.chans && s2.log.taken + [n] == [n];
    assert Apply(s2, AccReceive) == s3;
    Extend(FRESH, es + [AccEnter], s2, AccReceive);
    OvertakerIsMarked(m, n, es + [AccEnter] + [AccReceive], s3);
  }

  lemma OvertakerIsMarked(m: Msg, n: Msg, es: seq<Step>, s: Pipe)
    requires s == Overtaken(m, n).(acc := AccGot(n), slice := FRESH.slice) && Reaches(FRESH, es, s)
    ensures exists fs :: Reaches(FRESH, fs, Overtaken(m, n))
  {
    assert Apply(s, AccMark) == Overtaken(m, n);
    Extend(FRESH, es, s, AccMark);
  }

  /** After such a race the bot's own resize does the same: the message that overtook brings a
      queue of another size, and the pending message goes to the replaced one. */
  lemma OwnResizeStrandsThePendingMessage(m: Msg, n: Msg, size: int)
    requires m.id == "" && n.id == "" && QueueSize(size) != DEFAULT_QUEUE_SIZE
    ensures exists es, s :: Reaches(FRESH, es, s) && s.starter == Sending(0, m) && !s.stopped
                            && forall fs, t | Reaches(s, fs, t) :: StrandedAt(t, 0, m)
  {
    OvertakenIsReached(m, n);
    var es :| Reaches(FRESH, es, Overtaken(m, n));
    Extend(FRESH, es, Overtaken(m, n), ResolveOk(size, None));
    var s := Apply(Overtaken(m, n), ResolveOk(size, None));
    IdleIsInOrder(es + [ResolveOk(size, None)], s);
    forall fs, t | Reaches(s, fs, t)
      ensures StrandedAt(t, 0, m)
    {
      StrandedStays(s, fs, t, 0, m);
    }
  }

  // ---------------------------------------------------------------- finishMessage and markMessageStarted

  /** finishMessage looks the bot up by id, too. A turn of a stopped generation that finishes
      a message leaves its successor in order exactly when the id is not in progress there,
      or, for a message without an id, when the successor has accepted nothing. */
  lemma ForeignFinishIsHarmlessExactlyWhen(s: Pipe, id: string, ok: bool, now: int)
    requires Inv(s) && !s.stopped
    ensures Inv(s.(slice := SliceStep(s.slice, Finish("", id, ok, now)).0)) <==>
            (id != "" && !InProgress(s, id)) || (id == "" && Accepted(s) == 0)
  {
    var t := s.(slice := SliceStep(s.slice, Finish("", id, ok, now)).0);
    if (id != "" && !InProgress(s, id)) || (id == "" && Accepted(s) == 0) {
      assert t == s;
    } else if id != "" {
      var m: Msg :| m.id == id && Holders(s, m) > 0;
      assert Holders(t, m) > 0 && !InProgress(t, id);
      assert !Keys(t);
    } else {
      assert !ActiveOk(t);
    }
  }

  /** The state after the accept loop of another generation has called markMessageStarted. */
  function Marked(s: Pipe): Pipe {
    s.(slice := SliceStep(s.slice, MarkStarted("")).0)
  }

  /** So does markMessageStarted, and that is never harmless: the count is one too high from
      then on. */
  lemma ForeignMarkIsNeverHarmless(s: Pipe)
    requires Inv(s) && !s.stopped
    ensures ActiveIs(Marked(s), 1) && !Inv(Marked(s))
  {
    assert !ActiveOk(Marked(s));
  }

  lemma {:induction false} ActiveRun(s: Pipe, es: seq<Step>, t: Pipe, extra: nat)
    requires Shape(s) && (!s.stopped ==> Keys(s) && ActiveIs(s, extra)) && Reaches(s, es, t)
    ensures Shape(t) && (!t.stopped ==> Keys(t) && ActiveIs(t, extra))
    decreases |es|
  {
    if es == [] {
    } else {
      ShapeStep(s, es[0]);
      if !Apply(s, es[0]).stopped {
        KeysStep(s, es[0]);
        ActiveStep(s, es[0], extra);
      }
      ActiveRun(Apply(s, es[0]), es[1..], t, extra);
    }
  }

  /** The successor never gets rid of it: as long as it lives, its active count is one more
      than the messages it has accepted and not finished. */
  lemma ForeignMarkStays(s: Pipe, es: seq<Step>, t: Pipe)
    requires Inv(s) && !s.stopped && Reaches(Marked(s), es, t) && !t.stopped
    ensures t.slice.active == Some(Accepted(t) + 1)
  {
    var u := Marked(s);
    forall m
      ensures Holders(u, m) == Holders(s, m)
    {
    }
    MarkedKeepsKeys(s);
    ActiveRun(u, es, t, 1);
  }

  lemma MarkedKeepsKeys(s: Pipe)
    requires Inv(s) && !s.stopped
    ensures Shape(Marked(s)) && Keys(Marked(s)) && ActiveIs(Marked(s), 1)
  {
    var u := Marked(s);
    forall id
      ensures InProgress(u, id) <==> InProgress(s, id)
    {
    }
    forall m
      ensures Holders(u, m) == Holders(s, m)
    {
    }
    forall id | InProgress(u, id)
      ensures exists m: Msg :: m.id == id && Holders(u, m) > 0
    {
      var m: Msg :| m.id == id && Holders(s, m) > 0;
      assert Holders(u, m) > 0;
    }
  }

  /** The finish of the message that was marked puts it right exactly if that message has no
      id; with an id that is not in progress in the successor it returns early. */
  lemma ForeignFinishUndoesTheMarkExactlyWhen(s: Pipe, id: string, ok: bool, now: int)
    requires Inv(s) && !s.stopped && !InProgress(s, id)
    ensures SliceStep(Marked(s).slice, Finish("", id, ok, now)).0 == s.slice <==> id == ""
  {
  }
}
