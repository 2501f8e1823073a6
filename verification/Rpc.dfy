/** Request and answer over one stream, as the opencode and codex runtimes do it: any number
    of callers, one reader. A response carries the id of its request (section 5 of the
    JSON-RPC 2.0 Specification). */
module Rpc {
  import opened Common

  datatype Response = Reply(id: nat, body: string) | ReadFailed

  datatype Outcome = Got(r: Response) | CtxDone | StdinClosed | WriteFailed

  /** One call of rpc; the position in the list of calls is its id. */
  datatype Call =
    | Begun                   // id taken, not registered yet
    | Registered              // in pending, request not written yet
    | Waiting
    | Leaving(o: Outcome)     // the deferred delete has not run yet
    | Returned(o: Outcome)

  datatype Reader =
    | Reading
    | Sending(id: nat, r: Response)   // the waiting channel has been looked up
    | Flushing(left: set<nat>)        // the stream has ended
    | Gone

  datatype Net = Net(
    calls: seq<Call>,
    chans: seq<seq<Response>>,   // the one-place channel of each call
    pending: set<nat>,
    stdinOpen: bool,
    reader: Reader,
    answers: multiset<nat>,      // response lines read so far, by id
    delivered: multiset<nat>)    // responses put into channels so far, by id

  const FRESH := Net([], [], {}, true, Reading, multiset{}, multiset{})

  datatype Step =
    | Begin
    | Register(i: nat)
    | Write(i: nat, ok: bool)
    | Cancel(i: nat)
    | Receive(i: nat)
    | Deregister(i: nat)
    | Line(id: nat, body: string)
    | Deliver
    | EndOfStream
    | FlushOne(i: nat)
    | FlushEnd
    | CloseStdin

  function CallOf(s: Net, i: nat): Option<Call> {
    if i < |s.calls| then Some(s.calls[i]) else None
  }

  predicate Enabled(s: Net, e: Step) {
    match e
    case Begin => true
    case Register(i) => CallOf(s, i) == Some(Begun)
    case Write(i, _) => CallOf(s, i) == Some(Registered)
    case Cancel(i) => CallOf(s, i) == Some(Waiting)
    case Receive(i) => CallOf(s, i) == Some(Waiting) && i < |s.chans| && s.chans[i] != []
    case Deregister(i) => i < |s.calls| && s.calls[i].Leaving?
    case Line(_, _) => s.reader.Reading?
    case Deliver => s.reader.Sending? && s.reader.id < |s.chans| && s.chans[s.reader.id] == []
    case EndOfStream => s.reader.Reading?
    case FlushOne(i) => s.reader.Flushing? && i in s.reader.left && i < |s.chans| && s.chans[i] == []
    case FlushEnd => s.reader == Flushing({})
    case CloseStdin => true
  }

  function Apply(s: Net, e: Step): Net
    requires Enabled(s, e)
  {
    match e
    case Begin => s.(calls := s.calls + [Begun], chans := s.chans + [[]])
    case Register(i) =>
      if s.stdinOpen then s.(calls := s.calls[i := Registered], pending := s.pending + {i})
      else s.(calls := s.calls[i := Returned(StdinClosed)])
    case Write(i, ok) => s.(calls := s.calls[i := if ok then Waiting else Leaving(WriteFailed)])
    case Cancel(i) => s.(calls := s.calls[i := Leaving(CtxDone)])
    case Receive(i) => s.(calls := s.calls[i := Leaving(Got(s.chans[i][0]))], chans := s.chans[i := s.chans[i][1..]])
    case Deregister(i) => s.(calls := s.calls[i := Returned(s.calls[i].o)], pending := s.pending - {i})
    case Line(id, body) =>
      s.(answers := s.answers + multiset{id},
         reader := if id in s.pending then Sending(id, Reply(id, body)) else Reading)
    case Deliver =>
      var i := s.reader.id;
      s.(reader := Reading, chans := s.chans[i := s.chans[i] + [s.reader.r]], delivered := s.delivered + multiset{i})
    case EndOfStream => s.(reader := Flushing(s.pending))
    case FlushOne(i) =>
      s.(reader := Flushing(s.reader.left - {i}), chans := s.chans[i := s.chans[i] + [ReadFailed]])
    case FlushEnd => s.(reader := Gone)
    case CloseStdin => s.(stdinOpen := false)
  }

  ghost predicate Reaches(s: Net, es: seq<Step>, t: Net)
    decreases |es|
  {
    if es == [] then s == t else Enabled(s, es[0]) && Reaches(Apply(s, es[0]), es[1..], t)
  }

  // ---------------------------------------------------------------- critical sections

  /** The fields of a runtime that rpc and the reader share; a channel is known by its call. */
  class Correlator {
    var nextID: nat
    var pending: map<nat, nat>
    var stdinOpen: bool

    /** The fields are those of the machine's state s. */
    ghost predicate Mirrors(s: Net)
      reads this
    {
      && nextID == |s.calls| && stdinOpen == s.stdinOpen
      && pending.Keys == s.pending && forall i | i in pending :: pending[i] == i
    }

    constructor ()
      ensures Mirrors(FRESH)
    {
      nextID, pending, stdinOpen := 0, map[], true;
    }

    method TakeID(ghost s: Net) returns (id: nat)
      requires Mirrors(s)
      modifies this`nextID
      ensures Mirrors(Apply(s, Begin)) && CallOf(s, id).None? && CallOf(Apply(s, Begin), id) == Some(Begun)
    {
      id := nextID;
      nextID := nextID + 1;
    }

    method RegisterCall(id: nat, ghost s: Net) returns (ok: bool)
      requires Mirrors(s) && Enabled(s, Register(id))
      modifies this`pending
      ensures Mirrors(Apply(s, Register(id)))
      ensures CallOf(Apply(s, Register(id)), id) == Some(if ok then Registered else Returned(StdinClosed))
    {
      if !stdinOpen {
        return false;
      }
      pending := pending[id := id];
      return true;
    }

    /** The deferred delete of rpc. */
    method DeregisterCall(id: nat, ghost s: Net)
      requires Mirrors(s) && Enabled(s, Deregister(id))
      modifies this`pending
      ensures Mirrors(Apply(s, Deregister(id)))
    {
      pending := pending - {id};
    }

    /** The reader looks up the channel for a response line. */
    method Lookup(r: Response, ghost s: Net) returns (next: Reader)
      requires Mirrors(s) && s.reader.Reading? && r.Reply?
      ensures next == Apply(s, Line(r.id, r.body)).reader && Mirrors(Apply(s, Line(r.id, r.body)))
    {
      if r.id in pending {
        return Sending(pending[r.id], r);
      }
      return Reading;
    }

    /** The reader collects the channels to tell that the stream has ended. */
    method PendingChannels(ghost s: Net) returns (chs: set<nat>)
      requires Mirrors(s) && s.reader.Reading?
      ensures Flushing(chs) == Apply(s, EndOfStream).reader
    {
      chs := {};
      var todo := pending.Keys;
      while todo != {}
        invariant todo <= pending.Keys && chs == pending.Keys - todo
        decreases todo
      {
        var id :| id in todo;
        chs := chs + {pending[id]};
        todo := todo - {id};
      }
    }

    method Close(ghost s: Net)
      requires Mirrors(s)
      modifies this`stdinOpen
      ensures Mirrors(Apply(s, CloseStdin))
    {
      stdinOpen := false;
    }
  }

  // ---------------------------------------------------------------- invariant

  predicate StreamOpen(r: Reader) {
    r.Reading? || r.Sending?
  }

  /** A response that call i may see: its own, or the end of the stream. */
  predicate Own(s: Net, i: nat, r: Response) {
    match r
    case Reply(id, _) => id == i
    case ReadFailed => !StreamOpen(s.reader)
  }

  predicate InFlight(c: Call) {
    c.Registered? || c.Waiting? || c.Leaving?
  }

  predicate OutcomeOk(s: Net, i: nat, c: Call) {
    (c.Leaving? || c.Returned?) && c.o.Got? ==> Own(s, i, c.o.r)
  }

  ghost predicate CallsOk(s: Net) {
    && |s.chans| == |s.calls|
    && (forall i: nat :: i in s.pending <==> i < |s.calls| && InFlight(s.calls[i]))
    && (forall i: nat | i < |s.calls| :: OutcomeOk(s, i, s.calls[i]))
  }

  ghost predicate ChansOk(s: Net) {
    forall i: nat | i < |s.chans| :: |s.chans[i]| <= 1 && (s.chans[i] != [] ==> Own(s, i, s.chans[i][0]))
  }

  ghost predicate ReaderOk(s: Net) {
    && (s.reader.Sending? ==> s.reader.id < |s.calls| && s.reader.r.Reply? && s.reader.r.id == s.reader.id)
    && (s.reader.Flushing? ==> forall i | i in s.reader.left :: i < |s.calls|)
  }

  function BeingSent(r: Reader, i: nat): nat {
    if r.Sending? && r.id == i then 1 else 0
  }

  predicate ToldOfEnd(r: Reader, i: nat) {
    r.Gone? || (r.Flushing? && i !in r.left)
  }

  /** Until it is told of the end of the stream, a channel only holds what has been delivered
      to it, and each delivery used up one response line. */
  ghost predicate DeliveryOk(s: Net) {
    && (forall i: nat :: s.delivered[i] + BeingSent(s.reader, i) <= s.answers[i])
    && (forall i: nat | i < |s.chans| && s.chans[i] != [] && !ToldOfEnd(s.reader, i) ::
          s.delivered[i] >= 1 && s.chans[i][0].Reply?)
  }

  ghost predicate Inv(s: Net) {
    CallsOk(s) && ChansOk(s) && ReaderOk(s) && DeliveryOk(s)
  }

  /** The steps of the callers, seen at call i. */
  lemma CallStep(s: Net, e: Step, i: nat)
    requires CallsOk(s) && ChansOk(s) && Enabled(s, e)
    ensures var t := Apply(s, e);
            && (i in t.pending <==> i < |t.calls| && InFlight(t.calls[i]))
            && (i < |t.calls| ==> OutcomeOk(t, i, t.calls[i]))
  {
    assert i < |s.calls| ==> OutcomeOk(s, i, s.calls[i]);
  }

  lemma CallsStep(s: Net, e: Step)
    requires Inv(s) && Enabled(s, e)
    ensures CallsOk(Apply(s, e))
  {
    forall i: nat
      ensures var t := Apply(s, e);
              && (i in t.pending <==> i < |t.calls| && InFlight(t.calls[i]))
              && (i < |t.calls| ==> OutcomeOk(t, i, t.calls[i]))
    {
      CallStep(s, e, i);
    }
  }

  lemma ChansStep(s: Net, e: Step)
    requires Inv(s) && Enabled(s, e)
    ensures ChansOk(Apply(s, e)) && ReaderOk(Apply(s, e))
  {
  }

  lemma DeliveryStep(s: Net, e: Step)
    requires Inv(s) && Enabled(s, e)
    ensures DeliveryOk(Apply(s, e))
  {
  }

  lemma {:induction false} InvRun(s: Net, es: seq<Step>, t: Net)
    requires Inv(s) && Reaches(s, es, t)
    ensures Inv(t)
    decreases |es|
  {
    if es == [] {
    } else {
      CallsStep(s, es[0]);
      ChansStep(s, es[0]);
      DeliveryStep(s, es[0]);
      InvRun(Apply(s, es[0]), es[1..], t);
    }
  }

  // ---------------------------------------------------------------- main results

  /** Whatever the callers do and whatever lines come in, a call that returns with a response
      returns with one that carries its own id (or with the end of the stream), and pending
      is exactly the calls that are registered and have not returned. */
  lemma ResponsesAreCorrelated(es: seq<Step>, t: Net)
    requires Reaches(FRESH, es, t)
    ensures forall i: nat | i < |t.calls| && t.calls[i].Returned? && t.calls[i].o.Got? && t.calls[i].o.r.Reply? ::
              t.calls[i].o.r.id == i
    ensures forall i: nat | i < |t.calls| && t.calls[i].Returned? && t.calls[i].o.Got? && t.calls[i].o.r.ReadFailed? ::
              !StreamOpen(t.reader)
    ensures forall i: nat :: i in t.pending <==> i < |t.calls| && InFlight(t.calls[i])
  {
    InvRun(FRESH, es, t);
    assert forall i: nat | i < |t.calls| :: OutcomeOk(t, i, t.calls[i]);
  }

  /** A line with an id that is unknown, or whose call has returned, changes nothing. */
  lemma LateAndUnknownIdsAreIgnored(es: seq<Step>, t: Net, id: nat, body: string)
    requires Reaches(FRESH, es, t) && t.reader.Reading?
    requires id >= |t.calls| || t.calls[id].Begun? || t.calls[id].Returned?
    ensures Apply(t, Line(id, body)) == t.(answers := t.answers + multiset{id})
  {
    InvRun(FRESH, es, t);
  }

  /** After the end of the stream the reader tells every call still pending; it is held up
      exactly by a call with an answer in its channel that it has not picked up. */
  lemma FlushIsHeldUpExactlyWhen(es: seq<Step>, t: Net, i: nat)
    requires Reaches(FRESH, es, t) && t.reader.Flushing? && i in t.reader.left
    ensures i < |t.chans| && (Enabled(t, FlushOne(i)) <==> t.chans[i] == [])
    ensures !Enabled(t, FlushOne(i)) ==> t.answers[i] >= 1 && t.chans[i][0].Reply?
  {
    InvRun(FRESH, es, t);
  }

  /** While the stream is open the reader can be held up only by a call that has already been
      sent a response it has not picked up; so if no id is answered twice it is never held up. */
  lemma ReaderIsHeldUpExactlyWhen(es: seq<Step>, t: Net)
    requires Reaches(FRESH, es, t) && t.reader.Sending?
    ensures t.reader.id < |t.chans| && (Enabled(t, Deliver) <==> t.chans[t.reader.id] == [])
    ensures !Enabled(t, Deliver) ==> t.answers[t.reader.id] >= 2
    ensures (forall i: nat :: t.answers[i] <= 1) ==> Enabled(t, Deliver)
  {
    InvRun(FRESH, es, t);
  }

  /** Then it stays held up for good if the caller has stopped listening: a second answer to
      a cancelled call that never picked up the first one ends all reading. */
  lemma {:induction false} SecondAnswerCanStopTheReader(s: Net, es: seq<Step>, t: Net)
    requires s.reader.Sending? && s.reader.id < |s.calls| && s.reader.id < |s.chans|
    requires s.chans[s.reader.id] != []
    requires s.calls[s.reader.id].Leaving? || s.calls[s.reader.id].Returned?
    requires Reaches(s, es, t)
    ensures t.reader == s.reader && !Enabled(t, Deliver)
    decreases |es|
  {
    if es == [] {
    } else {
      SecondAnswerCanStopTheReader(Apply(s, es[0]), es[1..], t);
    }
  }

  lemma {:induction false} Extend(s: Net, es: seq<Step>, t: Net, e: Step)
    requires Reaches(s, es, t) && Enabled(t, e)
    ensures Reaches(s, es + [e], Apply(t, e))
    decreases |es|
  {
    if es == [] {
      assert [e][1..] == [];
    } else {
      assert (es + [e])[1..] == es[1..] + [e];
      Extend(Apply(s, es[0]), es[1..], t, e);
    }
  }

  /** A call that has its answer in its channel and has not picked it up. */
  function Answered(r: Response): Net {
    Net([Waiting], [[r]], {0}, true, Reading, multiset{0}, multiset{0})
  }

  lemma AnsweredIsReached(body: string)
    ensures exists es :: Reaches(FRESH, es, Answered(Reply(0, body)))
  {
    var r := Reply(0, body);
    var none: seq<Response> := [];
    var s1 := FRESH.(calls := [Begun], chans := [none]);
    assert Apply(FRESH, Begin) == s1;
    var s2 := s1.(calls := [Registered], pending := {0});
    assert Apply(s1, Register(0)) == s2;
    var s3 := s2.(calls := [Waiting]);
    assert Apply(s2, Write(0, true)) == s3;
    var r0: seq<Step> := [];
    Extend(FRESH, r0, FRESH, Begin);
    var r1 := r0 + [Begin];
    Extend(FRESH, r1, s1, Register(0));
    var r2 := r1 + [Register(0)];
    Extend(FRESH, r2, s2, Write(0, true));
    AnswerArrives(r2 + [Write(0, true)], s3, body);
  }

  lemma AnswerArrives(es: seq<Step>, s: Net, body: string)
    requires Reaches(FRESH, es, s) && s == Net([Waiting], [[]], {0}, true, Reading, multiset{}, multiset{})
    ensures Reaches(FRESH, es + [Line(0, body)] + [Deliver], Answered(Reply(0, body)))
  {
    var r := Reply(0, body);
    var t := s.(answers := multiset{0}, reader := Sending(0, r));
    assert Apply(s, Line(0, body)) == t;
    Extend(FRESH, es, s, Line(0, body));
    assert s.chans[0] + [r] == [r] && s.chans[0 := [r]] == [[r]];
    assert Apply(t, Deliver) == Answered(r);
    Extend(FRESH, es + [Line(0, body)], t, Deliver);
  }

  /** Such a state is reachable. */
  lemma SecondAnswerExample(body: string)
    ensures exists es, t :: Reaches(FRESH, es, t) && t.reader == Sending(0, Reply(0, body))
                            && |t.calls| == 1 && t.calls[0] == Leaving(CtxDone) && t.chans == [[Reply(0, body)]]
  {
    var r := Reply(0, body);
    AnsweredIsReached(body);
    var es :| Reaches(FRESH, es, Answered(r));
    var s1 := Answered(r).(answers := multiset{0, 0}, reader := Sending(0, r));
    assert Apply(Answered(r), Line(0, body)) == s1;
    Extend(FRESH, es, Answered(r), Line(0, body));
    assert Apply(s1, Cancel(0)) == s1.(calls := [Leaving(CtxDone)]);
    Extend(FRESH, es + [Line(0, body)], s1, Cancel(0));
  }
}
