/** The scheduler of an agent session: a table of periodic tasks with its own mutex, whose
    timers are stopped outside that mutex. */
module Scheduler {
  import opened Common

  datatype Task = Task(id: string, interval: int, prompt: string)

  /** One registration; stops counts the calls of its stop function. */
  datatype Timer = Timer(task: Task, stops: nat)

  datatype Sched = Sched(
    timers: seq<Timer>,        // every registration ever made, oldest first
    tasks: map<string, nat>,   // the table: id to position in timers
    taskSeq: nat,
    closed: bool,
    stopping: multiset<nat>,   // taken out of the table, stop not called yet
    generated: seq<string>)    // every id ever generated

  const NEW_SCHED := Sched([], map[], 0, false, multiset{}, [])

  datatype Reply = Registered(id: string) | BadInterval | BadPrompt | SessionClosed | Exists(id: string)

  // ---------------------------------------------------------------- generated ids

  function Decimal(n: nat): string {
    if n < 10 then [Digit(n)] else Decimal(n / 10) + [Digit(n % 10)]
  }

  function Digit(d: nat): char
    requires d < 10
  {
    "0123456789"[d]
  }

  /** What a string of digits denotes. */
  function Value(s: string): nat
    decreases |s|
  {
    if s == [] then 0 else 10 * Value(s[..|s| - 1]) + DigitValue(s[|s| - 1])
  }

  function DigitValue(c: char): nat {
    if '0' <= c <= '9' then (c - '0') as nat else 0
  }

  lemma DigitRoundTrip(d: nat)
    requires d < 10
    ensures DigitValue(Digit(d)) == d
  {
    assert "0123456789"[d] == '0' + d as char;
  }

  /** Reading back a rendered number gives the number. */
  lemma {:induction false} DecimalRoundTrip(n: nat)
    ensures Value(Decimal(n)) == n
  {
    DigitRoundTrip(n % 10);
    var s := Decimal(n);
    if n < 10 {
      assert s[..|s| - 1] == [];
    } else {
      DecimalRoundTrip(n / 10);
      assert s[..|s| - 1] == Decimal(n / 10) && s[|s| - 1] == Digit(n % 10);
    }
  }

  function TaskId(n: nat): string {
    "task-" + Decimal(n)
  }

  lemma TaskIdInjective(m: nat, n: nat)
    ensures TaskId(m) == TaskId(n) <==> m == n
  {
    assert TaskId(m)[5..] == Decimal(m) && TaskId(n)[5..] == Decimal(n);
    DecimalRoundTrip(m);
    DecimalRoundTrip(n);
  }

  // ---------------------------------------------------------------- critical sections

  predicate Blank(s: string) {
    forall i | 0 <= i < |s| :: IsSpace(s[i])
  }

  /** The id under which t is registered. */
  function IdFor(c: Sched, t: Task): string {
    if t.id == "" then TaskId(c.taskSeq + 1) else t.id
  }

  function ScheduleReply(c: Sched, t: Task): Reply {
    if t.interval <= 0 then BadInterval
    else if Blank(t.prompt) then BadPrompt
    else if c.closed then SessionClosed
    else if IdFor(c, t) in c.tasks then Exists(IdFor(c, t))
    else Registered(IdFor(c, t))
  }

  /** A refused duplicate still uses up a number. */
  function ScheduleSpec(c: Sched, t: Task): Sched {
    var reply := ScheduleReply(c, t);
    if reply.BadInterval? || reply.BadPrompt? || reply.SessionClosed? then c
    else
      var d := if t.id == "" then c.(taskSeq := c.taskSeq + 1, generated := c.generated + [IdFor(c, t)]) else c;
      if reply.Exists? then d
      else d.(timers := c.timers + [Timer(t.(id := reply.id), 0)], tasks := c.tasks[reply.id := |c.timers|])
  }

  function CancelSpec(c: Sched, id: string): Sched {
    if id in c.tasks then c.(tasks := c.tasks - {id}, stopping := c.stopping + multiset{c.tasks[id]}) else c
  }

  function StopAllSpec(c: Sched, markClosed: bool): Sched {
    c.(closed := c.closed || markClosed, tasks := map[], stopping := c.stopping + multiset(c.tasks.Values))
  }

  /** A goroutine that took registration n out of the table calls its stop function. */
  function StopTimerSpec(c: Sched, n: nat): Sched
    requires n < |c.timers|
  {
    c.(stopping := c.stopping - multiset{n}, timers := c.timers[n := c.timers[n].(stops := c.timers[n].stops + 1)])
  }

  datatype Step = Schedule(t: Task) | Cancel(id: string) | StopAll(markClosed: bool) | StopTimer(n: nat)

  predicate Enabled(c: Sched, e: Step) {
    e.StopTimer? ==> e.n < |c.timers| && e.n in c.stopping
  }

  function Apply(c: Sched, e: Step): Sched
    requires Enabled(c, e)
  {
    match e
    case Schedule(t) => ScheduleSpec(c, t)
    case Cancel(id) => CancelSpec(c, id)
    case StopAll(m) => StopAllSpec(c, m)
    case StopTimer(n) => StopTimerSpec(c, n)
  }

  ghost predicate Reaches(c: Sched, es: seq<Step>, d: Sched)
    decreases |es|
  {
    if es == [] then c == d else Enabled(c, es[0]) && Reaches(Apply(c, es[0]), es[1..], d)
  }

  // ---------------------------------------------------------------- invariant

  predicate InTable(c: Sched, n: nat) {
    n < |c.timers| && c.timers[n].task.id in c.tasks && c.tasks[c.timers[n].task.id] == n
  }

  predicate Balanced(c: Sched, n: nat)
    requires n < |c.timers|
  {
    (if InTable(c, n) then 1 else 0) + c.stopping[n] + c.timers[n].stops == 1
  }

  /** The table is consistent, and each registration is in the table, or taken out with its
      stop still to be called, or stopped once: exactly one of the three. */
  ghost predicate Inv(c: Sched) {
    && (forall id | id in c.tasks :: c.tasks[id] < |c.timers| && c.timers[c.tasks[id]].task.id == id)
    && (forall n: nat | n < |c.timers| :: Balanced(c, n))
    && (forall n | n in c.stopping :: n < |c.timers|)
    && (c.closed ==> c.tasks == map[])
    && |c.generated| == c.taskSeq
    && (forall i: nat | i < |c.generated| :: c.generated[i] == TaskId(i + 1))
  }

  lemma TableValues(c: Sched, n: nat)
    requires Inv(c) && n < |c.timers|
    ensures n in c.tasks.Values <==> InTable(c, n)
    ensures multiset(c.tasks.Values)[n] == if InTable(c, n) then 1 else 0
  {
    forall id | id in c.tasks && c.tasks[id] == n
      ensures InTable(c, n)
    {
    }
  }

  lemma ScheduleKeepsInv(c: Sched, t: Task)
    requires Inv(c)
    ensures Inv(ScheduleSpec(c, t))
  {
    var d := ScheduleSpec(c, t);
    forall n: nat | n < |d.timers|
      ensures Balanced(d, n)
    {
      if n < |c.timers| {
        assert Balanced(c, n);
        assert InTable(d, n) <==> InTable(c, n);
      }
    }
  }

  lemma CancelKeepsInv(c: Sched, id: string)
    requires Inv(c)
    ensures Inv(CancelSpec(c, id))
  {
    var d := CancelSpec(c, id);
    forall n: nat | n < |d.timers|
      ensures Balanced(d, n)
    {
      assert Balanced(c, n);
    }
  }

  lemma StopAllKeepsInv(c: Sched, m: bool)
    requires Inv(c)
    ensures Inv(StopAllSpec(c, m))
  {
    var d := StopAllSpec(c, m);
    forall n: nat | n < |d.timers|
      ensures Balanced(d, n)
    {
      assert Balanced(c, n);
      TableValues(c, n);
    }
  }

  lemma StopTimerKeepsInv(c: Sched, k: nat)
    requires Inv(c) && Enabled(c, StopTimer(k))
    ensures Inv(StopTimerSpec(c, k))
  {
    var d := StopTimerSpec(c, k);
    forall n: nat | n < |d.timers|
      ensures Balanced(d, n)
    {
      assert Balanced(c, n);
    }
  }

  lemma InvStep(c: Sched, e: Step)
    requires Inv(c) && Enabled(c, e)
    ensures Inv(Apply(c, e))
  {
    match e {
      case Schedule(t) => ScheduleKeepsInv(c, t);
      case Cancel(id) => CancelKeepsInv(c, id);
      case StopAll(m) => StopAllKeepsInv(c, m);
      case StopTimer(n) => StopTimerKeepsInv(c, n);
    }
  }

  lemma {:induction false} InvRun(c: Sched, es: seq<Step>, d: Sched)
    requires Inv(c) && Reaches(c, es, d)
    ensures Inv(d)
    decreases |es|
  {
    if es == [] {
    } else {
      InvStep(c, es[0]);
      InvRun(Apply(c, es[0]), es[1..], d);
    }
  }

  // ---------------------------------------------------------------- main results

  /** Over every interleaving: no stop channel is closed twice, a generated id never comes
      back, a closed scheduler is empty, and when no stop is outstanding the timers that
      still run are exactly the table. */
  lemma EveryRegistrationEndsOnce(es: seq<Step>, d: Sched)
    requires Reaches(NEW_SCHED, es, d)
    ensures forall n: nat | n < |d.timers| :: d.timers[n].stops + d.stopping[n] <= 1
    ensures forall i: nat, j: nat | i < j < |d.generated| :: d.generated[i] != d.generated[j]
    ensures d.closed ==> d.tasks == map[]
    ensures d.stopping == multiset{} ==> forall n: nat | n < |d.timers| :: d.timers[n].stops == 0 <==> n in d.tasks.Values
  {
    InvRun(NEW_SCHED, es, d);
    forall n: nat | n < |d.timers|
      ensures d.timers[n].stops + d.stopping[n] <= 1
    {
      assert Balanced(d, n);
    }
    forall i: nat, j: nat | i < j < |d.generated|
      ensures d.generated[i] != d.generated[j]
    {
      TaskIdInjective(i + 1, j + 1);
    }
    forall n: nat | n < |d.timers| && d.stopping == multiset{}
      ensures d.timers[n].stops == 0 <==> n in d.tasks.Values
    {
      TableValues(d, n);
      assert Balanced(d, n);
    }
  }

  /** Once closed the scheduler stays closed and empty, and registers nothing more. */
  lemma {:induction false} ClosedStaysEmpty(c: Sched, es: seq<Step>, d: Sched)
    requires Inv(c) && c.closed && Reaches(c, es, d)
    ensures d.closed && d.tasks == map[] && |d.timers| == |c.timers|
    decreases |es|
  {
    if es == [] {
    } else {
      InvStep(c, es[0]);
      ClosedStaysEmpty(Apply(c, es[0]), es[1..], d);
    }
  }

  /** Registering never replaces a running task: a reply other than Registered adds nothing,
      Registered adds one entry under an id that was free, and all others stay. */
  lemma ScheduleNeverOverwrites(c: Sched, t: Task)
    requires Inv(c)
    ensures forall id | id in c.tasks :: id in ScheduleSpec(c, t).tasks && ScheduleSpec(c, t).tasks[id] == c.tasks[id]
    ensures ScheduleReply(c, t).Registered? <==> ScheduleSpec(c, t).tasks != c.tasks
    ensures ScheduleReply(c, t).Registered? ==>
              ScheduleReply(c, t).id !in c.tasks && ScheduleSpec(c, t).tasks.Keys == c.tasks.Keys + {ScheduleReply(c, t).id}
  {
    if ScheduleReply(c, t).Registered? {
      assert ScheduleReply(c, t).id in ScheduleSpec(c, t).tasks;
    }
  }

  /** A goroutine whose turn fails cancels its task by id, and so takes out exactly the
      registration now under that id, which need not be its own. */
  lemma FailedTickCancelsItsOwnExactlyWhen(c: Sched, n: nat)
    requires Inv(c) && n < |c.timers|
    ensures var id := c.timers[n].task.id;
            && (CancelSpec(c, id) == c <==> id !in c.tasks)
            && (id in c.tasks ==> (CancelSpec(c, id).stopping == c.stopping + multiset{n} <==> InTable(c, n)))
  {
    var id := c.timers[n].task.id;
    if id in c.tasks {
      assert id !in CancelSpec(c, id).tasks;
      if c.tasks[id] != n {
        assert (c.stopping + multiset{c.tasks[id]})[n] != (c.stopping + multiset{n})[n];
      }
    }
  }

  /** An example: the id "x" is cancelled and registered again, then the first goroutine's
      last tick fails and cancels the second registration. */
  lemma StaleTickCancelsSuccessor(t: Task)
    requires t.id == "x" && t.interval > 0 && !Blank(t.prompt)
    ensures var c1 := ScheduleSpec(CancelSpec(ScheduleSpec(NEW_SCHED, t), "x"), t);
            var c2 := CancelSpec(c1, c1.timers[0].task.id);
            c1.tasks == map["x" := 1] && c2.tasks == map[] && 1 in c2.stopping
  {
    var c0 := ScheduleSpec(NEW_SCHED, t);
    assert c0.tasks == map["x" := 0];
    assert CancelSpec(c0, "x").tasks == map[];
  }
}
