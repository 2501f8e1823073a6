/** What travels from the reader of an agent process to the turn in progress. */
module TurnEvents {
  import opened AgentStates

  datatype Event = Text(s: string) | Completed | Failure

  datatype Result = Answer(text: string) | Failed

  function Completions(ch: seq<Event>): nat {
    if ch == [] then 0 else (if ch[0].Completed? then 1 else 0) + Completions(ch[1..])
  }

  /** The texts in front of the first completion. */
  function Texts(ch: seq<Event>): seq<string> {
    if ch == [] then []
    else
      match ch[0]
      case Text(s) => [s] + Texts(ch[1..])
      case Completed => []
      case Failure => Texts(ch[1..])
  }

  lemma {:induction false} Append(ch: seq<Event>, e: Event)
    ensures Completions(ch + [e]) == Completions(ch) + (if e.Completed? then 1 else 0)
    ensures Texts(ch + [e]) == Texts(ch) + (if e.Text? && Completions(ch) == 0 then [e.s] else [])
  {
    if ch == [] {
      assert (ch + [e])[1..] == [];
    } else {
      assert (ch + [e])[1..] == ch[1..] + [e];
      Append(ch[1..], e);
    }
  }
}
