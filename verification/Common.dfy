/** Small shared datatypes. */
module Common {

  datatype Option<+T> = None | Some(value: T)

  /** Zero or one elements, as a sequence. */
  function AsSeq<T>(o: Option<T>): seq<T> {
    match o
    case None => []
    case Some(v) => [v]
  }

  /** Zero or one elements, as a multiset. */
  function AsMultiset<T(==)>(o: Option<T>): multiset<T> {
    match o
    case None => multiset{}
    case Some(v) => multiset{v}
  }

  /** White space as strings.TrimSpace sees it, within Latin-1. */
  predicate IsSpace(c: char) {
    c == ' ' || '\t' <= c <= '\r' || c == '\U{85}' || c == '\U{A0}'
  }

  function Trim(s: string): string
    decreases |s|
  {
    if s == [] then s
    else if IsSpace(s[0]) then Trim(s[1..])
    else if IsSpace(s[|s| - 1]) then Trim(s[..|s| - 1])
    else s
  }

  function Concat(parts: seq<string>): string
    decreases |parts|
  {
    if parts == [] then "" else parts[0] + Concat(parts[1..])
  }

  /** The elements of s whose position is not in gone. */
  function Without<T>(s: seq<T>, gone: set<nat>): seq<T> {
    if s == [] then []
    else Without(s[..|s| - 1], gone) + (if |s| - 1 in gone then [] else [s[|s| - 1]])
  }

  /** Positions beyond the end of s do not matter to Without. */
  lemma {:induction false} WithoutLocal<T>(s: seq<T>, gone: set<nat>, more: set<nat>)
    requires forall i: nat | i < |s| :: i in gone <==> i in more
    ensures Without(s, gone) == Without(s, more)
  {
    if s == [] {
    } else {
      WithoutLocal(s[..|s| - 1], gone, more);
    }
  }

  lemma WithoutLast<T>(s: seq<T>, gone: set<nat>)
    requires s != []
    ensures Without(s, gone + {|s| - 1}) == Without(s[..|s| - 1], gone)
  {
    WithoutLocal(s[..|s| - 1], gone + {|s| - 1}, gone);
  }

  /** Nothing is removed from a suffix that starts after every removed position. */
  lemma {:induction false} WithoutAppend<T>(a: seq<T>, b: seq<T>, gone: set<nat>)
    requires forall i | i in gone :: i < |a|
    ensures Without(a + b, gone) == Without(a, gone) + b
  {
    if b == [] {
      assert a + b == a;
    } else {
      var front := b[..|b| - 1];
      assert (a + b)[..|a + b| - 1] == a + front;
      WithoutAppend(a, front, gone);
      assert front + [b[|b| - 1]] == b;
    }
  }
}
