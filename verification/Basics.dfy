/** Values shared by the whole model: options, work items and small facts about sets and sequences. */
module Basics {

  datatype Option<+T> = None | Some(value: T)

  /** What an informer event did to the object it names. */
  datatype EventAction = CreateAction | UpdateAction | DeleteAction

  /** An entry of a work queue. The queue holds untyped values, so a consumer may also meet one that is not an event. */
  datatype WorkItem =
    | EventItem(key: string, kindIndex: nat, action: EventAction)
    | Foreign(id: nat)

  /** How often a failing work item is put back before the exporter gives up on it. */
  const MAX_NUM_REQUEUES: nat := 4

  function Min(a: int, b: int): int { if a < b then a else b }

  function Max(a: int, b: int): int { if a < b then b else a }

  ghost predicate Distinct<T(!new)>(s: seq<T>) {
    forall i, j :: 0 <= i < j < |s| ==> s[i] != s[j]
  }

  /** A sequence that lists every member of a finite set exactly once: one possible iteration order. */
  ghost predicate IsOrderOf<T(!new)>(order: seq<T>, s: set<T>) {
    && Distinct(order)
    && forall x :: x in order <==> x in s
  }

  lemma OrderOneMore<T(!new)>(order: seq<T>, s: set<T>, x: T)
    requires IsOrderOf(order, s) && x !in s
    ensures IsOrderOf(order + [x], s + {x})
  {
  }

  lemma {:induction false} SomeOrder<T(!new)>(s: set<T>) returns (order: seq<T>)
    ensures IsOrderOf(order, s)
  {
    if s == {} {
      order := [];
    } else {
      var x :| x in s;
      var rest := SomeOrder(s - {x});
      order := rest + [x];
    }
  }

  function Concat<T>(parts: seq<seq<T>>): seq<T> {
    if parts == [] then [] else Concat(parts[..|parts| - 1]) + parts[|parts| - 1]
  }

  lemma {:induction false} ConcatAppend<T>(a: seq<seq<T>>, b: seq<seq<T>>)
    ensures Concat(a + b) == Concat(a) + Concat(b)
  {
    if b == [] {
      assert a + b == a;
    } else {
      var n := |b| - 1;
      ConcatAppend(a, b[..n]);
      assert (a + b)[..|a| + n] == a + b[..n] && (a + b)[|a| + n] == b[n];
      assert Concat(a) + (Concat(b[..n]) + b[n]) == Concat(a) + Concat(b[..n]) + b[n];
    }
  }

  lemma ConcatFirst<T>(first: seq<T>, rest: seq<seq<T>>)
    ensures Concat([first] + rest) == first + Concat(rest)
  {
    ConcatAppend([first], rest);
    assert [first][..0] == [];
    assert Concat([first]) == [] + first == first;
  }

  lemma TakeDrop<T>(s: seq<T>, n: nat)
    requires n <= |s|
    ensures s[..n] + s[n..] == s
  {
  }

  lemma {:induction false} ConcatMembers<T>(parts: seq<seq<T>>, x: T)
    ensures x in Concat(parts) <==> exists c :: c in parts && x in c
  {
    if parts != [] {
      var k := |parts| - 1;
      ConcatMembers(parts[..k], x);
      assert parts == parts[..k] + [parts[k]];
      if c :| c in parts && x in c {
        assert c == parts[k] || c in parts[..k];
      }
    }
  }

  lemma {:induction false} DisjointUnionSize<T>(a: set<T>, b: set<T>)
    requires a !! b
    ensures |a + b| == |a| + |b|
  {
  }
}
