/** The steps one actor took of a trace in which many are interleaved. */
module Traces {

  function Own<T>(steps: seq<T>, mine: T -> bool): seq<T> {
    if steps == [] then []
    else Own(steps[..|steps| - 1], mine) + if mine(steps[|steps| - 1]) then [steps[|steps| - 1]] else []
  }

  lemma OwnSnoc<T>(steps: seq<T>, st: T, mine: T -> bool)
    ensures Own(steps + [st], mine) == Own(steps, mine) + if mine(st) then [st] else []
  {
    assert (steps + [st])[..|steps|] == steps;
  }

  lemma Assoc<T>(a: seq<T>, b: seq<T>, c: seq<T>)
    ensures (a + b) + c == a + (b + c)
  {
  }
}
