/** Named integer counters. The lock that serialises access is not part
    of this model; calls are taken one at a time. */
module Metrics {

  /** The value of counter `name`; an unknown counter counts as 0. */
  function Count(counters: map<string, int>, name: string): int {
    if name in counters then counters[name] else 0
  }

  /** The counters after `value` is added to counter `name`. */
  function Bump(counters: map<string, int>, name: string, value: int): (r: map<string, int>)
    ensures r.Keys == counters.Keys + {name}
    ensures Count(r, name) == Count(counters, name) + value
    ensures forall other :: other != name ==> Count(r, other) == Count(counters, other)
  {
    counters[name := Count(counters, name) + value]
  }

  /** Increments commute: the order in which two increments land does not matter. */
  lemma BumpCommutes(counters: map<string, int>, a: string, x: int, b: string, y: int)
    ensures Bump(Bump(counters, a, x), b, y) == Bump(Bump(counters, b, y), a, x)
  {
    var l, r := Bump(Bump(counters, a, x), b, y), Bump(Bump(counters, b, y), a, x);
    assert forall n :: n in l ==> l[n] == Count(l, n) == Count(r, n) == r[n];
  }

  /** Counting `x` and then `y` is counting `x + y` once. */
  lemma BumpAdds(counters: map<string, int>, name: string, x: int, y: int)
    ensures Bump(Bump(counters, name, x), name, y) == Bump(counters, name, x + y)
  {
  }

  class Metrics {
    var counters: map<string, int>

    constructor()
      ensures counters == map[]
    {
      counters := map[];
    }

    /** `inc`: add `value`, by default 1, to counter `name`. */
    method Inc(name: string, value: int := 1)
      modifies this
      ensures counters == Bump(old(counters), name, value)
    {
      counters := counters[name := Count(counters, name) + value];
    }

    /** `snapshot`: a copy of the counters, unaffected by later increments. */
    method Snapshot() returns (copy: map<string, int>)
      ensures copy == counters
    {
      copy := counters;
    }
  }
}
