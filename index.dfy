/** The in-memory text index: values searched by case-insensitive substring. */
module Index {
  import opened Strings

  /** The value matches the query, ignoring letter case. */
  predicate Matches(value: string, query: string) {
    Contains(Lower(value), Lower(query))
  }

  class SimpleIndex {
    var data: map<string, string>

    constructor()
      ensures data == map[]
    {
      data := map[];
    }

    /** `add`: store `value` under `key`, replacing any earlier value. */
    method Add(key: string, value: string)
      modifies this
      ensures data == old(data)[key := value]
    {
      data := data[key := value];
    }

    /** `search`: the entries whose value contains the query, ignoring case;
        keys are not searched. */
    function Search(query: string): (r: map<string, string>)
      reads this
      ensures forall k :: k in r <==> k in data && Matches(data[k], query)
      ensures forall k :: k in r ==> r[k] == data[k]
    {
      map k | k in data && Matches(data[k], query) :: data[k]
    }
  }

  /** The empty query returns every entry. */
  lemma SearchEmpty(ix: SimpleIndex)
    ensures ix.Search("") == ix.data
  {
    forall k | k in ix.data
      ensures Matches(ix.data[k], "")
    {
      assert OccursAt(Lower(ix.data[k]), Lower(""), 0);
    }
  }

  /** Queries that agree up to letter case give the same results. */
  lemma SearchIgnoresCase(ix: SimpleIndex, q1: string, q2: string)
    requires Lower(q1) == Lower(q2)
    ensures ix.Search(q1) == ix.Search(q2)
  {
  }

  /** In particular the query can be lowered first. */
  lemma SearchLowered(ix: SimpleIndex, q: string)
    ensures ix.Search(Lower(q)) == ix.Search(q)
  {
    LowerIdempotent(q);
  }
}
