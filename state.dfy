/** The persistable runtime state and its dotted-path access to the nested
    `memory` dicts (`"user.name"` names the entry `name` of the dict stored
    under `user`). */
module State {
  import opened Wrappers
  import opened Strings
  import opened Values

  // ---------------------------------------------------------------------
  // Dotted keys
  // ---------------------------------------------------------------------

  /** The non-empty parts, in order. */
  function NonEmpty(parts: seq<string>): (r: seq<string>)
    ensures |r| <= |parts|
    ensures forall k :: 0 <= k < |r| ==> r[k] != [] && r[k] in parts
    ensures forall p :: p in r <==> p in parts && p != []
  {
    if parts == [] then []
    else (if parts[0] == [] then [] else [parts[0]]) + NonEmpty(parts[1..])
  }

  /** The path a dotted key names: its `.`-separated segments without the empty ones. */
  function Segments(key: string): (path: seq<string>)
    ensures forall k :: 0 <= k < |path| ==> path[k] != [] && '.' !in path[k]
  {
    NonEmpty(Split(key, '.'))
  }

  lemma {:induction false} NonEmptyConcat(a: seq<string>, b: seq<string>)
    ensures NonEmpty(a + b) == NonEmpty(a) + NonEmpty(b)
  {
    if a != [] {
      assert (a + b)[1..] == a[1..] + b;
      NonEmptyConcat(a[1..], b);
    } else {
      assert a + b == b;
    }
  }

  /** A single part is kept exactly when it is non-empty; with `NonEmptyConcat`
      this fixes the result, order and repetitions included. */
  lemma NonEmptySingle(p: string)
    ensures NonEmpty([p]) == if p == [] then [] else [p]
  {
    assert [p][1..] == [];
  }

  /** A non-empty key without a dot names the one-segment path of itself. */
  lemma SegmentsOne(s: string)
    requires s != [] && '.' !in s
    ensures Segments(s) == [s]
  {
    assert Split(s, '.') == [s];
    NonEmptySingle(s);
  }

  /** Two non-empty dot-free names joined by a dot, like `"user.name"`, name
      the two-step path: the entry `y` of the dict under `x`. */
  lemma SegmentsTwo(x: string, y: string)
    requires x != [] && '.' !in x && y != [] && '.' !in y
    ensures Segments(x + "." + y) == [x, y]
  {
    SegmentsConcat(x, y);
    SegmentsOne(x);
    SegmentsOne(y);
  }

  /** A dot between two texts separates their segments. */
  lemma SegmentsConcat(x: string, y: string)
    ensures Segments(x + "." + y) == Segments(x) + Segments(y)
  {
    SplitConcat(x, y, '.');
    NonEmptyConcat(Split(x, '.'), Split(y, '.'));
  }

  /** The empty key names no path. */
  lemma SegmentsEmpty()
    ensures Segments("") == []
  {
    assert Split("", '.') == [""];
  }

  /** A doubled dot is one separator: `"a..b"` names the path of `"a.b"`. */
  lemma SegmentsDoubleDot(x: string, y: string)
    ensures Segments(x + ".." + y) == Segments(x + "." + y)
  {
    var z := "." + y;
    assert x + ".." + y == x + "." + z;
    SegmentsConcat(x, z);
    SegmentsLeadingDot(y);
    SegmentsConcat(x, y);
  }

  /** A leading dot changes nothing: `".a.b"` names the path of `"a.b"`. */
  lemma SegmentsLeadingDot(x: string)
    ensures Segments("." + x) == Segments(x)
  {
    SegmentsEmpty();
    assert "." + x == "" + "." + x;
    SegmentsConcat("", x);
  }

  /** A trailing dot changes nothing: `"a.b."` names the path of `"a.b"`. */
  lemma SegmentsTrailingDot(x: string)
    ensures Segments(x + ".") == Segments(x)
  {
    SegmentsEmpty();
    assert x + "." == x + "." + "";
    SegmentsConcat(x, "");
  }

  // ---------------------------------------------------------------------
  // Paths over nested dicts
  // ---------------------------------------------------------------------

  /** The value at `path` below `v`, or `None` as soon as a segment is
      missing or the value reached is not a dict. */
  function Find(v: Value, path: seq<string>): Value {
    if path == [] then v
    else if v.DictValue? && path[0] in v.entries then Find(v.entries[path[0]], path[1..])
    else NoneValue
  }

  /** `get_path` on `memory`: `None` for a key without segments. */
  function GetPathOf(memory: map<string, Value>, key: string): Value {
    var path := Segments(key);
    if path == [] then NoneValue else Find(DictValue(memory), path)
  }

  /** The dict `set_path` descends into below `d` at `key`: the stored
      dict, or a fresh empty one in place of a missing or non-dict value. */
  function Child(d: map<string, Value>, key: string): map<string, Value> {
    if key in d && d[key].DictValue? then d[key].entries else map[]
  }

  /** `d` after `value` is written at `path`. */
  function Assign(d: map<string, Value>, path: seq<string>, value: Value): map<string, Value>
    requires path != []
    decreases |path|
  {
    if |path| == 1 then d[path[0] := value]
    else d[path[0] := DictValue(Assign(Child(d, path[0]), path[1..], value))]
  }

  /** Writing below the first segment is writing into its child dict. */
  lemma AssignStep(d: map<string, Value>, path: seq<string>, value: Value)
    requires |path| > 1
    ensures Assign(d, path, value) == d[path[0] := DictValue(Assign(Child(d, path[0]), path[1..], value))]
  {
  }

  /** Reading a path back after writing it gives the written value. */
  lemma {:induction false} FindAssign(d: map<string, Value>, path: seq<string>, value: Value)
    requires path != []
    ensures Find(DictValue(Assign(d, path, value)), path) == value
    decreases |path|
  {
    if |path| > 1 {
      FindAssign(Child(d, path[0]), path[1..], value);
    }
  }

  /** Two paths that differ in some segment, after a common prefix. */
  predicate Diverge(p: seq<string>, q: seq<string>)
    decreases |p|
  {
    p != [] && q != [] && (p[0] != q[0] || Diverge(p[1..], q[1..]))
  }

  /** Writing at `p` leaves the value at every path that branches off `p`
      unchanged: siblings, their contents and other top-level keys. */
  lemma {:induction false} FindAssignDiverge(d: map<string, Value>, p: seq<string>, q: seq<string>, value: Value)
    requires Diverge(p, q)
    ensures Find(DictValue(Assign(d, p, value)), q) == Find(DictValue(d), q)
    decreases |p|
  {
    if p[0] == q[0] {
      var c := Child(d, p[0]);
      FindAssignDiverge(c, p[1..], q[1..], value);
      assert Find(DictValue(d), q) == Find(DictValue(c), q[1..]) by {
        if !(p[0] in d && d[p[0]].DictValue?) {
          assert Find(DictValue(c), q[1..]) == NoneValue;
        }
      }
    }
  }

  /** Every proper prefix of a written path leads to a dict afterwards:
      missing and non-dict values on the way were replaced by dicts. */
  lemma {:induction false} AssignMakesDicts(d: map<string, Value>, p: seq<string>, value: Value, i: nat)
    requires i < |p|
    ensures Find(DictValue(Assign(d, p, value)), p[..i]).DictValue?
    decreases i
  {
    if i > 0 {
      AssignMakesDicts(Child(d, p[0]), p[1..], value, i - 1);
      assert p[..i][1..] == p[1..][..i - 1];
    }
  }

  /** Reading stops with `None` at the first missing segment or non-dict value. */
  lemma {:induction false} FindStops(v: Value, path: seq<string>, i: nat)
    requires i < |path|
    requires var w := Find(v, path[..i]); !w.DictValue? || path[i] !in w.entries
    ensures Find(v, path) == NoneValue
  {
    if i > 0 {
      assert path[..i][1..] == path[1..][..i - 1];
      if v.DictValue? && path[0] in v.entries {
        FindStops(v.entries[path[0]], path[1..], i - 1);
      }
    }
  }

  /** `set_path` followed by `get_path` with the same key gives back the value. */
  lemma SetThenGet(memory: map<string, Value>, key: string, value: Value)
    requires Segments(key) != []
    ensures GetPathOf(Assign(memory, Segments(key), value), key) == value
  {
    FindAssign(memory, Segments(key), value);
  }

  /** The walk down of `set_path`: `dicts[j]` is the dict reached after the
      first `j` segments, a fresh empty one wherever no dict was stored. */
  method Descend(memory: map<string, Value>, parts: seq<string>) returns (dicts: seq<map<string, Value>>)
    requires parts != []
    ensures |dicts| == |parts| && dicts[0] == memory
    ensures forall t :: 0 <= t < |parts| - 1 ==> dicts[t + 1] == Child(dicts[t], parts[t])
  {
    dicts := [memory];
    var cur := memory;
    for j := 0 to |parts| - 1
      invariant |dicts| == j + 1 && dicts[0] == memory && dicts[j] == cur
      invariant forall t :: 0 <= t < j ==> dicts[t + 1] == Child(dicts[t], parts[t])
    {
      var nxt := if parts[j] in cur && cur[parts[j]].DictValue? then cur[parts[j]].entries else map[];
      dicts := dicts + [nxt];
      cur := nxt;
    }
  }

  /** Store `value` under the last segment of the deepest dict, then put each
      updated dict back into its parent: the result is the write at `parts`. */
  method Rebuild(dicts: seq<map<string, Value>>, parts: seq<string>, value: Value) returns (acc: map<string, Value>)
    requires |dicts| == |parts| && parts != []
    requires forall t :: 0 <= t < |parts| - 1 ==> dicts[t + 1] == Child(dicts[t], parts[t])
    ensures acc == Assign(dicts[0], parts, value)
  {
    var last := |parts| - 1;
    acc := dicts[last][parts[last] := value];
    var j := last;
    while j > 0
      invariant 0 <= j <= last
      invariant acc == Assign(dicts[j], parts[j..], value)
    {
      j := j - 1;
      assert parts[j..][1..] == parts[j + 1..];
      AssignStep(dicts[j], parts[j..], value);
      acc := dicts[j][parts[j] := DictValue(acc)];
    }
    assert parts[0..] == parts;
  }

  // ---------------------------------------------------------------------
  // The state object
  // ---------------------------------------------------------------------

  class K1State {
    var version: string
    var language: string
    var adminEnabled: bool
    var memory: map<string, Value>

    constructor()
      ensures version == "0.1-day1" && language == "EN" && !adminEnabled
      ensures memory == map[]
    {
      version := "0.1-day1";
      language := "EN";
      adminEnabled := false;
      memory := map[];
    }

    /** `set_path`: walk down the dicts named by all but the last segment,
        putting a fresh dict in place of anything else, and store `value`
        under the last segment. A key without segments fails with
        `ValueError("Key is empty.")`. */
    method SetPath(dottedKey: string, value: Value) returns (r: Result<(), string>)
      modifies this`memory
      ensures version == old(version) && language == old(language) && adminEnabled == old(adminEnabled)
      ensures Segments(dottedKey) == [] ==> r == Failure("Key is empty.") && memory == old(memory)
      ensures Segments(dottedKey) != [] ==> r == Success(()) && memory == Assign(old(memory), Segments(dottedKey), value)
    {
      var parts := Segments(dottedKey);
      if parts == [] {
        return Failure("Key is empty.");
      }
      var dicts := Descend(memory, parts);
      var acc := Rebuild(dicts, parts, value);
      memory := acc;
      r := Success(());
    }

    /** `get_path`: follow the segments down from `memory`. */
    method GetPath(dottedKey: string) returns (v: Value)
      ensures v == GetPathOf(memory, dottedKey)
    {
      var parts := Segments(dottedKey);
      if parts == [] {
        return NoneValue;
      }
      var cur := DictValue(memory);
      for j := 0 to |parts|
        invariant Find(cur, parts[j..]) == Find(DictValue(memory), parts)
      {
        if !cur.DictValue? || parts[j] !in cur.entries {
          return NoneValue;
        }
        assert parts[j..][1..] == parts[j + 1..];
        cur := cur.entries[parts[j]];
      }
      v := cur;
    }
  }
}
