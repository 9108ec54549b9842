/** The name of a state snapshot file: a time stamp and a sanitised tag.
    The time stamp is handed in; writing the file is not part of this model. */
module Snapshots {
  import opened Strings

  /** The characters a tag keeps: letters, digits, `-` and `_`. */
  predicate TagChar(c: char) {
    IsAlnum(c) || c == '-' || c == '_'
  }

  /** The tag characters of `s`, in their original order. */
  function KeepTagChars(s: string): (r: string)
    ensures |r| <= |s|
    ensures forall i :: 0 <= i < |r| ==> TagChar(r[i])
  {
    if s == [] then []
    else (if TagChar(s[0]) then [s[0]] else []) + KeepTagChars(s[1..])
  }

  /** `safe_tag`: the tag characters of the stripped tag, or `manual` when none remain. */
  function SafeTag(tag: string): (r: string)
    ensures r != []
    ensures forall i :: 0 <= i < |r| ==> TagChar(r[i])
  {
    var kept := KeepTagChars(Strip(tag));
    if kept == [] then "manual" else kept
  }

  /** The file name `create_snapshot` writes to; the tag defaults to `manual`. */
  function SnapshotFileName(ts: string, tag: string := "manual"): (name: string)
    ensures |name| > |ts| + 6
    ensures name[..|ts|] == ts && name[|name| - 5..] == ".json"
    ensures forall i :: |ts| <= i < |name| - 5 ==> name[i] != '/' && name[i] != '.'
  {
    ts + "_" + SafeTag(tag) + ".json"
  }

  /** Filtering works piece by piece, so it keeps the original order. */
  lemma {:induction false} KeepConcat(a: string, b: string)
    ensures KeepTagChars(a + b) == KeepTagChars(a) + KeepTagChars(b)
  {
    if a != [] {
      assert (a + b)[1..] == a[1..] + b;
      KeepConcat(a[1..], b);
    } else {
      assert a + b == b;
    }
  }

  /** A text made of tag characters is kept whole. */
  lemma {:induction false} KeepAll(s: string)
    requires forall i :: 0 <= i < |s| ==> TagChar(s[i])
    ensures KeepTagChars(s) == s
  {
    if s != [] {
      KeepAll(s[1..]);
    }
  }

  /** A text without tag characters is dropped entirely. */
  lemma {:induction false} KeepNone(s: string)
    requires forall i :: 0 <= i < |s| ==> !TagChar(s[i])
    ensures KeepTagChars(s) == []
  {
    if s != [] {
      KeepNone(s[1..]);
    }
  }

  /** Every tag character of `s` survives the filter. */
  lemma KeepHas(s: string, i: nat)
    requires i < |s| && TagChar(s[i])
    ensures s[i] in KeepTagChars(s)
  {
    assert s == s[..i] + ([s[i]] + s[i + 1..]);
    KeepConcat(s[..i], [s[i]] + s[i + 1..]);
    KeepConcat([s[i]], s[i + 1..]);
    assert KeepTagChars([s[i]]) == [s[i]];
  }

  /** No whitespace character is a tag character. */
  lemma SpaceIsNoTagChar(s: string)
    requires AllSpace(s)
    ensures forall i :: 0 <= i < |s| ==> !TagChar(s[i])
  {
  }

  /** Stripping removes no tag character. */
  lemma KeepStrip(tag: string)
    ensures KeepTagChars(Strip(tag)) == KeepTagChars(tag)
  {
    StripSlice(tag);
    var r := Strip(tag);
    var i: nat :| StripsTo(tag, i, r);
    var pre, post := tag[..i], tag[i + |r|..];
    assert tag == pre + r + post;
    SpaceIsNoTagChar(pre);
    SpaceIsNoTagChar(post);
    KeepNone(pre);
    KeepNone(post);
    KeepConcat(pre + r, post);
    KeepConcat(pre, r);
  }

  /** Stripping first makes no difference: whitespace is filtered out anyway. */
  lemma SafeTagIgnoresStrip(tag: string)
    ensures SafeTag(tag) == (if KeepTagChars(tag) == [] then "manual" else KeepTagChars(tag))
  {
    KeepStrip(tag);
  }

  /** A non-empty tag made only of tag characters comes back unchanged. */
  lemma SafeTagKeepsClean(tag: string)
    requires tag != [] && forall i :: 0 <= i < |tag| ==> TagChar(tag[i])
    ensures SafeTag(tag) == tag
  {
    StripNoSpace(tag);
    KeepAll(tag);
  }

  /** Sanitising is idempotent. */
  lemma SafeTagIdempotent(tag: string)
    ensures SafeTag(SafeTag(tag)) == SafeTag(tag)
  {
    SafeTagKeepsClean(SafeTag(tag));
  }

  /** A tag with no tag character at all becomes `manual`. */
  lemma SafeTagFallback(tag: string)
    requires forall i :: 0 <= i < |tag| ==> !TagChar(tag[i])
    ensures SafeTag(tag) == "manual"
  {
    SafeTagIgnoresStrip(tag);
    KeepNone(tag);
  }

  /** The tag cannot smuggle a path separator or a dot into the file name:
      the name is the time stamp, `_`, the safe tag and `.json`. */
  lemma SnapshotFileNameParts(ts: string, tag: string)
    ensures var name := SnapshotFileName(ts, tag);
            var t := SafeTag(tag);
            && |name| == |ts| + 1 + |t| + 5
            && name[..|ts|] == ts && name[|ts|] == '_'
            && name[|ts| + 1..|ts| + 1 + |t|] == t
            && name[|ts| + 1 + |t|..] == ".json"
            && '/' !in t && '.' !in t
  {
    var t := SafeTag(tag);
    var name := SnapshotFileName(ts, tag);
    assert name == ts + "_" + t + ".json";
    assert name[|ts| + 1..|ts| + 1 + |t|] == t;
    assert name[|ts| + 1 + |t|..] == ".json";
  }
}
