/** The check that the loaded settings carry the required string entries. */
module Validator {
  import opened Wrappers
  import opened Strings
  import opened Values
  import Run

  /** The required keys, in declaration order; each must hold a `str`. */
  const RequiredKeys: seq<string> := ["app_name", "default_language", "data_dir"]

  /** The two exceptions `validate` raises. */
  datatype ConfigError = ValueError(message: string) | TypeError(message: string)

  /** The entry for `key` is present and holds a string. */
  predicate IsStr(settings: map<string, Value>, key: string) {
    key in settings && settings[key].StrValue?
  }

  /** The keys of `keys` absent from `settings`, in their order. */
  function MissingKeys(keys: seq<string>, settings: map<string, Value>): (missing: seq<string>)
    ensures forall k :: k in missing <==> k in keys && k !in settings
    ensures missing == [] <==> forall j :: 0 <= j < |keys| ==> keys[j] in settings
  {
    if keys == [] then []
    else (if keys[0] in settings then [] else [keys[0]]) + MissingKeys(keys[1..], settings)
  }

  /** Missing keys are listed piece by piece, so their order is the order of `keys`. */
  lemma {:induction false} MissingKeysConcat(a: seq<string>, b: seq<string>, settings: map<string, Value>)
    ensures MissingKeys(a + b, settings) == MissingKeys(a, settings) + MissingKeys(b, settings)
  {
    if a == [] {
      assert a + b == b;
    } else {
      assert (a + b)[0] == a[0] && (a + b)[1..] == a[1..] + b;
      MissingKeysHead(a + b, settings);
      MissingKeysHead(a, settings);
      MissingKeysConcat(a[1..], b, settings);
      ConcatAssoc(MissingKeys([a[0]], settings), MissingKeys(a[1..], settings), MissingKeys(b, settings));
    }
  }

  /** Concatenation is associative. */
  lemma ConcatAssoc<T>(x: seq<T>, y: seq<T>, z: seq<T>)
    ensures x + (y + z) == (x + y) + z
  {
  }

  /** The first key is looked at first. */
  lemma MissingKeysHead(keys: seq<string>, settings: map<string, Value>)
    requires keys != []
    ensures MissingKeys(keys, settings) == MissingKeys([keys[0]], settings) + MissingKeys(keys[1..], settings)
  {
    MissingKeysSingle(keys[0], settings);
  }

  /** One key is listed exactly when it is absent. */
  lemma MissingKeysSingle(k: string, settings: map<string, Value>)
    ensures MissingKeys([k], settings) == if k in settings then [] else [k]
  {
    assert [k][1..] == [];
  }

  /** The position of the first key whose entry is not a string. */
  function FirstNonStr(keys: seq<string>, settings: map<string, Value>): (r: Option<nat>)
    ensures r.Some? ==> r.value < |keys| && !IsStr(settings, keys[r.value])
    ensures r.Some? ==> forall j :: 0 <= j < r.value ==> IsStr(settings, keys[j])
    ensures r.None? <==> forall j :: 0 <= j < |keys| ==> IsStr(settings, keys[j])
  {
    if keys == [] then None
    else if !IsStr(settings, keys[0]) then Some(0)
    else match FirstNonStr(keys[1..], settings)
      case None => None
      case Some(i) => Some(i + 1)
  }

  /** Python's `repr` of a list of strings free of quotes and backslashes. */
  function ListRepr(items: seq<string>): string {
    "[" + Join(seq(|items|, i requires 0 <= i < |items| => "'" + items[i] + "'"), ", ") + "]"
  }

  /** `validate`: first report every missing key, then the first entry that is not a string. */
  function Validate(settings: map<string, Value>): (r: Result<(), ConfigError>)
    ensures r.Failure? && r.error.ValueError? <==> exists k :: k in RequiredKeys && k !in settings
    ensures r.Success? ==> forall k :: k in RequiredKeys ==> IsStr(settings, k)
  {
    var missing := MissingKeys(RequiredKeys, settings);
    if missing != [] then Failure(ValueError("Missing config keys: " + ListRepr(missing)))
    else match FirstNonStr(RequiredKeys, settings)
      case Some(i) => Failure(TypeError("Config key " + RequiredKeys[i] + " must be str"))
      case None => Success(())
  }

  /** Validation succeeds exactly when every required key holds a string. */
  lemma ValidateSucceedsIff(settings: map<string, Value>)
    ensures Validate(settings).Success? <==> forall k :: k in RequiredKeys ==> IsStr(settings, k)
  {
    if forall k :: k in RequiredKeys ==> IsStr(settings, k) {
      assert forall j :: 0 <= j < |RequiredKeys| ==> IsStr(settings, RequiredKeys[j]);
    } else {
      var k :| k in RequiredKeys && !IsStr(settings, k);
      var j :| 0 <= j < |RequiredKeys| && RequiredKeys[j] == k;
    }
  }

  /** A missing key is reported before any type is looked at, with the
      list of all missing keys. */
  lemma MissingFirst(settings: map<string, Value>, key: string)
    requires key in RequiredKeys && key !in settings
    ensures Validate(settings).Failure? && Validate(settings).error.ValueError?
    ensures Validate(settings).error.message == "Missing config keys: " + ListRepr(MissingKeys(RequiredKeys, settings))
  {
    assert key in MissingKeys(RequiredKeys, settings);
  }

  /** With every key present, the error names the first key, in declaration
      order, whose value is not a string. */
  lemma TypeErrorNamesFirst(settings: map<string, Value>, i: nat)
    requires forall k :: k in RequiredKeys ==> k in settings
    requires i < |RequiredKeys| && !IsStr(settings, RequiredKeys[i])
    requires forall j :: 0 <= j < i ==> IsStr(settings, RequiredKeys[j])
    ensures Validate(settings) == Failure(TypeError("Config key " + RequiredKeys[i] + " must be str"))
  {
  }

  /** Entries under other keys play no part. */
  lemma ValidateIgnoresExtra(s: map<string, Value>, t: map<string, Value>)
    requires forall k :: k in RequiredKeys ==> (k in s <==> k in t)
    requires forall k :: k in RequiredKeys && k in s ==> s[k] == t[k]
    ensures Validate(s) == Validate(t)
  {
    MissingSame(RequiredKeys, s, t);
    FirstNonStrSame(RequiredKeys, s, t);
  }

  lemma {:induction false} MissingSame(keys: seq<string>, s: map<string, Value>, t: map<string, Value>)
    requires forall k :: k in keys ==> (k in s <==> k in t)
    ensures MissingKeys(keys, s) == MissingKeys(keys, t)
  {
    if keys != [] {
      assert keys[0] in keys;
      MissingSame(keys[1..], s, t);
    }
  }

  lemma {:induction false} FirstNonStrSame(keys: seq<string>, s: map<string, Value>, t: map<string, Value>)
    requires forall k :: k in keys ==> (k in s <==> k in t)
    requires forall k :: k in keys && k in s ==> s[k] == t[k]
    ensures FirstNonStr(keys, s) == FirstNonStr(keys, t)
  {
    if keys != [] {
      assert keys[0] in keys;
      FirstNonStrSame(keys[1..], s, t);
    }
  }

  /** The settings the launcher loads always pass validation. */
  lemma LoadedSettingsValid(raw: map<string, string>)
    ensures Validate(Run.LoadSettings(raw).AsDict()).Success?
  {
    SettingsValid(Run.LoadSettings(raw));
  }

  /** The dict of any settings record passes validation. */
  lemma SettingsValid(settings: Run.Settings)
    ensures Validate(settings.AsDict()).Success?
  {
    settings.AsDictText();
    ValidateSucceedsIff(settings.AsDict());
  }
}
