/** The kill-switch rule that decides whether the system starts in safe mode.
    The environment variable's value is handed in. */
module Safety {
  import opened Wrappers
  import opened Strings

  /** The value of `K1_KILL_SWITCH` that forces safe mode. */
  const KillSwitchCode: string := "19681"

  const KillSwitchReason: string := "Kill-switch forced Safe Mode (K1_KILL_SWITCH=19681)."
  const DefaultReason: string := "Default safety setting."

  datatype SafetyStatus = SafetyStatus(safeMode: bool, reason: string)

  /** The kill switch is set: the variable, stripped, is the code. An
      unset variable reads as the empty text. */
  predicate Triggered(env: Option<string>) {
    Strip(if env.Some? then env.value else "") == KillSwitchCode
  }

  /** `evaluate_safety`. */
  function EvaluateSafety(env: Option<string>, safeModeDefault: bool := true): (s: SafetyStatus)
    ensures Triggered(env) ==> s.safeMode
    ensures !Triggered(env) ==> s.safeMode == safeModeDefault
    ensures s.reason == KillSwitchReason <==> Triggered(env)
    ensures s.reason == KillSwitchReason || s.reason == DefaultReason
  {
    if Triggered(env) then SafetyStatus(true, KillSwitchReason)
    else SafetyStatus(safeModeDefault, DefaultReason)
  }

  /** The code with any whitespace around it still forces safe mode, whatever the default. */
  lemma PaddedCodeForces(pre: string, post: string, safeModeDefault: bool)
    requires AllSpace(pre) && AllSpace(post)
    ensures EvaluateSafety(Some(pre + KillSwitchCode + post), safeModeDefault) == SafetyStatus(true, KillSwitchReason)
  {
    StripPadded(pre, KillSwitchCode, post);
  }

  /** An unset variable leaves the default in force. */
  lemma UnsetUsesDefault(safeModeDefault: bool)
    ensures EvaluateSafety(None, safeModeDefault) == SafetyStatus(safeModeDefault, DefaultReason)
  {
    assert Strip("") == "";
  }

  /** Only the stripped value matters: any other value leaves the default in force. */
  lemma OtherValueUsesDefault(value: string, safeModeDefault: bool)
    requires Strip(value) != KillSwitchCode
    ensures EvaluateSafety(Some(value), safeModeDefault) == SafetyStatus(safeModeDefault, DefaultReason)
  {
  }
}
