/**
 * String conversion helpers: reading a stored setting string as a boolean.
 */
module StringUtils {
  import opened Wrappers

  /** The boolean a setting string denotes: exactly "true" or "false", otherwise
      `defaultValue`. An absent value (`undefined` or `null`) is unrecognised. */
  function ToBoolean(value: Option<string>, defaultValue: bool := false): (b: bool)
    ensures value == Some("true") ==> b
    ensures value == Some("false") ==> !b
    ensures value != Some("true") && value != Some("false") ==> b == defaultValue
  {
    if value != Some("true") && value != Some("false") then defaultValue
    else value != Some("false")
  }

  /** The setting string a boolean is stored as. */
  function BoolToString(b: bool): (s: string)
    ensures s == "true" || s == "false"
  {
    if b then "true" else "false"
  }

  /** Reading back a stored boolean gives it back, whatever the default. */
  lemma ToBooleanRoundTrip(b: bool, defaultValue: bool)
    ensures ToBoolean(Some(BoolToString(b)), defaultValue) == b
  {
  }

  /** The default decides the result exactly when the value is not one of the two
      recognised strings. */
  lemma DefaultMattersOnlyWhenUnrecognised(value: Option<string>)
    ensures ToBoolean(value, true) != ToBoolean(value, false) <==>
      value != Some("true") && value != Some("false")
  {
  }

  /** Recognition is exact: other spellings, padding and the empty string fall back
      to the default. */
  lemma ToBooleanIsCaseSensitive(defaultValue: bool)
    ensures ToBoolean(Some("True"), defaultValue) == defaultValue
    ensures ToBoolean(Some("FALSE"), defaultValue) == defaultValue
    ensures ToBoolean(Some(" true"), defaultValue) == defaultValue
    ensures ToBoolean(Some(""), defaultValue) == defaultValue
    ensures ToBoolean(Some("1"), defaultValue) == defaultValue
  {
  }

  /** Without a default, an absent or unrecognised value reads as false. */
  lemma OmittedDefaultIsFalse(value: Option<string>)
    requires value != Some("true")
    ensures !ToBoolean(value)
  {
  }
}
