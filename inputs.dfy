/** Named configuration values read from the process environment, the
    convention of the hosting script runner: a value `name` is looked up
    under `INPUT_<NAME>` with spaces turned into underscores. */
module Inputs {
  import opened Wrappers
  import opened Text

  /** The environment variable holding input `name`. */
  function InputKey(name: string): (key: string)
    ensures |key| == 6 + |name| && key[..6] == "INPUT_"
    ensures forall i :: 0 <= i < |name| ==> key[6 + i] == UpperChar(if name[i] == ' ' then '_' else name[i])
  {
    "INPUT_" + ToUpper(ReplaceAll(name, ' ', '_'))
  }

  /** The raw value, with a missing variable read as the empty string. */
  function RawInput(env: map<string, string>, name: string): string {
    var key := InputKey(name);
    if key in env then env[key] else ""
  }

  /** `getInput(name, required = true)`: fails when the input is required and its
      raw value is empty; otherwise returns the value trimmed. The
      emptiness test looks at the value before trimming. */
  function GetInput(env: map<string, string>, name: string, required: bool := true): (r: Result<string, string>)
    ensures r.Failure? <==> required && (InputKey(name) !in env || env[InputKey(name)] == "")
    ensures r.Failure? ==> r.error == "Input required and not supplied: " + name
    ensures r.Success? ==> r.value == Trim(RawInput(env, name))
  {
    var val := RawInput(env, name);
    if required && val == "" then Failure("Input required and not supplied: " + name)
    else Success(Trim(val))
  }

  /** What a successful read returns never starts or ends with whitespace. */
  lemma GetInputTrimmed(env: map<string, string>, name: string, required: bool)
    requires GetInput(env, name, required).Success?
    ensures var v := GetInput(env, name, required).value;
      v == [] || (!IsWhitespace(v[0]) && !IsWhitespace(v[|v| - 1]))
  {
  }

  /** A required input whose value is only whitespace passes the check and
      reads as the empty string. */
  lemma WhitespaceOnlyInputPasses(env: map<string, string>, name: string)
    requires InputKey(name) in env && env[InputKey(name)] != ""
    requires forall i :: 0 <= i < |env[InputKey(name)]| ==> IsWhitespace(env[InputKey(name)][i])
    ensures GetInput(env, name, true) == Success("")
  {
    TrimAllWhitespace(env[InputKey(name)]);
  }

  /** An optional input that is absent reads as the empty string. */
  lemma MissingOptionalInput(env: map<string, string>, name: string)
    requires InputKey(name) !in env
    ensures GetInput(env, name, false) == Success("")
  {
  }

  /** Case and the choice between space and underscore do not matter:
      every spelling of a name reaches the same variable as its upper-case,
      underscored form. */
  lemma {:induction false} InputKeyNormalises(name: string)
    ensures InputKey(name) == InputKey(ToUpper(ReplaceAll(name, ' ', '_')))
  {
    var n := ToUpper(ReplaceAll(name, ' ', '_'));
    var k, k' := InputKey(name), InputKey(n);
    assert |k| == |k'|;
    forall i | 0 <= i < |k| ensures k[i] == k'[i] {
      if i >= 6 {
        var c := name[i - 6];
        assert n[i - 6] == UpperChar(if c == ' ' then '_' else c);
      }
    }
  }
}
