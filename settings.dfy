/** The force-local flag of scons_remote/__init__.py, read from the
    `SCONS_REMOTE_MODE` environment variable. */
module Settings {
  import opened Wrappers

  /** The mode that forces every command to run locally. */
  const LocalMode: string := "local"

  /** `str.lower` on one character, for the ASCII letters. */
  function LowerChar(c: char): (r: char)
    ensures 'A' <= c <= 'Z' ==> r as int == c as int + 32
    ensures !('A' <= c <= 'Z') ==> r == c
  {
    if 'A' <= c <= 'Z' then (c as int + 32) as char else c
  }

  function Lower(s: string): (r: string)
    ensures |r| == |s|
    ensures forall i :: 0 <= i < |s| ==> r[i] == LowerChar(s[i])
  {
    seq(|s|, i requires 0 <= i < |s| => LowerChar(s[i]))
  }

  /** `FORCE_LOCAL_EVAL`: the variable is set, not empty, and lower-cases to `local`. */
  predicate ForceLocalEval(mode: Option<string>)
  {
    mode.Some? && mode.value != "" && Lower(mode.value) == LocalMode
  }

  /** A character lower-cases to a lower-case letter exactly when it is that
      letter or its upper-case form. */
  lemma LowerCharToLetter(c: char, l: char)
    requires 'a' <= l <= 'z'
    ensures LowerChar(c) == l <==> c == l || c as int == l as int - 32
  {
  }

  /** The flag is set exactly by the 32 ways of writing `local` in upper and lower case. */
  lemma ForceLocalIff(v: string)
    ensures ForceLocalEval(Some(v)) <==>
      |v| == 5 && forall i :: 0 <= i < 5 ==> v[i] == LocalMode[i] || v[i] as int == LocalMode[i] as int - 32
  {
    if |v| == 5 {
      forall i | 0 <= i < 5
        ensures LowerChar(v[i]) == LocalMode[i] <==> v[i] == LocalMode[i] || v[i] as int == LocalMode[i] as int - 32
      {
        LowerCharToLetter(v[i], LocalMode[i]);
      }
      if forall i :: 0 <= i < 5 ==> LowerChar(v[i]) == LocalMode[i] {
        assert Lower(v) == LocalMode;
      }
    }
  }

  /** Without the variable, or with it empty, commands are not forced local. */
  lemma ForceLocalUnset()
    ensures !ForceLocalEval(None)
    ensures !ForceLocalEval(Some(""))
  {
  }

  /** The comparison ignores case, and any other mode does not force local evaluation. */
  lemma ForceLocalExamples()
    ensures ForceLocalEval(Some("local"))
    ensures ForceLocalEval(Some("LOCAL"))
    ensures ForceLocalEval(Some("Local"))
    ensures !ForceLocalEval(Some("remote"))
    ensures !ForceLocalEval(Some("locale"))
  {
    ForceLocalIff("LOCAL");
    ForceLocalIff("Local");
    ForceLocalIff("local");
    assert Lower("remote")[0] == 'r';
  }
}
