/** `convertToSnakeCase` of main.go: lower-case the input, then turn every
    space into an underscore. Lower-casing is modelled for ASCII letters only. */
module SnakeCase {

  predicate IsAsciiUpper(c: char) {
    'A' <= c <= 'Z'
  }

  /** ASCII lower-casing of one character; every other character is kept. */
  function LowerChar(c: char): (d: char)
    ensures !IsAsciiUpper(d)
    ensures IsAsciiUpper(c) ==> d as int == c as int + 32
    ensures !IsAsciiUpper(c) ==> d == c
  {
    if IsAsciiUpper(c) then (c as int + 32) as char else c
  }

  /** `strings.ToLower`, restricted to ASCII letters. */
  function ToLower(s: string): (r: string)
    ensures |r| == |s|
    ensures forall i :: 0 <= i < |s| ==> r[i] == LowerChar(s[i])
  {
    if |s| == 0 then [] else [LowerChar(s[0])] + ToLower(s[1..])
  }

  /** Replacement of every occurrence of one character by another (Go's `strings.Replace` with no count limit). */
  function ReplaceAll(s: string, from: char, to: char): (r: string)
    ensures |r| == |s|
    ensures forall i :: 0 <= i < |s| ==> r[i] == (if s[i] == from then to else s[i])
  {
    if |s| == 0 then []
    else [if s[0] == from then to else s[0]] + ReplaceAll(s[1..], from, to)
  }

  /** A string that snake-casing leaves alone: no spaces, no capitals. */
  predicate IsSnakeCase(s: string) {
    forall i :: 0 <= i < |s| ==> s[i] != ' ' && !IsAsciiUpper(s[i])
  }

  function ConvertToSnakeCase(input: string): (r: string)
    ensures |r| == |input|
    ensures IsSnakeCase(r)
    ensures forall i :: 0 <= i < |input| && input[i] == ' ' ==> r[i] == '_'
    ensures forall i :: 0 <= i < |input| && IsAsciiUpper(input[i]) ==> r[i] as int == input[i] as int + 32
    ensures forall i :: 0 <= i < |input| && input[i] != ' ' && !IsAsciiUpper(input[i]) ==> r[i] == input[i]
  {
    ReplaceAll(ToLower(input), ' ', '_')
  }

  /** Snake-casing changes a string exactly when it has a space or a capital. */
  lemma SnakeCaseFixedPoints(s: string)
    ensures ConvertToSnakeCase(s) == s <==> IsSnakeCase(s)
  {
    var r := ConvertToSnakeCase(s);
    if IsSnakeCase(s) {
      assert forall i :: 0 <= i < |s| ==> r[i] == s[i];
    } else {
      var i :| 0 <= i < |s| && (s[i] == ' ' || IsAsciiUpper(s[i]));
      assert r[i] != s[i];
    }
  }

  /** Snake-casing twice is the same as snake-casing once. */
  lemma SnakeCaseIdempotent(s: string)
    ensures ConvertToSnakeCase(ConvertToSnakeCase(s)) == ConvertToSnakeCase(s)
  {
    SnakeCaseFixedPoints(ConvertToSnakeCase(s));
  }

  /** The display value "iOS" of the settings comes out as the token "ios". */
  lemma SnakeCaseIos()
    ensures ConvertToSnakeCase("iOS") == "ios"
  {
    var ios := ConvertToSnakeCase("iOS");
    assert ios[0] == 'i' && ios[1] == 'o' && ios[2] == 's';
  }

  /** The display value "Simulator" comes out as the token "simulator". */
  lemma SnakeCaseSimulator()
    ensures ConvertToSnakeCase("Simulator") == "simulator"
  {
    var simulator := ConvertToSnakeCase("Simulator");
    assert simulator[0] == 's' && simulator[1] == 'i' && simulator[2] == 'm';
    assert simulator[3] == 'u' && simulator[4] == 'l' && simulator[5] == 'a';
    assert simulator[6] == 't' && simulator[7] == 'o' && simulator[8] == 'r';
  }
}
