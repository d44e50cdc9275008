/**
 * The part of JavaScript string semantics the components rely on:
 * `String.prototype.trim` and the truthiness of its result.
 */
module JsText {

  /** The characters `trim` removes: ECMAScript WhiteSpace and LineTerminator code points. */
  predicate IsWhitespace(c: char) {
    c == '\t' || c == '\n' || c == '\U{000B}' || c == '\U{000C}' || c == '\r'
    || c == ' ' || c == '\U{00A0}' || c == '\U{1680}' || ('\U{2000}' <= c <= '\U{200A}')
    || c == '\U{2028}' || c == '\U{2029}' || c == '\U{202F}' || c == '\U{205F}'
    || c == '\U{3000}' || c == '\U{FEFF}'
  }

  /** All characters of `s` are whitespace (vacuously true of ""). */
  predicate AllWhitespace(s: string) {
    forall i :: 0 <= i < |s| ==> IsWhitespace(s[i])
  }

  /** `s` with its leading whitespace removed. */
  function TrimStart(s: string): string {
    if s != [] && IsWhitespace(s[0]) then TrimStart(s[1..]) else s
  }

  /** `s` with its trailing whitespace removed. */
  function TrimEnd(s: string): string {
    if s != [] && IsWhitespace(s[|s| - 1]) then TrimEnd(s[..|s| - 1]) else s
  }

  /** `String.prototype.trim`. */
  function Trim(s: string): string {
    TrimEnd(TrimStart(s))
  }

  /** `!s.trim()`: the trimmed string is falsy, i.e. empty. */
  predicate IsBlank(s: string) {
    Trim(s) == []
  }

  /** `TrimStart` drops a whitespace prefix and keeps the rest, which starts with a non-whitespace character. */
  lemma {:induction false} TrimStartDropsLeading(s: string)
    ensures |TrimStart(s)| <= |s| && TrimStart(s) == s[|s| - |TrimStart(s)|..]
    ensures AllWhitespace(s[..|s| - |TrimStart(s)|])
    ensures TrimStart(s) == [] || !IsWhitespace(TrimStart(s)[0])
  {
    if s != [] && IsWhitespace(s[0]) {
      TrimStartDropsLeading(s[1..]);
      var n := |s[1..]| - |TrimStart(s[1..])|;
      assert s[..n + 1] == [s[0]] + s[1..][..n];
    }
  }

  /** `TrimEnd` drops a whitespace suffix and keeps the rest, which ends with a non-whitespace character. */
  lemma {:induction false} TrimEndDropsTrailing(s: string)
    ensures |TrimEnd(s)| <= |s| && TrimEnd(s) == s[..|TrimEnd(s)|]
    ensures AllWhitespace(s[|TrimEnd(s)|..])
    ensures TrimEnd(s) == [] || !IsWhitespace(TrimEnd(s)[|TrimEnd(s)| - 1])
  {
    if s != [] && IsWhitespace(s[|s| - 1]) {
      var p := s[..|s| - 1];
      TrimEndDropsTrailing(p);
      var m := |TrimEnd(p)|;
      assert s[m..] == p[m..] + [s[|s| - 1]];
    }
  }

  /** `trim` is shorter than its input and neither starts nor ends with whitespace. */
  lemma TrimHasNoOuterWhitespace(s: string)
    ensures |Trim(s)| <= |s|
    ensures Trim(s) == [] || (!IsWhitespace(Trim(s)[0]) && !IsWhitespace(Trim(s)[|Trim(s)| - 1]))
  {
    TrimStartDropsLeading(s);
    var t := TrimStart(s);
    TrimEndDropsTrailing(t);
    if Trim(s) != [] {
      assert Trim(s)[0] == t[0];
    }
  }

  /** A string is blank exactly when every character of it is whitespace. */
  lemma {:induction false} BlankIffAllWhitespace(s: string)
    ensures IsBlank(s) <==> AllWhitespace(s)
  {
    TrimStartDropsLeading(s);
    var t := TrimStart(s);
    TrimEndDropsTrailing(t);
    var n := |s| - |t|;
    if IsBlank(s) {
      assert AllWhitespace(t[|Trim(s)|..]);
      assert t == [];
      forall i | 0 <= i < |s| ensures IsWhitespace(s[i]) {
        assert s[..n][i] == s[i];
      }
    } else {
      var r := Trim(s);
      assert r[0] == t[0] == s[n];
    }
  }
}
