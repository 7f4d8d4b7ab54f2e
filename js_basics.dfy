/** The few JavaScript built-ins the components rely on: optional values,
    `||` defaulting on strings, the outcome of an awaited API call,
    `String.prototype.trim`, ASCII case folding and object URLs. */
module JsBasics {

  datatype Option<+T> = None | Some(value: T)

  /** `x || fallback` where `x` is a string that may be null or undefined:
      the empty string is falsy, like a missing value. */
  function OrElse(x: Option<string>, fallback: string): (r: string)
    ensures Truthy(x) ==> r == x.value
    ensures !Truthy(x) ==> r == fallback
    ensures r == "" ==> fallback == ""
  {
    if x.Some? && x.value != "" then x.value else fallback
  }

  /** A truthy string: present and not empty. */
  predicate Truthy(x: Option<string>) {
    x.Some? && x.value != ""
  }

  /** What a rejected API promise carries: the response body's `detail`
      and the error's `message`, either of which may be absent. */
  datatype JsError = JsError(detail: Option<string>, message: Option<string>)

  /** `err.detail || err.message || fallback`, the message every handler shows. */
  function ErrorText(err: JsError, fallback: string): (r: string)
    ensures Truthy(err.detail) ==> r == err.detail.value
    ensures !Truthy(err.detail) && Truthy(err.message) ==> r == err.message.value
    ensures !Truthy(err.detail) && !Truthy(err.message) ==> r == fallback
    ensures fallback != "" ==> r != ""
  {
    OrElse(err.detail, OrElse(err.message, fallback))
  }

  /** The settled outcome of an awaited call: the value it resolved to, or what it threw. */
  datatype Reply<+T> = Returned(value: T) | Threw(error: JsError)

  /** Downloaded audio; its bytes play no part in the logic. */
  datatype AudioBlob = AudioBlob(id: nat)

  /** `URL.createObjectURL(blob)`: an opaque handle that names its blob. */
  datatype ObjectUrl = ObjectUrlFor(blob: AudioBlob)

  // ---------------------------------------------------------------------
  // String.prototype.trim

  /** WhiteSpace and LineTerminator code points of ECMAScript. */
  predicate IsJsWhitespace(c: char) {
    c == '\t' || c == '\n' || c == '\U{000B}' || c == '\U{000C}' || c == '\r' || c == ' '
    || c == '\U{00A0}' || c == '\U{1680}' || ('\U{2000}' <= c <= '\U{200A}')
    || c == '\U{2028}' || c == '\U{2029}' || c == '\U{202F}' || c == '\U{205F}'
    || c == '\U{3000}' || c == '\U{FEFF}'
  }

  predicate AllWhitespace(s: string) {
    forall k :: 0 <= k < |s| ==> IsJsWhitespace(s[k])
  }

  /** Drops the longest whitespace prefix. */
  function TrimStart(s: string): (r: string)
    ensures |r| <= |s| && r == s[|s| - |r|..]
    ensures AllWhitespace(s[..|s| - |r|])
    ensures r == [] || !IsJsWhitespace(r[0])
  {
    if |s| > 0 && IsJsWhitespace(s[0]) then
      var r := TrimStart(s[1..]);
      var n := |s| - |r|;
      assert AllWhitespace(s[..n]) by {
        forall k | 0 <= k < n ensures IsJsWhitespace(s[..n][k]) {
          if k > 0 {
            assert s[..n][k] == s[1..][..n - 1][k - 1];
          }
        }
      }
      r
    else
      s
  }

  /** Drops the longest whitespace suffix. */
  function TrimEnd(s: string): (r: string)
    ensures |r| <= |s| && r == s[..|r|]
    ensures AllWhitespace(s[|r|..])
    ensures r == [] || !IsJsWhitespace(r[|r| - 1])
  {
    if |s| > 0 && IsJsWhitespace(s[|s| - 1]) then
      var r := TrimEnd(s[..|s| - 1]);
      assert AllWhitespace(s[|r|..]) by {
        forall k | 0 <= k < |s| - |r| ensures IsJsWhitespace(s[|r|..][k]) {
          if k < |s| - 1 - |r| {
            assert s[|r|..][k] == s[..|s| - 1][|r|..][k];
          }
        }
      }
      r
    else
      s
  }

  /** `s.trim()`: never longer than `s`, and neither end of it is whitespace. */
  function Trim(s: string): (r: string)
    ensures |r| <= |s|
    ensures r == [] || (!IsJsWhitespace(r[0]) && !IsJsWhitespace(r[|r| - 1]))
  {
    var t := TrimStart(s);
    var r := TrimEnd(t);
    assert r == [] || r[0] == t[0];
    r
  }

  /** `!s.trim()`: the string is empty once trimmed. */
  predicate IsBlank(s: string) {
    Trim(s) == ""
  }

  /** `r` is `s` with a whitespace prefix and a whitespace suffix removed,
      and neither end of `r` is whitespace: what trim is documented to return. */
  ghost predicate IsTrimmingOf(r: string, s: string) {
    (exists i, j :: 0 <= i <= j <= |s| && r == s[i..j] && AllWhitespace(s[..i]) && AllWhitespace(s[j..]))
    && (r == [] || (!IsJsWhitespace(r[0]) && !IsJsWhitespace(r[|r| - 1])))
  }

  /** Trim cuts a whitespace prefix and a whitespace suffix off its input. */
  lemma TrimIsSlice(s: string) returns (i: nat, j: nat)
    ensures i <= j <= |s| && Trim(s) == s[i..j]
    ensures AllWhitespace(s[..i]) && AllWhitespace(s[j..])
  {
    var t := TrimStart(s);
    var r := TrimEnd(t);
    i := |s| - |t|;
    j := i + |r|;
    assert r == s[i..j];
    assert s[j..] == t[|r|..];
  }

  /** Trim returns a trimming of its input, never longer than it. */
  lemma TrimIsTrimming(s: string)
    ensures IsTrimmingOf(Trim(s), s)
    ensures |Trim(s)| <= |s|
  {
    var i, j := TrimIsSlice(s);
  }

  /** TrimStart stops at the first character that is not whitespace. */
  lemma {:induction false} TrimStartAt(s: string, i: nat)
    requires i <= |s| && AllWhitespace(s[..i])
    requires i < |s| ==> !IsJsWhitespace(s[i])
    ensures TrimStart(s) == s[i..]
  {
    if i > 0 {
      assert s[..i][0] == s[0];
      assert s[1..][..i - 1] == s[..i][1..];
      TrimStartAt(s[1..], i - 1);
      assert s[1..][i - 1..] == s[i..];
    }
  }

  /** TrimEnd stops after the last character that is not whitespace. */
  lemma {:induction false} TrimEndAt(s: string, j: nat)
    requires j <= |s| && AllWhitespace(s[j..])
    requires 0 < j ==> !IsJsWhitespace(s[j - 1])
    ensures TrimEnd(s) == s[..j]
  {
    if j < |s| {
      var s' := s[..|s| - 1];
      assert s[j..][|s| - 1 - j] == s[|s| - 1];
      assert s'[j..] == s[j..][..|s| - 1 - j];
      TrimEndAt(s', j);
      assert s'[..j] == s[..j];
    }
  }

  /** Cutting whitespace off both ends down to non-whitespace ends is what Trim does. */
  lemma TrimOfSlice(s: string, i: nat, j: nat)
    requires i <= j <= |s| && AllWhitespace(s[..i]) && AllWhitespace(s[j..])
    requires i < j ==> !IsJsWhitespace(s[i]) && !IsJsWhitespace(s[j - 1])
    ensures Trim(s) == s[i..j]
  {
    if i == j {
      assert AllWhitespace(s) by {
        forall k | 0 <= k < |s| ensures IsJsWhitespace(s[k]) {
          if k < i { assert s[..i][k] == s[k]; } else { assert s[j..][k - j] == s[k]; }
        }
      }
      BlankIffAllWhitespace(s);
    } else {
      TrimStartAt(s, i);
      TrimEndOfSuffix(s, i, j);
    }
  }

  lemma TrimEndOfSuffix(s: string, i: nat, j: nat)
    requires i < j <= |s| && AllWhitespace(s[j..]) && !IsJsWhitespace(s[j - 1])
    ensures TrimEnd(s[i..]) == s[i..j]
  {
    var t := s[i..];
    assert t[j - i..] == s[j..];
    assert t[j - i - 1] == s[j - 1];
    TrimEndAt(t, j - i);
    assert t[..j - i] == s[i..j];
  }

  lemma SliceEnds(s: string, i: nat, j: nat)
    requires i < j <= |s|
    ensures s[i..j][0] == s[i] && s[i..j][j - i - 1] == s[j - 1]
  {
  }

  /** The trimming of a string is unique, so Trim is fully specified by IsTrimmingOf. */
  lemma TrimmingIsUnique(r: string, s: string)
    requires IsTrimmingOf(r, s)
    ensures r == Trim(s)
  {
    var i, j :| 0 <= i <= j <= |s| && r == s[i..j] && AllWhitespace(s[..i]) && AllWhitespace(s[j..]);
    TrimmingAt(r, s, i, j);
  }

  lemma TrimmingAt(r: string, s: string, i: nat, j: nat)
    requires i <= j <= |s| && r == s[i..j] && AllWhitespace(s[..i]) && AllWhitespace(s[j..])
    requires r == [] || (!IsJsWhitespace(r[0]) && !IsJsWhitespace(r[|r| - 1]))
    ensures r == Trim(s)
  {
    if i < j {
      SliceEnds(s, i, j);
    }
    TrimOfSlice(s, i, j);
  }

  /** A string is blank exactly when all of it is whitespace. */
  lemma BlankIffAllWhitespace(s: string)
    ensures IsBlank(s) <==> AllWhitespace(s)
  {
    var t := TrimStart(s);
    if IsBlank(s) {
      assert TrimEnd(t) == [];
      assert s == s[..|s| - |t|] + t;
      assert AllWhitespace(t) by { assert t[0..] == t; }
    }
  }

  /** Trimming twice is trimming once. */
  lemma TrimIdempotent(s: string)
    ensures Trim(Trim(s)) == Trim(s)
  {
    var r := Trim(s);
    TrimIsTrimming(s);
    assert r == r[0..|r|] && AllWhitespace(r[..0]) && AllWhitespace(r[|r|..]);
    assert IsTrimmingOf(r, r);
    TrimmingIsUnique(r, r);
  }

  // ---------------------------------------------------------------------
  // Case-insensitive comparison of ASCII letters, as a RegExp with the i flag does

  function LowerAscii(c: char): (r: char)
    ensures 'A' <= c <= 'Z' ==> 'a' <= r <= 'z' && r as int == c as int + 32
    ensures !('A' <= c <= 'Z') ==> r == c
  {
    if 'A' <= c <= 'Z' then (c as int + 32) as char else c
  }

  function LowerAsciiString(s: string): (r: string)
    ensures |r| == |s|
    ensures forall k :: 0 <= k < |s| ==> r[k] == LowerAscii(s[k])
  {
    seq(|s|, k requires 0 <= k < |s| => LowerAscii(s[k]))
  }
}
