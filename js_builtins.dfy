/** The few JavaScript built-ins whose exact behaviour the control logic depends on:
    truthiness of an optional string (`a || b`), `String.prototype.trim`, and
    `Number.prototype.toString` on the non-negative integers `Date.now()` returns. */
module JsBuiltins {
  import opened Wrappers

  /** `s` is truthy: present and not the empty string. */
  predicate Truthy(s: Option<string>) {
    s.Some? && s.value != ""
  }

  /** `s || fallback` for a string that may be missing. */
  function OrElse(s: Option<string>, fallback: string): string {
    if Truthy(s) then s.value else fallback
  }

  /** `a || b` on two optional strings: the first truthy one, else nothing to show. */
  function FirstTruthy(a: Option<string>, b: Option<string>): (r: Option<string>)
    ensures r.None? <==> !Truthy(a) && !Truthy(b)
    ensures Truthy(a) ==> r == a
    ensures !Truthy(a) && Truthy(b) ==> r == b
  {
    if Truthy(a) then a else if Truthy(b) then b else None
  }

  /** `${s}` in a template literal, for a form field that may be missing (null). */
  function Interpolate(s: Option<string>): string {
    if s.Some? then s.value else "null"
  }

  /** The characters `trim` removes: ECMAScript WhiteSpace and LineTerminator. */
  predicate IsTrimmable(c: char) {
    || c == '\t' || c == '\n' || c == '\U{000B}' || c == '\U{000C}' || c == '\r'
    || c == ' ' || c == '\U{00A0}' || c == '\U{1680}'
    || ('\U{2000}' <= c <= '\U{200A}')
    || c == '\U{2028}' || c == '\U{2029}' || c == '\U{202F}' || c == '\U{205F}'
    || c == '\U{3000}' || c == '\U{FEFF}'
  }

  /** Drops the leading trimmable characters. */
  function TrimStart(s: string): (r: string)
    ensures |r| <= |s| && r == s[|s| - |r|..]
    ensures forall i | 0 <= i < |s| - |r| :: IsTrimmable(s[i])
    ensures r == "" || !IsTrimmable(r[0])
  {
    if |s| > 0 && IsTrimmable(s[0]) then TrimStart(s[1..]) else s
  }

  /** Drops the trailing trimmable characters. */
  function TrimEnd(s: string): (r: string)
    ensures |r| <= |s| && r == s[..|r|]
    ensures forall i | |r| <= i < |s| :: IsTrimmable(s[i])
    ensures r == "" || !IsTrimmable(r[|r| - 1])
  {
    if |s| > 0 && IsTrimmable(s[|s| - 1]) then TrimEnd(s[..|s| - 1]) else s
  }

  /** `s.trim()`. */
  function Trim(s: string): string {
    TrimEnd(TrimStart(s))
  }

  /** `!s || s.trim() === ''`: the empty string is falsy and trims to itself. */
  predicate IsBlank(s: string) {
    Trim(s) == ""
  }

  /** A string trims to nothing exactly when every character of it is trimmable. */
  lemma BlankIffAllTrimmable(s: string)
    ensures IsBlank(s) <==> forall i | 0 <= i < |s| :: IsTrimmable(s[i])
  {
    var t := TrimStart(s);
    if t != "" {
      // The first kept character is a non-trimmable character of s.
      assert t[0] == s[|s| - |t|];
      // TrimEnd drops only trimmable characters, so it keeps that one.
      assert TrimEnd(t) != "";
    }
  }

  function DigitChar(d: nat): (c: char)
    requires d < 10
    ensures '0' <= c <= '9'
  {
    "0123456789"[d]
  }

  /** The decimal rendering of a non-negative integer, as `n.toString()` gives it. */
  function NatToDecimal(n: nat): (s: string)
    ensures |s| >= 1
    ensures n >= 10 ==> |s| >= 2
    ensures forall i | 0 <= i < |s| :: '0' <= s[i] <= '9'
  {
    if n < 10 then [DigitChar(n)] else NatToDecimal(n / 10) + [DigitChar(n % 10)]
  }

  lemma DigitCharInjective(a: nat, b: nat)
    requires a < 10 && b < 10
    ensures DigitChar(a) == DigitChar(b) ==> a == b
  {
  }

  /** Distinct numbers render as distinct strings. */
  lemma {:induction false} NatToDecimalInjective(n: nat, m: nat)
    ensures NatToDecimal(n) == NatToDecimal(m) ==> n == m
  {
    var sn, sm := NatToDecimal(n), NatToDecimal(m);
    if sn == sm {
      if n < 10 && m < 10 {
        assert sn[0] == DigitChar(n) && sm[0] == DigitChar(m);
        DigitCharInjective(n, m);
      } else if n >= 10 && m >= 10 {
        assert sn[|sn| - 1] == DigitChar(n % 10) && sm[|sm| - 1] == DigitChar(m % 10);
        DigitCharInjective(n % 10, m % 10);
        assert sn[..|sn| - 1] == NatToDecimal(n / 10);
        assert sm[..|sm| - 1] == NatToDecimal(m / 10);
        NatToDecimalInjective(n / 10, m / 10);
      }
    }
  }
}
