/**
 * The few Python string built-ins the review code relies on: `str.lower()`,
 * the substring test `w in t`, `str(n)` for integers and `int(s)` for the
 * hidden integer fields of a form.
 */
module Text {
  import opened Wrappers

  /** `c.lower()` for one character (ASCII letters only). */
  function LowerChar(c: char): char
  {
    if 'A' <= c <= 'Z' then (c as int + 32) as char else c
  }

  /** `s.lower()`. */
  function Lower(s: string): (r: string)
    ensures |r| == |s|
    ensures forall i :: 0 <= i < |s| ==> r[i] == LowerChar(s[i])
  {
    seq(|s|, i requires 0 <= i < |s| => LowerChar(s[i]))
  }

  /** Python's `w in t` on strings: `w` occurs in `t` at some offset. */
  predicate IsSubstring(w: string, t: string)
    decreases |t|
  {
    if |w| > |t| then false
    else t[..|w|] == w || (|t| > 0 && IsSubstring(w, t[1..]))
  }

  /** `w` occurs in `t` starting at offset `i`. */
  predicate OccursAt(w: string, t: string, i: int)
  {
    0 <= i <= |t| - |w| && t[i..i + |w|] == w
  }

  /** An occurrence in the tail is an occurrence one place further in the whole. */
  lemma OccursShift(w: string, t: string, i: int)
    requires |t| > 0 && 0 <= i
    ensures OccursAt(w, t[1..], i) <==> OccursAt(w, t, i + 1)
  {
    if 0 <= i <= |t| - 1 - |w| {
      assert t[1..][i..i + |w|] == t[i + 1..i + 1 + |w|];
    }
  }

  /** `IsSubstring` agrees with the offset definition of an occurrence. */
  lemma {:induction false} IsSubstringAt(w: string, t: string)
    ensures IsSubstring(w, t) <==> exists i :: OccursAt(w, t, i)
    decreases |t|
  {
    if |w| > |t| {
    } else if t[..|w|] == w {
      assert OccursAt(w, t, 0);
    } else if |t| == 0 {
    } else {
      IsSubstringAt(w, t[1..]);
      if IsSubstring(w, t[1..]) {
        var i :| OccursAt(w, t[1..], i);
        OccursShift(w, t, i);
      } else {
        forall i | OccursAt(w, t, i)
          ensures false
        {
          assert i != 0;
          OccursShift(w, t, i - 1);
        }
      }
    }
  }

  /** The empty word occurs in every string, as `'' in t` is true in Python. */
  lemma EmptyIsSubstring(t: string)
    ensures IsSubstring("", t)
  {
  }

  predicate IsDigit(c: char)
  {
    '0' <= c <= '9'
  }

  predicate AllDigits(s: string)
  {
    forall i :: 0 <= i < |s| ==> IsDigit(s[i])
  }

  function DigitChar(d: nat): char
    requires d < 10
  {
    (48 + d) as char
  }

  /** `str(n)` for a natural number: its decimal digits, most significant first. */
  function NatToString(n: nat): string
    decreases n
  {
    if n < 10 then [DigitChar(n)] else NatToString(n / 10) + [DigitChar(n % 10)]
  }

  /** `str(n)` for an integer. */
  function IntToString(n: int): string
  {
    if n < 0 then "-" + NatToString(-n) else NatToString(n)
  }

  /** The value of a string of decimal digits. */
  function DigitsValue(s: string): nat
    requires AllDigits(s)
  {
    if s == [] then 0 else DigitsValue(s[..|s| - 1]) * 10 + (s[|s| - 1] as int - 48)
  }

  /**
   * `int(s)`: an optional sign followed by at least one decimal digit;
   * anything else raises `ValueError`, modelled as `None`.
   */
  function ParseInt(s: string): Option<int>
  {
    if |s| > 0 && (s[0] == '-' || s[0] == '+') then
      if |s| > 1 && AllDigits(s[1..]) then
        var magnitude: int := DigitsValue(s[1..]);
        Some(if s[0] == '-' then -magnitude else magnitude)
      else None
    else if |s| > 0 && AllDigits(s) then Some(DigitsValue(s))
    else None
  }

  lemma {:induction false} NatToStringDigits(n: nat)
    ensures |NatToString(n)| > 0 && AllDigits(NatToString(n))
    ensures DigitsValue(NatToString(n)) == n
    decreases n
  {
    if n >= 10 {
      NatToStringDigits(n / 10);
      var s := NatToString(n);
      var p := NatToString(n / 10);
      assert s == p + [DigitChar(n % 10)];
      assert s[..|s| - 1] == p;
    }
  }

  /** `int(str(n)) == n`: the rendered integer parses back to itself. */
  lemma IntToStringRoundTrip(n: int)
    ensures ParseInt(IntToString(n)) == Some(n)
  {
    if n < 0 {
      var d := NatToString(-n);
      NatToStringDigits(-n);
      var s := "-" + d;
      assert IntToString(n) == s;
      assert s[0] == '-' && s[1..] == d;
    } else {
      var d := NatToString(n);
      NatToStringDigits(n);
      assert IntToString(n) == d;
      assert IsDigit(d[0]);
    }
  }
}
