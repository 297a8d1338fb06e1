/**
 * The string operations the core relies on: `toLowerCase`, `includes` and
 * the decimal rendering of a number (`(n).toString()`).
 */
module Text {
  import opened Wrappers

  /** ASCII lowercasing of one character; every other character is kept. */
  function LowerChar(c: char): char
  {
    if 'A' <= c <= 'Z' then (c as int + 32) as char else c
  }

  /** `s.toLowerCase()`, restricted to the ASCII letters. */
  function Lower(s: string): (r: string)
    ensures |r| == |s|
    ensures forall i :: 0 <= i < |s| ==> r[i] == LowerChar(s[i])
    ensures forall i :: 0 <= i < |s| ==> !('A' <= r[i] <= 'Z')
  {
    seq(|s|, i requires 0 <= i < |s| => LowerChar(s[i]))
  }

  /** Lowercasing twice is lowercasing once. */
  lemma LowerIdempotent(s: string)
    ensures Lower(Lower(s)) == Lower(s)
  {
  }

  /** `sub` occurs in `s` starting at position `i`. */
  predicate OccursAt(sub: string, s: string, i: nat)
  {
    i + |sub| <= |s| && s[i..i + |sub|] == sub
  }

  /** The reference meaning of `includes`: `sub` occurs somewhere in `s`. */
  ghost predicate IsSubstring(sub: string, s: string)
  {
    exists i: nat :: OccursAt(sub, s, i)
  }

  /** `s.includes(sub)`, computed by trying every starting position in turn. */
  predicate Includes(s: string, sub: string)
    decreases |s|
  {
    sub <= s || (s != [] && Includes(s[1..], sub))
  }

  /** A slice of the tail of `s` is the same slice of `s`, one position later. */
  lemma TailSlice(s: string, i: nat, k: nat)
    requires s != [] && i + k <= |s| - 1
    ensures s[1..][i..i + k] == s[i + 1..i + 1 + k]
  {
    var left, right := s[1..][i..i + k], s[i + 1..i + 1 + k];
    assert |left| == |right|;
    forall j | 0 <= j < k
      ensures left[j] == right[j]
    {
      assert left[j] == s[1..][i + j] == s[i + 1 + j];
    }
  }

  /** `Includes` holds exactly when `sub` occurs in `s`, in both directions. */
  lemma {:induction false} IncludesIsSubstring(s: string, sub: string)
    ensures Includes(s, sub) <==> IsSubstring(sub, s)
    decreases |s|
  {
    if Includes(s, sub) {
      if sub <= s {
        assert OccursAt(sub, s, 0);
      } else {
        IncludesIsSubstring(s[1..], sub);
        var i: nat :| OccursAt(sub, s[1..], i);
        TailSlice(s, i, |sub|);
        assert OccursAt(sub, s, i + 1);
      }
    }
    if IsSubstring(sub, s) {
      var i: nat :| OccursAt(sub, s, i);
      if i == 0 {
        assert sub <= s;
      } else {
        TailSlice(s, i - 1, |sub|);
        assert OccursAt(sub, s[1..], i - 1);
        IncludesIsSubstring(s[1..], sub);
      }
    }
  }

  /** Every string includes the empty string. */
  lemma IncludesEmpty(s: string)
    ensures Includes(s, "")
  {
  }

  /** The decimal digit character of `d`. */
  function DigitChar(d: nat): (c: char)
    requires d < 10
    ensures '0' <= c <= '9'
  {
    ('0' as int + d) as char
  }

  /** The value of a decimal digit character. */
  function DigitValue(c: char): (d: nat)
    requires '0' <= c <= '9'
    ensures d < 10
  {
    c as int - '0' as int
  }

  /** `(n).toString()` for a natural number: its decimal digits, without leading zeros. */
  function NatToString(n: nat): (s: string)
    ensures |s| >= 1
    ensures forall i :: 0 <= i < |s| ==> '0' <= s[i] <= '9'
    ensures |s| > 1 ==> s[0] != '0'
  {
    if n < 10 then [DigitChar(n)] else NatToString(n / 10) + [DigitChar(n % 10)]
  }

  /** Reads a non-empty string of decimal digits back as a number. */
  function ParseNat(s: string): Option<nat>
    decreases |s|
  {
    if s == [] || !('0' <= s[|s| - 1] <= '9') then None
    else if |s| == 1 then Some(DigitValue(s[0]))
    else match ParseNat(s[..|s| - 1])
      case None => None
      case Some(m) => Some(10 * m + DigitValue(s[|s| - 1]))
  }

  /** Appending a digit to a decimal string multiplies its value by ten and adds the digit. */
  lemma ParseNatAppendDigit(p: string, m: nat, c: char)
    requires p != [] && ParseNat(p) == Some(m) && '0' <= c <= '9'
    ensures ParseNat(p + [c]) == Some(10 * m + DigitValue(c))
  {
    var s := p + [c];
    assert s[..|s| - 1] == p;
  }

  /** Reading the decimal rendering of `n` gives `n` back. */
  lemma {:induction false} ParseNatToString(n: nat)
    ensures ParseNat(NatToString(n)) == Some(n)
  {
    if n >= 10 {
      ParseNatToString(n / 10);
      ParseNatAppendDigit(NatToString(n / 10), n / 10, DigitChar(n % 10));
    }
  }

  /** Different numbers have different decimal renderings. */
  lemma NatToStringInjective(m: nat, n: nat)
    requires m != n
    ensures NatToString(m) != NatToString(n)
  {
    ParseNatToString(m);
    ParseNatToString(n);
  }
}
