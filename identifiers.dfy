/**
 * Demo-grade identifiers (portal-api.js, line 30): `uid(prefix = 'id')` is
 * the prefix, an underscore and `Date.now().toString(36)`.  The clock reading
 * is a parameter: a millisecond count, never negative.
 */
module Identifiers {

  /** A character `Number.prototype.toString(36)` can emit: `0-9` or `a-z`. */
  predicate IsBase36Digit(ch: char)
  {
    '0' <= ch <= '9' || 'a' <= ch <= 'z'
  }

  /** The digit character for a value below 36, lower-case as JavaScript writes it. */
  function DigitChar(d: nat): (ch: char)
    requires d < 36
    ensures IsBase36Digit(ch)
    ensures DigitValue(ch) == d
  {
    if d < 10 then ('0' as int + d) as char else ('a' as int + d - 10) as char
  }

  /** The value of one base-36 digit character. */
  function DigitValue(ch: char): (d: nat)
    requires IsBase36Digit(ch)
    ensures d < 36
  {
    if ch <= '9' then ch as int - '0' as int else ch as int - 'a' as int + 10
  }

  /** `n.toString(36)` for a non-negative integer: most significant digit first, no leading zero. */
  function ToBase36(n: nat): (s: string)
    ensures IsCanonicalBase36(s)
    ensures s[0] == '0' ==> n == 0
    decreases n
  {
    if n < 36 then [DigitChar(n)] else ToBase36(n / 36) + [DigitChar(n % 36)]
  }

  /** The value a string of base-36 digits denotes: the inverse of `ToBase36`. */
  function FromBase36(s: string): nat
    requires forall i :: 0 <= i < |s| ==> IsBase36Digit(s[i])
  {
    if s == [] then 0 else FromBase36(s[..|s| - 1]) * 36 + DigitValue(s[|s| - 1])
  }

  /** Reading the digits back gives the number: `parseInt(n.toString(36), 36) == n`. */
  lemma {:induction false} FromToBase36(n: nat)
    ensures FromBase36(ToBase36(n)) == n
    decreases n
  {
    var s := ToBase36(n);
    if n >= 36 {
      FromToBase36(n / 36);
      assert s[..|s| - 1] == ToBase36(n / 36);
    }
  }

  /** A digit character survives the trip through its value. */
  lemma DigitCharOfValue(ch: char)
    requires IsBase36Digit(ch)
    ensures DigitChar(DigitValue(ch)) == ch
  {
  }

  /** A canonical digit string: non-empty and without a leading zero unless it is `"0"`. */
  predicate IsCanonicalBase36(s: string)
  {
    && |s| >= 1
    && (forall i :: 0 <= i < |s| ==> IsBase36Digit(s[i]))
    && (s[0] == '0' ==> |s| == 1)
  }

  /** A digit string that does not start with `0` denotes a positive number. */
  lemma {:induction false} LeadingNonZeroIsPositive(s: string)
    requires |s| >= 1 && s[0] != '0'
    requires forall i :: 0 <= i < |s| ==> IsBase36Digit(s[i])
    ensures FromBase36(s) > 0
  {
    if |s| > 1 {
      LeadingNonZeroIsPositive(s[..|s| - 1]);
    } else {
      assert s[..0] == [];
    }
  }

  /** Every canonical digit string is what `toString(36)` prints for its value. */
  lemma {:induction false} ToFromBase36(s: string)
    requires IsCanonicalBase36(s)
    ensures ToBase36(FromBase36(s)) == s
  {
    var last := s[|s| - 1];
    DigitCharOfValue(last);
    if |s| == 1 {
      assert s[..0] == [];
    } else {
      var p := s[..|s| - 1];
      LeadingNonZeroIsPositive(p);
      ToFromBase36(p);
      var n := FromBase36(s);
      assert n / 36 == FromBase36(p) && n % 36 == DigitValue(last);
      assert s == p + [last];
    }
  }

  /** Distinct clock readings give distinct base-36 suffixes. */
  lemma ToBase36Injective(a: nat, b: nat)
    requires a != b
    ensures ToBase36(a) != ToBase36(b)
  {
    FromToBase36(a);
    FromToBase36(b);
  }

  /**
   * `uid(prefix)` with the clock reading `now`; the prefix defaults to `"id"`.
   * An identifier is the prefix, an underscore and a non-empty run of `0-9a-z`.
   */
  function Uid(now: nat, prefix: string := "id"): (u: string)
    ensures |u| > |prefix| + 1
    ensures u[..|prefix| + 1] == prefix + "_"
    ensures forall i :: |prefix| + 1 <= i < |u| ==> IsBase36Digit(u[i])
  {
    prefix + "_" + ToBase36(now)
  }

  /** For one prefix, equal identifiers mean equal clock readings (and conversely). */
  lemma {:induction false} UidInjective(a: nat, b: nat, prefix: string)
    ensures Uid(a, prefix) == Uid(b, prefix) <==> a == b
  {
    if Uid(a, prefix) == Uid(b, prefix) {
      assert ToBase36(a) == Uid(a, prefix)[|prefix| + 1..];
      assert ToBase36(b) == Uid(b, prefix)[|prefix| + 1..];
      if a != b {
        ToBase36Injective(a, b);
      }
    }
  }
}
