/** String operations the request handlers rely on: lowering for the
    case-insensitive product search, substring containment, and the decimal
    rendering of ids in `Location` headers. */
module Text {

  import opened Wrappers

  /** `ToLower` over ASCII: upper-case letters map to lower-case ones,
      every other character is left alone. */
  function LowerChar(c: char): char
  {
    if 'A' <= c <= 'Z' then (c as int + 32) as char else c
  }

  function Lower(s: string): (r: string)
    ensures |r| == |s|
    ensures forall i :: 0 <= i < |s| ==> r[i] == LowerChar(s[i])
  {
    seq(|s|, i requires 0 <= i < |s| => LowerChar(s[i]))
  }

  /** Lowering twice is lowering once, so a term that is already lowered
      is its own lowered form. */
  lemma LowerIdempotent(s: string)
    ensures Lower(Lower(s)) == Lower(s)
  {
  }

  predicate StartsWith(s: string, prefix: string)
  {
    |prefix| <= |s| && s[..|prefix|] == prefix
  }

  /** `string.Contains`: `sub` occurs somewhere in `s` (the empty string
      occurs everywhere). */
  predicate Contains(s: string, sub: string)
    decreases |s|
  {
    StartsWith(s, sub) || (|s| > 0 && Contains(s[1..], sub))
  }

  ghost predicate OccursAt(s: string, sub: string, i: int)
  {
    0 <= i && i + |sub| <= |s| && s[i..i + |sub|] == sub
  }

  /** The scanning definition of `Contains` agrees with "there is a position
      at which `sub` occurs". */
  lemma {:induction false} ContainsIffOccurs(s: string, sub: string)
    ensures Contains(s, sub) <==> exists i :: OccursAt(s, sub, i)
    decreases |s|
  {
    if |s| > 0 {
      ContainsIffOccurs(s[1..], sub);
    }
    if Contains(s, sub) {
      if StartsWith(s, sub) {
        assert OccursAt(s, sub, 0);
      } else {
        var j :| OccursAt(s[1..], sub, j);
        assert s[1..][j..j + |sub|] == s[j + 1..j + 1 + |sub|];
        assert OccursAt(s, sub, j + 1);
      }
    }
    forall i | OccursAt(s, sub, i)
      ensures Contains(s, sub)
    {
      if i == 0 {
        assert StartsWith(s, sub);
      } else {
        assert s[1..][i - 1..i - 1 + |sub|] == s[i..i + |sub|];
        assert OccursAt(s[1..], sub, i - 1);
      }
    }
  }

  /** Every character of a string that occurs in `s` is a character of `s`. */
  lemma ContainsKeepsChars(s: string, sub: string)
    ensures Contains(s, sub) ==> forall j :: 0 <= j < |sub| ==> sub[j] in s
  {
    ContainsIffOccurs(s, sub);
    if Contains(s, sub) {
      var i :| OccursAt(s, sub, i);
      forall j | 0 <= j < |sub|
        ensures sub[j] in s
      {
        assert s[i + j] == sub[j];
      }
    }
  }

  /** A string holding a character that `s` lacks does not occur in `s`. */
  lemma ContainsNeedsChar(s: string, sub: string, c: char)
    requires c in sub && c !in s
    ensures !Contains(s, sub)
  {
    ContainsKeepsChars(s, sub);
    var j :| 0 <= j < |sub| && sub[j] == c;
  }

  /** A lower-case letter appears in the lowered string only where the
      letter or its upper-case form appears in the original. */
  lemma LowerAvoids(s: string, c: char)
    requires 'a' <= c <= 'z' && c !in s && (c as int - 32) as char !in s
    ensures c !in Lower(s)
  {
    forall i | 0 <= i < |s|
      ensures Lower(s)[i] != c
    {
      assert s[i] != c && s[i] != (c as int - 32) as char;
    }
  }

  // Decimal rendering of ids, as `$"/cashiers/{cashier.Id}"` does.

  predicate IsDigit(c: char)
  {
    '0' <= c <= '9'
  }

  function DigitChar(d: int): (c: char)
    requires 0 <= d < 10
    ensures IsDigit(c) && c as int - '0' as int == d
  {
    ('0' as int + d) as char
  }

  /** The decimal digits of `n`, most significant first, without leading zeros. */
  function NatToString(n: nat): (r: string)
    ensures |r| >= 1
    ensures forall i :: 0 <= i < |r| ==> IsDigit(r[i])
    ensures (r[0] == '0') <==> n == 0
    decreases n
  {
    if n < 10 then [DigitChar(n)] else NatToString(n / 10) + [DigitChar(n % 10)]
  }

  function IntToString(i: int): (r: string)
    ensures |r| >= 1
  {
    if i < 0 then "-" + NatToString(-i) else NatToString(i)
  }

  /** The value of a string of decimal digits. */
  function DigitsValue(s: string): nat
    requires forall i :: 0 <= i < |s| ==> IsDigit(s[i])
  {
    if s == [] then 0
    else
      assert IsDigit(s[|s| - 1]);
      DigitsValue(s[..|s| - 1]) * 10 + (s[|s| - 1] as int - '0' as int)
  }

  function ParseNat(s: string): Option<nat>
  {
    if s != [] && forall i :: 0 <= i < |s| ==> IsDigit(s[i]) then Some(DigitsValue(s)) else None
  }

  function ParseInt(s: string): Option<int>
  {
    if |s| > 0 && s[0] == '-' then
      match ParseNat(s[1..])
      case None => None
      case Some(n) => Some(0 - n)
    else
      match ParseNat(s)
      case None => None
      case Some(n) => Some(n)
  }

  lemma {:induction false} ParseNatRoundTrip(n: nat)
    ensures ParseNat(NatToString(n)) == Some(n)
    decreases n
  {
    var r := NatToString(n);
    if n >= 10 {
      ParseNatRoundTrip(n / 10);
      var prefix := NatToString(n / 10);
      assert r[..|r| - 1] == prefix;
      assert DigitsValue(r) == DigitsValue(prefix) * 10 + n % 10;
    }
  }

  /** The decimal rendering of an id can be read back: a `Location` header
      names exactly the id it was built from. */
  lemma IntRoundTrip(i: int)
    ensures ParseInt(IntToString(i)) == Some(i)
  {
    if i < 0 {
      var r := IntToString(i);
      assert r[1..] == NatToString(-i);
      ParseNatRoundTrip(-i);
    } else {
      ParseNatRoundTrip(i);
      assert NatToString(i)[0] != '-';
    }
  }

}
