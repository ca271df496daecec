/** The few string operations of Python that the clients rely on: `str(int)`,
    `str.startswith` and `str.replace(pattern, "")`. */
module Text {

  /** Python's `s.startswith(prefix)`. */
  function StartsWith(s: string, prefix: string): (b: bool)
    ensures b ==> |prefix| <= |s|
    ensures s == prefix ==> b
  {
    |prefix| <= |s| && s[..|prefix|] == prefix
  }

  /** A string starts with `prefix` exactly when it is `prefix` followed by something. */
  lemma StartsWithSplits(s: string, prefix: string, rest: string)
    ensures StartsWith(prefix + rest, prefix)
    ensures StartsWith(s, prefix) ==> s == prefix + s[|prefix|..]
  {
    assert (prefix + rest)[..|prefix|] == prefix;
    if StartsWith(s, prefix) {
      assert s == s[..|prefix|] + s[|prefix|..];
    }
  }

  /** The decimal digit character for `d`. */
  function Digit(d: nat): (c: char)
    requires d < 10
    ensures '0' <= c <= '9'
    ensures c as int - '0' as int == d
  {
    ('0' as int + d) as char
  }

  /** Python's `str(n)` for a non-negative integer: decimal digits, no leading zero. */
  function NatToString(n: nat): (s: string)
    ensures 1 <= |s|
    ensures forall j :: 0 <= j < |s| ==> '0' <= s[j] <= '9'
  {
    if n < 10 then [Digit(n)] else NatToString(n / 10) + [Digit(n % 10)]
  }

  /** Python's `str(i)` for any integer. */
  function IntToString(i: int): (s: string)
    ensures 1 <= |s|
    ensures s[0] == '-' <==> i < 0
    ensures forall j :: 1 <= j < |s| ==> '0' <= s[j] <= '9'
  {
    if i < 0 then "-" + NatToString(-i) else NatToString(i)
  }

  /** A three-digit number prints as its three digits, most significant first. */
  lemma {:induction false} ThreeDigits(n: int)
    requires 100 <= n <= 999
    ensures IntToString(n) == [Digit(n / 100), Digit(n / 10 % 10), Digit(n % 10)]
  {
    calc {
      IntToString(n);
      NatToString(n);
      NatToString(n / 10) + [Digit(n % 10)];
      { assert 10 <= n / 10; assert n / 10 / 10 == n / 100; }
      NatToString(n / 100) + [Digit(n / 10 % 10)] + [Digit(n % 10)];
      [Digit(n / 100), Digit(n / 10 % 10), Digit(n % 10)];
    }
  }

  /** For a three-digit number, `str(n).startswith(str(d))` with a single digit `d`
      tests the hundreds digit. */
  lemma LeadingDigit(n: int, d: nat)
    requires 100 <= n <= 999 && d < 10
    ensures StartsWith(IntToString(n), [Digit(d)]) <==> n / 100 == d
  {
    ThreeDigits(n);
    var s := IntToString(n);
    assert StartsWith(s, [Digit(d)]) <==> s[0] == Digit(d) by {
      assert s[..1] == [s[0]];
    }
  }

  /** For two three-digit numbers, `str(n).startswith(str(m))` holds exactly when they are equal. */
  lemma ThreeDigitPrefix(n: int, m: int)
    requires 100 <= n <= 999 && 100 <= m <= 999
    ensures StartsWith(IntToString(n), IntToString(m)) <==> n == m
  {
    ThreeDigits(n);
    ThreeDigits(m);
    var s, t := IntToString(n), IntToString(m);
    if StartsWith(s, t) {
      assert s == s[..3] == t;
      assert s[0] == t[0] && s[1] == t[1] && s[2] == t[2];
      assert n / 100 == m / 100 && n / 10 % 10 == m / 10 % 10 && n % 10 == m % 10;
      SameDigits(n, m);
    }
  }

  /** Two numbers with the same hundreds, tens and units digits are equal. */
  lemma SameDigits(n: nat, m: nat)
    requires n / 100 == m / 100 && n / 10 % 10 == m / 10 % 10 && n % 10 == m % 10
    ensures n == m
  {
    assert n / 10 / 10 == n / 100 && m / 10 / 10 == m / 100;
    assert n / 10 == m / 10;
  }

  /** Python's `s.replace(pattern, "")`: every non-overlapping occurrence of
      `pattern`, scanned left to right, is deleted. */
  function RemoveAll(s: string, pattern: string): (r: string)
    requires |pattern| > 0
    ensures |r| <= |s|
    ensures |s| < |pattern| ==> r == s
    decreases |s|
  {
    if |s| < |pattern| then s
    else if s[..|pattern|] == pattern then RemoveAll(s[|pattern|..], pattern)
    else [s[0]] + RemoveAll(s[1..], pattern)
  }

  /** A pair symbol such as "btc_jpy" loses exactly its "_jpy" suffix, provided
      the base currency itself contains no underscore. */
  lemma {:induction false} RemoveJpySuffix(base: string)
    requires '_' !in base
    ensures RemoveAll(base + "_jpy", "_jpy") == base
  {
    var s := base + "_jpy";
    if base == [] {
      assert s[..4] == "_jpy";
      assert s[4..] == [];
    } else {
      assert s[0] == base[0] != '_';
      assert |s| >= 4 && s[..4][0] != "_jpy"[0];
      assert s[1..] == base[1..] + "_jpy";
      RemoveJpySuffix(base[1..]);
      assert RemoveAll(s, "_jpy") == [s[0]] + RemoveAll(s[1..], "_jpy");
      assert base == [base[0]] + base[1..];
    }
  }
}
