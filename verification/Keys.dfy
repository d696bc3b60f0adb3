/**
 The identifiers that fmt.Sprintf builds: "%d-%s" for cache and retry keys (internal/linkevent/handler.go) and
 "%d-%d" for link identities (internal/link/manager.go). Different inputs never collide, negative numbers included.
 */
module Keys {

  function Digit(d: nat): char
    requires d < 10
  {
    ('0' as int + d) as char
  }

  /** The decimal digits of n, most significant first. */
  function Digits(n: nat): (r: string)
    ensures r != [] && '-' !in r
  {
    if n < 10 then [Digit(n)] else Digits(n / 10) + [Digit(n % 10)]
  }

  /** Go's %d. */
  function Decimal(n: int): string {
    if n < 0 then "-" + Digits(-n) else Digits(n)
  }

  /** cacheKey and retryKey, handler.go lines 228-230 and 415-417. */
  function MessageKey(bizID: int, key: string): string {
    Decimal(bizID) + "-" + key
  }

  /** generateLinkID, manager.go lines 96-98. */
  function LinkID(bizID: int, userID: int): string {
    Decimal(bizID) + "-" + Decimal(userID)
  }

  /** The number that a string of decimal digits denotes; nothing for any other string. */
  function Denoted(s: string): int {
    if s == "" then 0
    else
      var last := s[|s| - 1];
      if '0' <= last <= '9' && Denoted(s[..|s| - 1]) >= 0
      then Denoted(s[..|s| - 1]) * 10 + (last as int - '0' as int) else -1
  }

  /** %d is decimal notation: the digits denote the number, with a leading zero only for zero itself. */
  lemma {:induction false} DigitsDenote(n: nat)
    ensures Denoted(Digits(n)) == n
    ensures Digits(n)[0] == '0' <==> n == 0
  {
    var r := Digits(n);
    if n < 10 {
      assert r[..0] == "";
    } else {
      DigitsDenote(n / 10);
      assert r[..|r| - 1] == Digits(n / 10) && r[0] == Digits(n / 10)[0];
    }
  }

  /** A key is the sign of the business, its number in decimal notation, a dash and the message's key as it is. */
  lemma MessageKeyReads(bizID: int, key: string)
    ensures var k := MessageKey(bizID, key);
            exists digits :: Denoted(digits) == (if bizID < 0 then -bizID else bizID)
                          && k == (if bizID < 0 then "-" + digits + "-" + key else digits + "-" + key)
    ensures MessageKey(-12, "k") == "-12-k" && LinkID(7, 10) == "7-10"
  {
    var digits := Digits(if bizID < 0 then -bizID else bizID);
    DigitsDenote(if bizID < 0 then -bizID else bizID);
    assert MessageKey(bizID, key) == if bizID < 0 then "-" + digits + "-" + key else digits + "-" + key;
    assert Digits(12) == "12" && Digits(7) == "7" && Digits(10) == "10";
  }

  lemma {:induction false} DigitsInjective(m: nat, n: nat)
    requires Digits(m) == Digits(n)
    ensures m == n
  {
    if m < 10 && n < 10 {
      assert Digits(m)[0] == Digit(m) && Digits(n)[0] == Digit(n);
    } else if m >= 10 && n >= 10 {
      var a, b := Digits(m / 10), Digits(n / 10);
      assert a == (a + [Digit(m % 10)])[..|Digits(m)| - 1];
      assert b == (b + [Digit(n % 10)])[..|Digits(n)| - 1];
      assert Digits(m)[|Digits(m)| - 1] == Digit(m % 10) && Digits(n)[|Digits(n)| - 1] == Digit(n % 10);
      DigitsInjective(m / 10, n / 10);
    }
  }

  lemma DecimalInjective(m: int, n: int)
    requires Decimal(m) == Decimal(n)
    ensures m == n
  {
    assert Decimal(m)[0] == '-' <==> m < 0 by {
      if m >= 0 {
        assert Decimal(m)[0] in Digits(m);
      }
    }
    assert Decimal(n)[0] == '-' <==> n < 0 by {
      if n >= 0 {
        assert Decimal(n)[0] in Digits(n);
      }
    }
    if m < 0 {
      assert Decimal(m)[1..] == Digits(-m) && Decimal(n)[1..] == Digits(-n);
      DigitsInjective(-m, -n);
    } else {
      DigitsInjective(m, n);
    }
  }

  /** Two strings split at their first dash agree if the wholes agree. */
  lemma SplitAtDash(a: string, k: string, b: string, l: string)
    requires '-' !in a && '-' !in b && a + "-" + k == b + "-" + l
    ensures a == b && k == l
  {
    var whole := a + "-" + k;
    assert whole[|a|] == '-' && (b + "-" + l)[|b|] == '-';
    assert forall i :: 0 <= i < |b| ==> (b + "-" + l)[i] == b[i] && b[i] in b;
    assert forall i :: 0 <= i < |a| ==> whole[i] == a[i] && a[i] in a;
    assert whole[..|a|] == a && (b + "-" + l)[..|b|] == b;
    assert whole[|a| + 1..] == k && (b + "-" + l)[|b| + 1..] == l;
  }

  /** Prefixing an integer and a dash is injective in both parts. */
  lemma DecimalPrefixInjective(m: int, k: string, n: int, l: string)
    requires Decimal(m) + "-" + k == Decimal(n) + "-" + l
    ensures m == n && k == l
  {
    Signs(m, k);
    Signs(n, l);
    hide Digits;
    if m < 0 {
      SplitAtDash(Digits(-m), k, Digits(-n), l);
      DigitsInjective(-m, -n);
    } else {
      SplitAtDash(Digits(m), k, Digits(n), l);
      DigitsInjective(m, n);
    }
  }

  /** What follows an integer's sign. */
  lemma Signs(n: int, k: string)
    ensures var x := Decimal(n) + "-" + k;
            (x[0] == '-' <==> n < 0) && (if n < 0 then x[1..] == Digits(-n) + "-" + k else x == Digits(n) + "-" + k)
  {
    var x := Decimal(n) + "-" + k;
    assert x[0] == Decimal(n)[0];
    if n < 0 {
      assert x[1..] == Digits(-n) + "-" + k;
    } else {
      assert Decimal(n)[0] in Digits(n);
    }
  }

  /** The cache never confuses two messages: keys are equal exactly for the same business and message key. */
  lemma MessageKeyInjective(bizID: int, key: string, bizID': int, key': string)
    ensures MessageKey(bizID, key) == MessageKey(bizID', key') <==> bizID == bizID' && key == key'
  {
    if MessageKey(bizID, key) == MessageKey(bizID', key') {
      DecimalPrefixInjective(bizID, key, bizID', key');
    }
  }

  /** Every user of every business has a link identity of their own. */
  lemma LinkIDInjective(bizID: int, userID: int, bizID': int, userID': int)
    ensures LinkID(bizID, userID) == LinkID(bizID', userID') <==> bizID == bizID' && userID == userID'
  {
    if LinkID(bizID, userID) == LinkID(bizID', userID') {
      DecimalPrefixInjective(bizID, Decimal(userID), bizID', Decimal(userID'));
      DecimalInjective(userID, userID');
    }
  }
}
