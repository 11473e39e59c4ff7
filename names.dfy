/**
 * The name generators of the code generator: temporaries are `_t` followed by the
 * decimal value of the temporary counter, labels are `_L` followed by the decimal
 * value of the label counter. Java's `"_t" + id++` prints the counter in decimal,
 * so the decimal rendering is modelled here, together with the facts that make
 * the names unambiguous.
 */
module Names {

  /** The decimal digit character for 0 <= d < 10. */
  function Digit(d: nat): (c: char)
    requires d < 10
    ensures c as int == '0' as int + d
  {
    (('0' as int) + d) as char
  }

  /** Decimal rendering of a natural number, without leading zeros. */
  function NatToString(n: nat): (s: string)
    ensures |s| >= 1
    ensures n >= 10 ==> |s| >= 2
    ensures IsDigit(s[0])
  {
    if n < 10 then [Digit(n)] else NatToString(n / 10) + [Digit(n % 10)]
  }

  /** A decimal digit character. */
  predicate IsDigit(c: char)
  {
    '0' <= c <= '9'
  }

  /**
   * Decimal rendering of an integer, as Java's `Integer.toString`: never empty,
   * with a leading `-` exactly for negative values (digits follow, by IntToStringDigits).
   */
  function IntToString(v: int): (s: string)
    ensures |s| >= 1
    ensures s[0] == '-' <==> v < 0
    ensures v < 0 ==> |s| >= 2
  {
    if v < 0 then "-" + NatToString(-v) else NatToString(v)
  }

  /** Every character of a natural's rendering is a digit. */
  lemma {:induction false} NatToStringDigits(n: nat)
    ensures forall k :: 0 <= k < |NatToString(n)| ==> IsDigit(NatToString(n)[k])
  {
    if n >= 10 {
      NatToStringDigits(n / 10);
      assert NatToString(n) == NatToString(n / 10) + [Digit(n % 10)];
    }
  }

  /** Every character of an integer's rendering after its sign is a digit. */
  lemma IntToStringDigits(v: int)
    ensures forall k :: (if v < 0 then 1 else 0) <= k < |IntToString(v)| ==> IsDigit(IntToString(v)[k])
  {
    if v < 0 {
      NatToStringDigits(-v);
      assert IntToString(v)[1..] == NatToString(-v);
    } else {
      NatToStringDigits(v);
    }
  }

  /** The name `genId` returns for counter value n. */
  function TempName(n: nat): string
  {
    "_t" + NatToString(n)
  }

  /** The name `genLabel` returns for counter value n. */
  function LabelName(n: nat): string
  {
    "_L" + NatToString(n)
  }

  /** Different counter values render differently. */
  lemma {:induction false} NatToStringInjective(a: nat, b: nat)
    requires NatToString(a) == NatToString(b)
    ensures a == b
  {
    var sa, sb := NatToString(a), NatToString(b);
    if a < 10 && b < 10 {
      assert sa[0] == Digit(a) && sb[0] == Digit(b);
    } else if a >= 10 && b >= 10 {
      assert sa == NatToString(a / 10) + [Digit(a % 10)];
      assert sb == NatToString(b / 10) + [Digit(b % 10)];
      assert sa[|sa| - 1] == Digit(a % 10) && sb[|sb| - 1] == Digit(b % 10);
      assert NatToString(a / 10) == sa[..|sa| - 1] == sb[..|sb| - 1] == NatToString(b / 10);
      NatToStringInjective(a / 10, b / 10);
    }
  }

  /** Different integer literals render differently. */
  lemma IntToStringInjective(a: int, b: int)
    requires IntToString(a) == IntToString(b)
    ensures a == b
  {
    var sa := IntToString(a);
    if a < 0 {
      assert b < 0;
      assert NatToString(-a) == sa[1..] == NatToString(-b);
      NatToStringInjective(-a, -b);
    } else {
      assert b >= 0;
      NatToStringInjective(a, b);
    }
  }

  /** All temporaries issued in one run are pairwise distinct, because the counter never repeats. */
  lemma TempNameInjective(m: nat, n: nat)
    ensures TempName(m) == TempName(n) <==> m == n
  {
    if TempName(m) == TempName(n) {
      assert NatToString(m) == TempName(m)[2..] == TempName(n)[2..] == NatToString(n);
      NatToStringInjective(m, n);
    }
  }

  /** All labels issued in one run are pairwise distinct. */
  lemma LabelNameInjective(m: nat, n: nat)
    ensures LabelName(m) == LabelName(n) <==> m == n
  {
    if LabelName(m) == LabelName(n) {
      assert NatToString(m) == LabelName(m)[2..] == LabelName(n)[2..] == NatToString(n);
      NatToStringInjective(m, n);
    }
  }

  /** No temporary is ever mistaken for a label. */
  lemma TempNameIsNotLabelName(m: nat, n: nat)
    ensures TempName(m) != LabelName(n)
  {
    assert TempName(m)[1] == 't' && LabelName(n)[1] == 'L';
  }

  /** No issued label coincides with the sentinel "fall". */
  lemma LabelNameIsNotFall(n: nat)
    ensures LabelName(n) != "fall"
  {
    assert LabelName(n)[0] == '_';
  }
}
