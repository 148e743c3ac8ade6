/** The node name `consensus-node-<index>` derived in `deploy_node`: the
    decimal index right-aligned in a field of at least two characters,
    filled with '0' (Rust's `{:0>2}` format). */
module NodeNaming {
  import opened Wrappers

  const Prefix: string := "consensus-node-"
  /** Minimum width of the index field; longer numbers are not truncated. */
  const MinWidth: nat := 2

  predicate IsDigit(c: char)
  {
    '0' <= c <= '9'
  }

  predicate AllDigits(s: string)
  {
    forall k :: 0 <= k < |s| ==> IsDigit(s[k])
  }

  function DigitValue(c: char): (d: nat)
    requires IsDigit(c)
    ensures d < 10
  {
    (c as int) - ('0' as int)
  }

  function DigitChar(d: nat): (c: char)
    requires d < 10
    ensures IsDigit(c) && DigitValue(c) == d
  {
    (('0' as int) + d) as char
  }

  /** The decimal representation of `n`, most significant digit first,
      without leading zeros. */
  function Decimal(n: nat): (s: string)
    ensures 1 <= |s|
    ensures AllDigits(s)
    ensures s[0] == '0' <==> n == 0
    ensures n < 10 <==> |s| == 1
    ensures n < 100 <==> |s| <= 2
    decreases n
  {
    if n < 10 then [DigitChar(n)] else Decimal(n / 10) + [DigitChar(n % 10)]
  }

  /** The number a string of decimal digits denotes (leading zeros allowed). */
  function DigitsValue(s: string): nat
    requires AllDigits(s)
  {
    if s == [] then 0 else DigitsValue(s[..|s| - 1]) * 10 + DigitValue(s[|s| - 1])
  }

  /** Right-aligns `s` in a field of at least `width` characters. */
  function PadLeft(s: string, width: nat, fill: char): (r: string)
    ensures |r| == if |s| < width then width else |s|
    ensures r[|r| - |s|..] == s
    ensures forall k :: 0 <= k < |r| - |s| ==> r[k] == fill
  {
    if |s| < width then seq(width - |s|, _ => fill) + s else s
  }

  /** `format!("consensus-node-{node_index:0>2}")`. */
  function NodeName(index: nat): (name: string)
    ensures |Prefix| + MinWidth <= |name|
    ensures name[..|Prefix|] == Prefix
    ensures AllDigits(name[|Prefix|..])
    ensures index < 100 <==> |name| == |Prefix| + MinWidth
    ensures |name| == |Prefix| + (if |Decimal(index)| < MinWidth then MinWidth else |Decimal(index)|)
    ensures 10 <= index ==> name[|Prefix|] != '0'
  {
    Prefix + PadLeft(Decimal(index), MinWidth, '0')
  }

  /** Reads a node index back from a name: the prefix followed by at least
      `MinWidth` decimal digits. */
  function ParseNodeName(name: string): (r: Option<nat>)
    ensures r.Some? ==> |Prefix| + MinWidth <= |name| && name[..|Prefix|] == Prefix
  {
    if |Prefix| + MinWidth <= |name| && name[..|Prefix|] == Prefix && AllDigits(name[|Prefix|..])
    then Some(DigitsValue(name[|Prefix|..]))
    else None
  }

  lemma {:induction false} DecimalValue(n: nat)
    ensures DigitsValue(Decimal(n)) == n
    decreases n
  {
    if n >= 10 {
      var s := Decimal(n);
      assert s[..|s| - 1] == Decimal(n / 10);
      DecimalValue(n / 10);
    }
  }

  lemma {:induction false} ZerosValue(k: nat)
    ensures AllDigits(seq(k, _ => '0'))
    ensures DigitsValue(seq(k, _ => '0')) == 0
  {
    if k > 0 {
      var z := seq(k, _ => '0');
      assert z[..k - 1] == seq(k - 1, _ => '0');
      ZerosValue(k - 1);
    }
  }

  /** Leading zeros do not change the value of a digit string. */
  lemma {:induction false} LeadingZerosValue(k: nat, s: string)
    requires AllDigits(s)
    ensures AllDigits(seq(k, _ => '0') + s)
    ensures DigitsValue(seq(k, _ => '0') + s) == DigitsValue(s)
    decreases |s|
  {
    var z := seq(k, _ => '0');
    ZerosValue(k);
    assert AllDigits(z + s);
    if s == [] {
      assert z + s == z;
    } else {
      var t := z + s;
      assert t[..|t| - 1] == z + s[..|s| - 1];
      assert t[|t| - 1] == s[|s| - 1];
      LeadingZerosValue(k, s[..|s| - 1]);
    }
  }

  /** Parsing recovers the index from every node name, including indices of
      three or more digits. */
  lemma NodeNameRoundTrip(index: nat)
    ensures ParseNodeName(NodeName(index)) == Some(index)
  {
    var d := Decimal(index);
    var name := NodeName(index);
    var field := PadLeft(d, MinWidth, '0');
    assert name[|Prefix|..] == field;
    if |d| < MinWidth {
      assert field == seq(MinWidth - |d|, _ => '0') + d;
      LeadingZerosValue(MinWidth - |d|, d);
    }
    DecimalValue(index);
  }

  /** Distinct indices give distinct node names. */
  lemma NodeNameInjective(i: nat, j: nat)
    ensures NodeName(i) == NodeName(j) <==> i == j
  {
    NodeNameRoundTrip(i);
    NodeNameRoundTrip(j);
  }

  lemma DecimalExamples()
    ensures Decimal(3) == "3"
    ensures Decimal(42) == "42"
    ensures Decimal(123) == "123"
  {
  }

  /** The name of an index below 10 carries one padding zero; from 10 on the
      digits fill the field, and from 100 on the name grows. */
  lemma NodeNameExamples()
    ensures NodeName(3) == "consensus-node-03"
    ensures NodeName(42) == "consensus-node-42"
    ensures NodeName(123) == "consensus-node-123"
  {
    DecimalExamples();
    assert PadLeft("3", MinWidth, '0') == "03";
    assert PadLeft("42", MinWidth, '0') == "42";
    assert PadLeft("123", MinWidth, '0') == "123";
  }
}
