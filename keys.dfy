/**
 * Native document keys and their string form.
 *
 * The document store gives every inserted document a native key that is
 * larger than every key it handed out before. The services copy that key,
 * stringified, into the document's `id` field and parse it back from a
 * string when they query by key (`ObjectId(s)`), which fails on a string
 * that is not the form of any key. Keys are naturals here and their string
 * form is the decimal numeral without leading zeros.
 */
module Keys {
  import opened Wrappers

  predicate IsDigit(c: char) {
    '0' <= c <= '9'
  }

  function Digit(d: nat): (c: char)
    requires d < 10
    ensures IsDigit(c) && c as int - '0' as int == d
  {
    ('0' as int + d) as char
  }

  predicate AllDigits(s: string) {
    forall i :: 0 <= i < |s| ==> IsDigit(s[i])
  }

  /** A string that is the form of exactly one key: digits, no leading zero. */
  predicate Canonical(s: string) {
    |s| > 0 && AllDigits(s) && (s[0] == '0' ==> |s| == 1)
  }

  /** The string form of a key: its decimal numeral. */
  function KeyString(k: nat): (s: string)
    ensures Canonical(s)
    ensures |s| == 1 <==> k < 10
  {
    if k < 10 then [Digit(k)] else KeyString(k / 10) + [Digit(k % 10)]
  }

  /** Value of a string of digits read as a decimal numeral. */
  function DigitsValue(s: string): nat
    requires AllDigits(s)
  {
    if s == [] then 0
    else 10 * DigitsValue(s[..|s| - 1]) + (s[|s| - 1] as int - '0' as int)
  }

  /** `ObjectId(s)`: the key a string names, or None where the store raises InvalidId. */
  function ParseKey(s: string): (r: Option<nat>)
    ensures r.Some? <==> Canonical(s)
  {
    if Canonical(s) then Some(DigitsValue(s)) else None
  }

  /** Parsing the string form of a key gives the key back. */
  lemma {:induction false} ParseKeyString(k: nat)
    ensures ParseKey(KeyString(k)) == Some(k)
  {
    var s := KeyString(k);
    if k >= 10 {
      ParseKeyString(k / 10);
      var p := KeyString(k / 10);
      assert s[..|s| - 1] == p;
      assert DigitsValue(s) == 10 * DigitsValue(p) + k % 10;
    }
  }

  lemma {:induction false} LeadingZeroValue(s: string)
    requires AllDigits(s) && |s| > 0 && s[0] != '0'
    ensures DigitsValue(s) > 0
    ensures |s| > 1 ==> DigitsValue(s) >= 10
  {
    if |s| > 1 {
      var p := s[..|s| - 1];
      LeadingZeroValue(p);
    }
  }

  /** Every string that parses is the string form of the key it names. */
  lemma {:induction false} KeyStringParse(s: string)
    requires ParseKey(s).Some?
    ensures KeyString(ParseKey(s).value) == s
  {
    var k := DigitsValue(s);
    if |s| == 1 {
      assert s[..|s| - 1] == [];
      assert DigitsValue(s[..|s| - 1]) == 0;
      assert k == s[0] as int - '0' as int;
      assert KeyString(k) == [s[0]];
    } else {
      var p := s[..|s| - 1];
      assert p[0] == s[0];
      LeadingZeroValue(s);
      LeadingZeroValue(p);
      assert Canonical(p);
      KeyStringParse(p);
      var d := s[|s| - 1] as int - '0' as int;
      assert k == 10 * DigitsValue(p) + d;
      assert k / 10 == DigitsValue(p) && k % 10 == d;
      assert s == p + [s[|s| - 1]];
    }
  }

  /** Distinct keys have distinct string forms. */
  lemma KeyStringInjective(a: nat, b: nat)
    ensures KeyString(a) == KeyString(b) ==> a == b
  {
    ParseKeyString(a);
    ParseKeyString(b);
  }
}
