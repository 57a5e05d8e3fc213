/** The literal checks the typed pushers rely on: Go's strconv.ParseBool and
    strconv.Atoi, and the unanchored date pattern `\d{4}/\d{2}/\d{2}`. */
module Literals {
  import opened Wrappers

  /** The strings strconv.ParseBool reads as true and as false. */
  const TrueLiterals: set<string> := {"1", "t", "T", "TRUE", "true", "True"}
  const FalseLiterals: set<string> := {"0", "f", "F", "FALSE", "false", "False"}

  /** strconv.ParseBool; `None` is the syntax error it returns. */
  function ParseBool(s: string): (r: Option<bool>)
    ensures r == Some(true) <==> s in TrueLiterals
    ensures r == Some(false) <==> s in FalseLiterals
    ensures r == None <==> s !in TrueLiterals + FalseLiterals
  {
    match s
    case "1" => Some(true)
    case "t" => Some(true)
    case "T" => Some(true)
    case "TRUE" => Some(true)
    case "true" => Some(true)
    case "True" => Some(true)
    case "0" => Some(false)
    case "f" => Some(false)
    case "F" => Some(false)
    case "FALSE" => Some(false)
    case "false" => Some(false)
    case "False" => Some(false)
    case _ => None
  }

  // ---------------------------------------------------------------------------
  // Decimal integers

  /** Go's int is 64 bits wide on the platforms the program targets. */
  const MinInt: int := -0x8000_0000_0000_0000
  const MaxInt: int := 0x7FFF_FFFF_FFFF_FFFF

  predicate IsDigit(c: char)
  {
    '0' <= c <= '9'
  }

  predicate AllDigits(s: string)
  {
    forall i :: 0 <= i < |s| ==> IsDigit(s[i])
  }

  /** The value of a string of decimal digits, most significant first. */
  function DigitsValue(s: string): nat
    requires AllDigits(s)
  {
    if s == [] then 0
    else DigitsValue(s[..|s| - 1]) * 10 + (s[|s| - 1] - '0') as nat
  }

  /** strconv.Atoi: an optional `+` or `-`, then one or more ASCII digits,
      with a value that fits Go's int; `None` is the error it returns. */
  function Atoi(s: string): (r: Option<int>)
    ensures r.Some? ==> MinInt <= r.value <= MaxInt
    ensures r.Some? ==> |s| > 0 && (IsDigit(s[0]) || s[0] == '+' || s[0] == '-') && AllDigits(s[1..])
    ensures r.Some? && (s[0] == '+' || s[0] == '-') ==> |s| > 1
    ensures r.Some? && r.value < 0 ==> s[0] == '-'
  {
    var signed := |s| > 0 && (s[0] == '+' || s[0] == '-');
    var digits := if signed then s[1..] else s;
    if digits == [] || !AllDigits(digits) then None
    else
      var v: int := DigitsValue(digits);
      var n := if signed && s[0] == '-' then -v else v;
      if MinInt <= n <= MaxInt then Some(n) else None
  }

  /** The decimal digits of a natural number, without leading zeros. */
  function NatDigits(n: nat): string
    decreases n
  {
    if n < 10 then ['0' + n as char]
    else NatDigits(n / 10) + ['0' + (n % 10) as char]
  }

  /** strconv.Itoa: the shortest decimal form, with `-` for negatives. */
  function Itoa(n: int): string
  {
    if n < 0 then "-" + NatDigits(-n) else NatDigits(n)
  }

  lemma {:induction false} NatDigitsValue(n: nat)
    ensures NatDigits(n) != [] && IsDigit(NatDigits(n)[0])
    ensures AllDigits(NatDigits(n)) && DigitsValue(NatDigits(n)) == n
    decreases n
  {
    if n >= 10 {
      NatDigitsValue(n / 10);
      var d := NatDigits(n);
      assert d[..|d| - 1] == NatDigits(n / 10);
    }
  }

  /** Atoi reads back every int that Itoa writes. */
  lemma AtoiItoa(n: int)
    requires MinInt <= n <= MaxInt
    ensures Atoi(Itoa(n)) == Some(n)
  {
    if n < 0 {
      NatDigitsValue(-n);
      assert Itoa(n)[1..] == NatDigits(-n);
    } else {
      NatDigitsValue(n);
    }
  }

  /** Atoi rejects every decimal outside Go's 64-bit int range, whatever its
      sign and however many leading zeros it has. */
  lemma AtoiRejectsOverflow(sign: string, k: nat, m: nat)
    requires sign == "" || sign == "+" || sign == "-"
    requires var n: int := if sign == "-" then -(m as int) else m; n < MinInt || n > MaxInt
    ensures Atoi(sign + (Zeros(k) + NatDigits(m))) == None
  {
    NatDigitsValue(m);
    ZerosValue(k, NatDigits(m));
    AtoiSignedDigits(sign, Zeros(k) + NatDigits(m));
  }

  /** k zero digits. */
  function Zeros(k: nat): (z: string)
    ensures |z| == k && AllDigits(z)
  {
    seq(k, _ => '0')
  }

  /** A leading zero does not change the value of a digit string. */
  lemma {:induction false} LeadingZeroValue(d: string)
    requires AllDigits(d)
    ensures AllDigits(['0'] + d) && DigitsValue(['0'] + d) == DigitsValue(d)
    decreases |d|
  {
    var z := ['0'] + d;
    if d != [] {
      LeadingZeroValue(d[..|d| - 1]);
      assert z[..|z| - 1] == ['0'] + d[..|d| - 1];
    }
  }

  /** Leading zeros, any number of them, do not change the value. */
  lemma {:induction false} ZerosValue(k: nat, d: string)
    requires AllDigits(d)
    ensures AllDigits(Zeros(k) + d) && DigitsValue(Zeros(k) + d) == DigitsValue(d)
  {
    if k == 0 {
      assert Zeros(k) + d == d;
    } else {
      ZerosValue(k - 1, d);
      assert Zeros(k) + d == ['0'] + (Zeros(k - 1) + d);
      LeadingZeroValue(Zeros(k - 1) + d);
    }
  }

  /** Atoi on a sign (or none) followed by digits: the signed value of the
      digits, when it is in range. */
  lemma AtoiSignedDigits(sign: string, digits: string)
    requires sign == "" || sign == "+" || sign == "-"
    requires digits != [] && AllDigits(digits)
    ensures var d: int := DigitsValue(digits); var v := if sign == "-" then -d else d;
      Atoi(sign + digits) == if MinInt <= v <= MaxInt then Some(v) else None
  {
    var s := sign + digits;
    if sign == "" {
      assert s == digits;
    } else {
      assert s[0] == sign[0] && s[1..] == digits;
    }
  }

  /** Atoi reads every well-formed in-range decimal: an optional sign that
      agrees with the value (`+` or none for non-negatives, `-` for
      non-positives), any number of leading zeros, then the digits. */
  lemma AtoiReadsDecimal(sign: string, k: nat, n: int)
    requires MinInt <= n <= MaxInt
    requires sign == "" || sign == "+" || sign == "-"
    requires n < 0 ==> sign == "-"
    requires n > 0 ==> sign != "-"
    ensures Atoi(sign + (Zeros(k) + NatDigits(if n < 0 then -n else n))) == Some(n)
  {
    var m: nat := if n < 0 then -n else n;
    var digits := Zeros(k) + NatDigits(m);
    NatDigitsValue(m);
    ZerosValue(k, NatDigits(m));
    assert digits != [];
    AtoiSignedDigits(sign, digits);
  }

  /** Atoi rejects the empty string, a lone sign and any non-digit. */
  lemma AtoiRejects(s: string)
    requires s == [] || s == "+" || s == "-" || exists i :: 1 <= i < |s| && !IsDigit(s[i])
    ensures Atoi(s) == None
  {
  }

  // ---------------------------------------------------------------------------
  // The SimpleDate pattern

  /** `dddd/dd/dd` with ASCII digits starts at index i of s. */
  predicate DateAt(s: string, i: nat)
  {
    i + 10 <= |s| &&
    IsDigit(s[i]) && IsDigit(s[i + 1]) && IsDigit(s[i + 2]) && IsDigit(s[i + 3]) &&
    s[i + 4] == '/' && IsDigit(s[i + 5]) && IsDigit(s[i + 6]) &&
    s[i + 7] == '/' && IsDigit(s[i + 8]) && IsDigit(s[i + 9])
  }

  /** SimpleDate.MatchString: the unanchored pattern occurs somewhere in s. */
  function ContainsDate(s: string): (r: bool)
    ensures r <==> exists i: nat :: DateAt(s, i)
    decreases |s|
  {
    if |s| < 10 then false
    else if DateAt(s, 0) then true
    else
      var r := ContainsDate(s[1..]);
      assert forall i: nat :: DateAt(s[1..], i) <==> DateAt(s, i + 1);
      assert r ==> exists i: nat :: DateAt(s, i) by {
        if r {
          var i: nat :| DateAt(s[1..], i);
          assert DateAt(s, i + 1);
        }
      }
      assert (exists i: nat :: DateAt(s, i)) ==> r by {
        if exists i: nat :: DateAt(s, i) {
          var i: nat :| DateAt(s, i);
          assert i > 0;
          assert DateAt(s[1..], i - 1);
        }
      }
      r
  }
}
