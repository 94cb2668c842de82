/** The few string functions the generated names and annotations use. */
module Text {
  import opened Resources

  /** strings.ToLower on ASCII letters. */
  function LowerChar(c: char): char {
    if 'A' <= c <= 'Z' then c + ('a' - 'A') else c
  }

  function ToLower(s: string): (r: string)
    ensures |r| == |s|
    ensures forall i :: 0 <= i < |s| ==> r[i] == LowerChar(s[i])
  {
    seq(|s|, i requires 0 <= i < |s| => LowerChar(s[i]))
  }

  function Digits(n: nat): string {
    if n < 10 then [('0' as int + n) as char] else Digits(n / 10) + [('0' as int + n % 10) as char]
  }

  /** strconv.Itoa */
  function Itoa(n: int): string {
    if n < 0 then "-" + Digits(-n) else Digits(n)
  }

  predicate IsDigit(c: char) {
    '0' <= c <= '9'
  }

  /** The number a string of decimal digits stands for. */
  function Value(s: string): nat
    requires forall i :: 0 <= i < |s| ==> IsDigit(s[i])
  {
    if s == "" then 0
    else
      var last := s[|s| - 1];
      assert IsDigit(last);
      10 * Value(s[..|s| - 1]) + (last as int - '0' as int)
  }

  lemma {:induction false} DigitsReadBack(n: nat)
    ensures Digits(n) != "" && forall i :: 0 <= i < |Digits(n)| ==> IsDigit(Digits(n)[i])
    ensures Value(Digits(n)) == n && (n > 0 ==> Digits(n)[0] != '0')
  {
    if n >= 10 {
      DigitsReadBack(n / 10);
      assert Digits(n)[..|Digits(n)| - 1] == Digits(n / 10);
    } else {
      assert Digits(n)[..0] == "";
    }
  }

  /** A number is written with its sign, without leading zeros, and reads back as itself. */
  lemma ItoaReadsBack(n: int)
    ensures Itoa(n) != "" && (n < 0 <==> Itoa(n)[0] == '-')
    ensures var digits := if n < 0 then Itoa(n)[1..] else Itoa(n);
            && (forall i :: 0 <= i < |digits| ==> IsDigit(digits[i])) && digits != ""
            && Value(digits) == (if n < 0 then -n else n) && (n != 0 ==> digits[0] != '0')
  {
    DigitsReadBack(if n < 0 then -n else n);
  }

  /** The entry is made only when the number is given. */
  function WithNumber(m: map<string, string>, key: string, value: Option<int>): (r: map<string, string>)
    ensures forall k :: k in m && k != key ==> k in r && r[k] == m[k]
  {
    if value.Some? then m[key := Itoa(value.value)] else m
  }
}
