/** The string and number formatting the services rely on, over ASCII. */
module Text {

  datatype Option<+T> = None | Some(value: T)

  type Int32 = x: int | -0x8000_0000 <= x < 0x8000_0000

  const INT32_MAX := 0x7fff_ffff
  const INT64_MAX := 0x7fff_ffff_ffff_ffff

  /** Unchecked 32-bit arithmetic. */
  function Wrap32(x: int): Int32 {
    (x + 0x8000_0000) % 0x1_0000_0000 - 0x8000_0000
  }

  /** Unchecked 64-bit arithmetic. */
  function Wrap64(x: int): int {
    (x + 0x8000_0000_0000_0000) % 0x1_0000_0000_0000_0000 - 0x8000_0000_0000_0000
  }

  /** The wrapped number is congruent and in range. */
  lemma WrapMeaning(x: int)
    ensures -2_147_483_648 <= Wrap32(x) <= 2_147_483_647 && (x - Wrap32(x)) % 4_294_967_296 == 0
    ensures -9_223_372_036_854_775_808 <= Wrap64(x) <= 9_223_372_036_854_775_807
    ensures (x - Wrap64(x)) % 18_446_744_073_709_551_616 == 0
  {
  }

  function FoldChar(c: char): char {
    if 'a' <= c <= 'z' then c - 'a' + 'A' else c
  }

  /** The case-insensitive identity of a string: `OrdinalIgnoreCase` compares these. */
  function Fold(s: string): (r: string)
    ensures |r| == |s| && forall i :: 0 <= i < |s| ==> r[i] == FoldChar(s[i])
  {
    if s == "" then "" else [FoldChar(s[0])] + Fold(s[1..])
  }

  /** One letter in two cases, or the same character. */
  predicate SameLetter(a: char, b: char) {
    || a == b
    || ('a' <= a <= 'z' && b as int == a as int - 32)
    || ('a' <= b <= 'z' && a as int == b as int - 32)
  }

  predicate SameText(a: string, b: string) {
    |a| == |b| && forall i :: 0 <= i < |a| ==> SameLetter(a[i], b[i])
  }

  /** Folding is comparing without regard to the case of the letters a to z. */
  lemma FoldMeaning(a: string, b: string)
    ensures Fold(a) == Fold(b) <==> SameText(a, b)
  {
    hide Fold;
    if |a| == |b| {
      forall i | 0 <= i < |a| ensures FoldChar(a[i]) == FoldChar(b[i]) <==> SameLetter(a[i], b[i]) {
        FoldCharMeaning(a[i], b[i]);
      }
      if Fold(a) == Fold(b) {
        forall i | 0 <= i < |a| ensures SameLetter(a[i], b[i]) {
          assert Fold(a)[i] == Fold(b)[i];
        }
      }
      if SameText(a, b) {
        forall i | 0 <= i < |a| ensures Fold(a)[i] == Fold(b)[i] {
          assert SameLetter(a[i], b[i]);
        }
        assert Fold(a) == Fold(b);
      }
    }
  }

  /** The folded text has its letters in capitals and is otherwise the text. */
  lemma FoldIsUpper(s: string)
    ensures SameText(Fold(s), s)
    ensures forall c :: c in Fold(s) ==> !('a' <= c <= 'z')
  {
    forall c | c in Fold(s) ensures !('a' <= c <= 'z') {
      var i :| 0 <= i < |s| && Fold(s)[i] == c;
      assert c == FoldChar(s[i]);
    }
  }

  lemma FoldCharMeaning(a: char, b: char)
    ensures FoldChar(a) == FoldChar(b) <==> SameLetter(a, b)
  {
  }

  predicate ContainsIgnoreCase(xs: seq<string>, x: string) {
    exists i :: 0 <= i < |xs| && Fold(xs[i]) == Fold(x)
  }

  predicate IsSpace(c: char) {
    c == ' ' || 9 as char <= c <= 13 as char
  }

  predicate IsWhiteSpace(s: string) {
    forall i :: 0 <= i < |s| ==> IsSpace(s[i])
  }

  function TrimStart(s: string): string {
    if s != "" && IsSpace(s[0]) then TrimStart(s[1..]) else s
  }

  function TrimEnd(s: string): string {
    if s != "" && IsSpace(s[|s| - 1]) then TrimEnd(s[..|s| - 1]) else s
  }

  function Trim(s: string): string {
    TrimEnd(TrimStart(s))
  }

  /** White space is the blank and the characters 9 to 13, and a trimmed string is the string without it at both ends. */
  lemma TrimMeaning(s: string) returns (left: string, right: string)
    ensures s == left + Trim(s) + right && IsWhiteSpace(left) && IsWhiteSpace(right)
    ensures var t := Trim(s); t != "" ==> !IsSpace(t[0]) && !IsSpace(t[|t| - 1])
    ensures forall c: char :: IsSpace(c) <==> c as int in {9, 10, 11, 12, 13, 32}
  {
    left := TrimStartMeaning(s);
    right := TrimEndMeaning(TrimStart(s));
  }

  lemma {:induction false} TrimStartMeaning(s: string) returns (left: string)
    ensures s == left + TrimStart(s) && IsWhiteSpace(left)
    ensures TrimStart(s) != "" ==> !IsSpace(TrimStart(s)[0])
  {
    left := "";
    if s != "" && IsSpace(s[0]) {
      left := TrimStartMeaning(s[1..]);
      left := [s[0]] + left;
    }
  }

  lemma {:induction false} TrimEndMeaning(s: string) returns (right: string)
    ensures s == TrimEnd(s) + right && IsWhiteSpace(right)
    ensures TrimEnd(s) != "" ==> !IsSpace(TrimEnd(s)[|TrimEnd(s)| - 1]) && TrimEnd(s)[0] == s[0]
  {
    right := "";
    if s != "" && IsSpace(s[|s| - 1]) {
      right := TrimEndMeaning(s[..|s| - 1]);
      right := right + [s[|s| - 1]];
    }
  }

  predicate IsDigit(c: char) {
    '0' <= c <= '9'
  }

  function Digit(n: nat): char
    requires n < 10
  {
    '0' + n as char
  }

  /** `long.ToString()` of a non-negative number. */
  function PrintNat(n: nat): (s: string)
    ensures s != "" && forall i :: 0 <= i < |s| ==> IsDigit(s[i])
  {
    if n < 10 then [Digit(n)] else PrintNat(n / 10) + [Digit(n % 10)]
  }

  /** `long.ToString()` */
  function PrintInt(n: int): string {
    if n < 0 then "-" + PrintNat(-n) else PrintNat(n)
  }

  function ParseDigits(s: string): Option<nat> {
    if s == "" then None
    else if !IsDigit(s[|s| - 1]) then None
    else
      var low := (s[|s| - 1] - '0') as nat;
      if |s| == 1 then Some(low)
      else
        match ParseDigits(s[..|s| - 1])
        case None => None
        case Some(high) => Some(10 * high + low)
  }

  /** `long.TryParse` with its default style: surrounding white space and one leading sign. */
  function ParseLong(s: string): Option<int> {
    var t := Trim(s);
    var negative := t != "" && t[0] == '-';
    var digits := if t != "" && (t[0] == '-' || t[0] == '+') then t[1..] else t;
    match ParseDigits(digits)
    case None => None
    case Some(n) =>
      var magnitude: int := n;
      var v := if negative then -magnitude else magnitude;
      if -INT64_MAX - 1 <= v <= INT64_MAX then Some(v) else None
  }

  /** `string.IndexOf(c)`, -1 when absent. */
  function IndexOf(s: string, c: char): (i: int)
    ensures -1 <= i < |s|
    ensures i >= 0 ==> s[i] == c
    ensures forall k :: 0 <= k < |s| && (k < i || i < 0) ==> s[k] != c
  {
    if s == "" then -1
    else if s[0] == c then 0
    else
      var i := IndexOf(s[1..], c);
      if i < 0 then -1 else i + 1
  }

  /** `string.LastIndexOf(c)`, -1 when absent. */
  function LastIndexOf(s: string, c: char): (i: int)
    ensures -1 <= i < |s|
    ensures i >= 0 ==> s[i] == c
    ensures forall k :: i < k < |s| ==> s[k] != c
  {
    if s == "" then -1
    else if s[|s| - 1] == c then |s| - 1
    else
      LastIndexOf(s[..|s| - 1], c)
  }

  lemma {:induction false} ParseDigitsPrintNat(n: nat)
    ensures ParseDigits(PrintNat(n)) == Some(n)
  {
    if n >= 10 {
      ParseDigitsPrintNat(n / 10);
      assert PrintNat(n)[..|PrintNat(n)| - 1] == PrintNat(n / 10);
    }
  }

  /** Digits are decimal, the most significant first. */
  lemma PrintsDecimal(n: nat, digit: nat)
    requires digit < 10
    ensures PrintNat(digit) == ["0123456789"[digit]]
    ensures n > 0 ==> PrintNat(10 * n + digit) == PrintNat(n) + ["0123456789"[digit]]
    ensures n > 0 ==> PrintInt(0 - n) == "-" + PrintNat(n)
  {
  }

  /** Printing a `long` and parsing it back is the identity on the non-negative range. */
  lemma ParseLongPrintNat(n: nat)
    requires n <= INT64_MAX
    ensures ParseLong(PrintNat(n)) == Some(n)
  {
    var s := PrintNat(n);
    assert IsDigit(s[0]) && IsDigit(s[|s| - 1]);
    assert TrimStart(s) == s && Trim(s) == s;
    ParseDigitsPrintNat(n);
  }

  /** A separator absent from the left part is found at its end. */
  lemma FirstSeparator(a: string, c: char, b: string)
    requires c !in a
    ensures IndexOf(a + [c] + b, c) == |a|
  {
    hide IndexOf;
    var s := a + [c] + b;
    assert s[|a|] == c;
    forall k | 0 <= k < |a| ensures s[k] != c {
      assert s[k] == a[k];
    }
  }

  /** A separator absent from the right part is found from the end. */
  lemma LastSeparator(a: string, c: char, b: string)
    requires c !in b
    ensures LastIndexOf(a + [c] + b, c) == |a|
  {
    hide *;
    var s := a + [c] + b;
    forall k | |a| < k < |s| ensures s[k] != c {
      Absent(b, c, k - |a| - 1);
    }
    LastIndexIs(s, c, |a|);
  }

  lemma Absent(s: string, c: char, k: nat)
    requires c !in s && k < |s|
    ensures s[k] != c
  {
  }

  lemma LastIndexIs(s: string, c: char, i: nat)
    requires i < |s| && s[i] == c && forall k :: i < k < |s| ==> s[k] != c
    ensures LastIndexOf(s, c) == i
  {
    hide LastIndexOf;
    assert LastIndexOf(s, c) >= i;
  }

  /** Keys joined with a separator that the left parts do not contain are equal only part by part. */
  lemma SplitAtFirst(a: string, b: string, a': string, b': string, c: char)
    requires c !in a && c !in a' && a + [c] + b == a' + [c] + b'
    ensures a == a' && b == b'
  {
    FirstSeparator(a, c, b);
    FirstSeparator(a', c, b');
    var s := a + [c] + b;
    assert a == s[..|a|] && b == s[|a| + 1..];
    assert a' == s[..|a|] && b' == s[|a| + 1..];
  }
}
