/** Monetary values: two-decimal amounts with a normalised currency code. */
module Money {
  import opened Text

  /** `decimal.Round(x, 0, MidpointRounding.AwayFromZero)` */
  function RoundAwayFromZero(x: real): int {
    if x >= 0.0 then (x + 0.5).Floor else -(-x + 0.5).Floor
  }

  /** `decimal.Round(x, 2, MidpointRounding.AwayFromZero)` */
  function RoundToCents(x: real): real {
    RoundAwayFromZero(x * 100.0) as real / 100.0
  }

  function Normalise(currency: string): string {
    Fold(Trim(currency))
  }

  /** `Amount` and `Currency` as the constructor leaves them. */
  datatype Money = Money(amount: real, currency: string) {
    ghost predicate Valid() {
      && amount >= 0.0
      && RoundToCents(amount) == amount
      && Normalise(currency) == currency
      && !IsWhiteSpace(currency)
    }
  }

  /** The constructor; `None` where it throws. */
  function Make(amount: real, currency: string): Option<Money> {
    if IsWhiteSpace(currency) || amount < 0.0 then None
    else Some(Money(RoundToCents(amount), Normalise(currency)))
  }

  /** `None` where the conversion to `long` overflows. */
  function ToMinorUnits(m: Money): Option<int> {
    var minor := RoundAwayFromZero(m.amount * 100.0);
    if -INT64_MAX - 1 <= minor <= INT64_MAX then Some(minor) else None
  }

  function FromMinorUnits(minor: int, currency: string): Option<Money> {
    Make(minor as real / 100.0, currency)
  }

  /** `None` where the currencies differ. */
  function Add(a: Money, b: Money): Option<Money> {
    if a.currency != b.currency then None else Make(a.amount + b.amount, a.currency)
  }

  // ---- Rounding, by its distance ----

  /** The nearest integer; of two, the one further from zero. */
  lemma RoundMeaning(x: real)
    ensures var n := RoundAwayFromZero(x);
      && n as real - 0.5 <= x <= n as real + 0.5
      && (x == n as real + 0.5 ==> x < 0.0)
      && (x == n as real - 0.5 ==> x > 0.0)
  {
  }

  /** An accepted amount is moved to the nearest cent, half a cent upwards, and the currency is trimmed and put in capitals. */
  lemma MakeMeaning(amount: real, currency: string)
    requires amount >= 0.0 && !IsWhiteSpace(currency)
    ensures Make(amount, currency).Some?
    ensures var m := Make(amount, currency).value;
      && m.amount - 0.005 <= amount < m.amount + 0.005
      && (exists cents: int :: Cents(m, cents))
      && SameText(m.currency, Trim(currency)) && (forall c :: c in m.currency ==> !('a' <= c <= 'z'))
  {
    FoldIsUpper(Trim(currency));
    var cents := RoundAwayFromZero(amount * 100.0);
    RoundMeaning(amount * 100.0);
    assert Cents(Make(amount, currency).value, cents);
  }

  predicate Cents(m: Money, cents: int) {
    m.amount * 100.0 == cents as real
  }

  /** The minor units of a proper amount are its cents, as far as a `long` reaches. */
  lemma MinorUnitsMeaning(m: Money, cents: int)
    requires Cents(m, cents)
    ensures ToMinorUnits(m) ==
      if -9_223_372_036_854_775_808 <= cents <= 9_223_372_036_854_775_807 then Some(cents) else None
  {
    RoundMeaning(m.amount * 100.0);
  }

  // ---- Normalisation is idempotent ----

  lemma TrimShape(s: string)
    ensures Trim(s) != "" ==> !IsSpace(Trim(s)[0]) && !IsSpace(Trim(s)[|Trim(s)| - 1])
    ensures !IsWhiteSpace(s) ==> Trim(s) != ""
  {
    var left, right := TrimMeaning(s);
    if Trim(s) == "" {
      assert s == left + right;
    }
  }

  lemma FoldTwice(s: string)
    ensures Fold(Fold(s)) == Fold(s)
  {
    hide Fold;
    forall i | 0 <= i < |s| ensures Fold(Fold(s))[i] == Fold(s)[i] {
    }
  }

  lemma FoldKeepsSpace(c: char)
    ensures IsSpace(FoldChar(c)) <==> IsSpace(c)
  {
  }

  lemma TrimFixed(s: string)
    requires s != "" ==> !IsSpace(s[0]) && !IsSpace(s[|s| - 1])
    ensures Trim(s) == s
  {
  }

  lemma NormaliseIdempotent(currency: string)
    ensures Normalise(Normalise(currency)) == Normalise(currency)
    ensures !IsWhiteSpace(currency) ==> !IsWhiteSpace(Normalise(currency))
  {
    hide Fold, FoldChar, Trim, IsSpace;
    var t := Trim(currency);
    TrimShape(currency);
    if t != "" {
      FoldKeepsSpace(t[0]);
      FoldKeepsSpace(t[|t| - 1]);
    }
    TrimFixed(Fold(t));
    FoldTwice(t);
  }

  // ---- Cents are exact ----

  lemma CentsExact(minor: int)
    ensures RoundAwayFromZero(minor as real / 100.0 * 100.0) == minor
    ensures RoundToCents(minor as real / 100.0) == minor as real / 100.0
  {
    assert minor as real / 100.0 * 100.0 == minor as real;
  }

  /** Every value the constructor accepts comes out normalised. */
  lemma MakeIsValid(amount: real, currency: string)
    ensures Make(amount, currency).Some? <==> !IsWhiteSpace(currency) && amount >= 0.0
    ensures Make(amount, currency).Some? ==> Make(amount, currency).value.Valid()
  {
    CentsExact(RoundAwayFromZero(amount * 100.0));
    NormaliseIdempotent(currency);
  }

  /** Minor units lose nothing: they rebuild the amount in the same currency. */
  lemma MinorUnitsRoundTrip(m: Money)
    requires m.Valid()
    ensures ToMinorUnits(m).Some? ==> FromMinorUnits(ToMinorUnits(m).value, m.currency) == Some(m)
  {
    CentsExact(RoundAwayFromZero(m.amount * 100.0));
  }

  /** ... and every non-negative `long` is the minor units of the money made from it. */
  lemma FromMinorUnitsRoundTrip(minor: int, currency: string)
    requires 0 <= minor <= INT64_MAX && !IsWhiteSpace(currency)
    ensures FromMinorUnits(minor, currency).Some?
    ensures FromMinorUnits(minor, currency).value.Valid()
    ensures ToMinorUnits(FromMinorUnits(minor, currency).value) == Some(minor)
  {
    CentsExact(minor);
    MakeIsValid(minor as real / 100.0, currency);
  }

  /** Proper amounts add exactly, and only in one currency. */
  lemma AddMeaning(a: Money, b: Money)
    requires a.Valid() && b.Valid()
    ensures Add(a, b).Some? <==> a.currency == b.currency
    ensures Add(a, b).Some? ==> Add(a, b).value == Money(a.amount + b.amount, a.currency)
  {
    if a.currency == b.currency {
      AddAddsMinorUnits(a, b);
      var x, y := RoundAwayFromZero(a.amount * 100.0), RoundAwayFromZero(b.amount * 100.0);
      assert a.amount == x as real / 100.0 && b.amount == y as real / 100.0;
      assert a.amount + b.amount == (x + y) as real / 100.0;
      CentsExact(x + y);
    }
  }

  /** Adding money is adding minor units. */
  lemma AddAddsMinorUnits(a: Money, b: Money)
    requires a.Valid() && b.Valid() && a.currency == b.currency
    ensures Add(a, b).Some? && Add(a, b).value.Valid()
    ensures RoundAwayFromZero(Add(a, b).value.amount * 100.0)
            == RoundAwayFromZero(a.amount * 100.0) + RoundAwayFromZero(b.amount * 100.0)
  {
    var x, y := RoundAwayFromZero(a.amount * 100.0), RoundAwayFromZero(b.amount * 100.0);
    assert a.amount == x as real / 100.0 && b.amount == y as real / 100.0;
    assert a.amount + b.amount == (x + y) as real / 100.0;
    CentsExact(x + y);
    MakeIsValid(a.amount + b.amount, a.currency);
  }
}
