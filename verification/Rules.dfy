/** The thirteen deterministic rules and the context they read. */
module Rules {
  import opened Text
  import opened Money
  import opened Models
  import opened DecisionPolicy

  const TICKS_PER_HOUR := 36_000_000_000
  const HOURS_PER_DAY := 24

  datatype Channel = POS | ATM | WEB | MOBILE | TRANSFER

  datatype Category =
    | Grocery | Fuel | Restaurant | Travel | Electronics | Clothing | Healthcare | Utilities
    | Gambling | Crypto | MoneyTransfer | Adult | Other

  datatype Transaction = Transaction(
    amount: Money, category: Category, country: string, city: Option<string>,
    time: int, cardPresent: bool, channel: Channel, deviceId: Option<string>)

  datatype Historical = Historical(country: string, city: Option<string>, time: int, channel: Channel)

  datatype Profile = Profile(
    homeCountry: string, average: real, median: real,
    commonCountries: seq<string>, commonCategories: seq<Category>, commonDevices: seq<string>,
    typicalHours: seq<int>, openedAt: int, lifetimeCount: int)

  /** A parameter set as its three typed getters see it: a key is present where `TryParse` succeeds. */
  datatype Parameters = Parameters(
    ruleCode: string, enabled: bool, score: Int32,
    ints: map<string, Int32>, decimals: map<string, real>, doubles: map<string, real>)

  function GetInt(p: Parameters, key: string, fallback: Int32): Int32 {
    if key in p.ints then p.ints[key] else fallback
  }

  function GetDecimal(p: Parameters, key: string, fallback: real): real {
    if key in p.decimals then p.decimals[key] else fallback
  }

  function GetDouble(p: Parameters, key: string, fallback: real): real {
    if key in p.doubles then p.doubles[key] else fallback
  }

  datatype Point = Point(latitude: real, longitude: real)

  /** The city table and the distance formula, as parameters. */
  datatype Geography = Geography(
    resolve: (string, Option<string>) -> Option<Point>,
    distanceKm: (Point, Point) -> real)

  datatype Context = Context(
    transaction: Transaction, profile: Profile, velocity: Velocity,
    knownDevices: seq<string>, recent: seq<Historical>,
    parameters: map<string, Parameters>, evaluatedAt: int, geography: Geography)

  /** A rule that the ruleset does not mention is enabled with score 0. */
  function ParametersFor(c: Context, code: string): Parameters {
    if code in c.parameters then c.parameters[code]
    else Parameters(code, true, 0, map[], map[], map[])
  }

  /** Evidence values before formatting. */
  datatype Value =
    | Str(s: string) | Num(n: int) | Dec(d: real) | Cash(m: Money) | Flag(b: bool)
    | Strings(ss: seq<string>) | Hours(hs: seq<int>) | Via(channel: Channel) | Kind(category: Category)
    | Where(country: string, city: Option<string>)

  datatype Result =
    | Quiet
    | Hit(code: string, score: nat, evidence: map<string, Value>)
    | Fault

  function MakeHit(code: string, score: int, evidence: map<string, Value>): Result {
    Hit(code, if score < 0 then 0 else score, evidence)
  }

  const HIGH_VALUE := "HIGH_VALUE"
  const FOREIGN_COUNTRY := "FOREIGN_LOCATION"
  const UNKNOWN_DEVICE := "UNKNOWN_DEVICE"
  const CARD_NOT_PRESENT := "CARD_NOT_PRESENT"
  const MERCHANT_RISK := "MERCHANT_RISK"
  const UNUSUAL_TIME := "UNUSUAL_TIME"
  const NEW_ACCOUNT := "NEW_ACCOUNT"
  const BEHAVIOUR_DEVIATION := "BEHAVIOURAL_DEVIATION"
  const RAPID_COUNTRY_CHANGE := "RAPID_COUNTRY_CHANGE"
  const ROUND_AMOUNT := "ROUND_AMOUNT"

  /** The score is a checked conversion to `int`, so an extreme configured score faults. */
  function HighValue(c: Context): Result {
    var p := ParametersFor(c, HIGH_VALUE);
    var threshold := GetDecimal(p, "threshold", 3000.0);
    var amount := c.transaction.amount.amount;
    if amount < threshold then Quiet
    else
      var intensity := if amount >= threshold * 2.0 then 1.5 else 1.0;
      var score := RoundAwayFromZero(p.score as real * intensity);
      if !(-0x8000_0000 <= score < 0x8000_0000) then Fault
      else MakeHit(HIGH_VALUE, score, map["amount" := Cash(c.transaction.amount), "threshold" := Dec(threshold)])
  }

  /** Doubled limits and the boosted score wrap at 32 bits. */
  function VelocityScore(score: Int32, limit5: Int32, limit1: Int32, tx5: int, tx1: int): int {
    if tx5 >= Wrap32(limit5 * 2) || tx1 >= Wrap32(limit1 * 2)
    then var boosted := Wrap32(score + 10); if boosted <= 50 then boosted else 50
    else score
  }

  function HighVelocity(c: Context): Result {
    var p := ParametersFor(c, HIGH_VELOCITY);
    var limit5 := GetInt(p, "fiveMinuteCount", 5);
    var limit1 := GetInt(p, "oneMinuteLimit", GetInt(p, "oneMinuteCount", 3));
    var v := c.velocity;
    if v.tx5 < limit5 && v.tx1 < limit1 then Quiet
    else MakeHit(HIGH_VELOCITY, VelocityScore(p.score, limit5, limit1, v.tx5, v.tx1),
                 map["tx1m" := Num(v.tx1), "tx5m" := Num(v.tx5), "spend5m" := Cash(v.spend5)])
  }

  function ForeignCountry(c: Context): Result {
    var country := c.transaction.country;
    if Fold(c.profile.homeCountry) == Fold(country) || ContainsIgnoreCase(c.profile.commonCountries, country) then Quiet
    else MakeHit(FOREIGN_COUNTRY, ParametersFor(c, FOREIGN_COUNTRY).score,
                 map["homeCountry" := Str(c.profile.homeCountry), "transactionCountry" := Str(country),
                     "commonCountries" := Strings(c.profile.commonCountries)])
  }

  predicate Missing(id: Option<string>) {
    id.None? || IsWhiteSpace(id.value)
  }

  /** The second hit takes its code from the parameter set. */
  function UnknownDevice(c: Context): Result {
    var id := c.transaction.deviceId;
    var p := ParametersFor(c, UNKNOWN_DEVICE);
    if Missing(id) then MakeHit(UNKNOWN_DEVICE, p.score, map["deviceId" := Str("missing")])
    else if ContainsIgnoreCase(c.knownDevices, id.value) || ContainsIgnoreCase(c.profile.commonDevices, id.value) then Quiet
    else MakeHit(p.ruleCode, p.score, map["deviceId" := Str(id.value), "knownDeviceCount" := Num(|c.knownDevices|)])
  }

  function CardNotPresent(c: Context): Result {
    var t := c.transaction;
    if t.cardPresent || t.channel == TRANSFER then Quiet
    else MakeHit(CARD_NOT_PRESENT, ParametersFor(c, CARD_NOT_PRESENT).score,
                 map["channel" := Via(t.channel), "cardPresent" := Flag(false)])
  }

  predicate Physical(channel: Channel) {
    channel == POS || channel == ATM
  }

  /** The latest physical transaction, the first listed among equals. */
  function LatestPhysical(recent: seq<Historical>): Option<Historical> {
    if recent == [] then None
    else
      var later := LatestPhysical(recent[1..]);
      if !Physical(recent[0].channel) then later
      else if later.Some? && later.value.time > recent[0].time then later
      else Some(recent[0])
  }

  function ImpossibleTravel(c: Context): Result {
    var t := c.transaction;
    var previous := LatestPhysical(c.recent);
    if !Physical(t.channel) || previous.None? then Quiet
    else
      var from := c.geography.resolve(previous.value.country, previous.value.city);
      var to := c.geography.resolve(t.country, t.city);
      if from.None? || to.None? then Quiet
      else
        var apart := t.time - previous.value.time;
        var ticks := if apart < 0 then -apart else apart;
        var hours := if ticks == 0 then 1.0 / 60.0 else ticks as real / TICKS_PER_HOUR as real;
        var distance := c.geography.distanceKm(from.value, to.value);
        var speed := distance / hours;
        var p := ParametersFor(c, IMPOSSIBLE_TRAVEL);
        if speed <= GetDouble(p, "maxSpeedKmh", 900.0) then Quiet
        else MakeHit(IMPOSSIBLE_TRAVEL, p.score,
                     map["from" := Where(previous.value.country, previous.value.city), "to" := Where(t.country, t.city),
                         "distanceKm" := Dec(distance), "hours" := Dec(hours), "impliedSpeedKmh" := Dec(speed)])
  }

  /** Integer division truncates toward zero. */
  function MerchantScore(score: Int32, unusual: bool): int {
    if unusual then score
    else
      var half: int := if score >= 0 then score / 2 else -((0 - score) / 2);
      if half > 5 then half else 5
  }

  function MerchantRisk(c: Context): Result {
    var category := c.transaction.category;
    if category !in {Gambling, Crypto, MoneyTransfer, Adult} then Quiet
    else
      var unusual := category !in c.profile.commonCategories;
      MakeHit(MERCHANT_RISK, MerchantScore(ParametersFor(c, MERCHANT_RISK).score, unusual),
              map["category" := Kind(category), "unusualForCustomer" := Flag(unusual)])
  }

  function UnusualTime(c: Context): Result {
    var hour := c.transaction.time / TICKS_PER_HOUR % HOURS_PER_DAY;
    var typical := c.profile.typicalHours;
    var score := ParametersFor(c, UNUSUAL_TIME).score;
    if typical == [] then
      if 1 <= hour <= 4 then MakeHit(UNUSUAL_TIME, score, map["hourUtc" := Num(hour)]) else Quiet
    else if hour in typical || (hour + 23) % 24 in typical || (hour + 1) % 24 in typical then Quiet
    else MakeHit(UNUSUAL_TIME, score, map["hourUtc" := Num(hour), "typicalHours" := Hours(typical)])
  }

  function NewAccount(c: Context): Result {
    var p := ParametersFor(c, NEW_ACCOUNT);
    var days := GetInt(p, "days", 14);
    var age := c.evaluatedAt - c.profile.openedAt;
    if age >= days * HOURS_PER_DAY * TICKS_PER_HOUR then Quiet
    else MakeHit(NEW_ACCOUNT, p.score, map["accountAgeDays" := Num(age), "thresholdDays" := Num(days)])
  }

  function BehaviourDeviation(c: Context): Result {
    var baseline := if c.profile.median > 0.0 then c.profile.median else c.profile.average;
    if baseline <= 0.0 || c.profile.lifetimeCount < 5 then Quiet
    else
      var p := ParametersFor(c, BEHAVIOUR_DEVIATION);
      var amount := c.transaction.amount.amount;
      if amount < baseline * GetDecimal(p, "multiplier", 8.0) then Quiet
      else MakeHit(BEHAVIOUR_DEVIATION, p.score,
                   map["amount" := Dec(amount), "baseline" := Dec(baseline), "ratio" := Dec(amount / baseline)])
  }

  function RapidCountryChange(c: Context): Result {
    var p := ParametersFor(c, RAPID_COUNTRY_CHANGE);
    var distinct := c.velocity.countries30;
    if distinct < GetInt(p, "distinctCountries", 2) then Quiet
    else MakeHit(RAPID_COUNTRY_CHANGE, p.score,
                 map["distinctCountries30m" := Num(distinct), "currentCountry" := Str(c.transaction.country)])
  }

  function RepeatedDecline(c: Context): Result {
    var p := ParametersFor(c, REPEATED_DECLINE);
    if c.velocity.failed15 < GetInt(p, "failures", 3) then Quiet
    else MakeHit(REPEATED_DECLINE, p.score, map["failures15m" := Num(c.velocity.failed15)])
  }

  function RoundAmount(c: Context): Result {
    var p := ParametersFor(c, ROUND_AMOUNT);
    var amount := c.transaction.amount.amount;
    if amount < GetDecimal(p, "minimumAmount", 1000.0) then Quiet
    else if amount != amount.Floor as real || amount.Floor % 100 != 0 then Quiet
    else MakeHit(ROUND_AMOUNT, p.score, map["amount" := Cash(c.transaction.amount)])
  }

  /** A registered rule. */
  datatype Rule = Rule(code: string, evaluate: Context -> Result)

  /** The thirteen rules in registration order. */
  function Catalogue(): seq<Rule> {
    [ Rule(HIGH_VALUE, HighValue), Rule(HIGH_VELOCITY, HighVelocity), Rule(FOREIGN_COUNTRY, ForeignCountry),
      Rule(UNKNOWN_DEVICE, UnknownDevice), Rule(CARD_NOT_PRESENT, CardNotPresent),
      Rule(IMPOSSIBLE_TRAVEL, ImpossibleTravel), Rule(MERCHANT_RISK, MerchantRisk),
      Rule(UNUSUAL_TIME, UnusualTime), Rule(NEW_ACCOUNT, NewAccount),
      Rule(BEHAVIOUR_DEVIATION, BehaviourDeviation), Rule(RAPID_COUNTRY_CHANGE, RapidCountryChange),
      Rule(REPEATED_DECLINE, RepeatedDecline), Rule(ROUND_AMOUNT, RoundAmount) ]
  }
}
