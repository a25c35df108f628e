/** The earnings calculator (`calculateEarnings`) and the settings it reads:
    the hourly rate and the OT multiplier, with the defaults and the checks the
    save-settings handler applies. */
module Wages {
  import opened Numbers

  datatype Settings = Settings(hourlyRate: Number, otMultiplier: Number)

  /** The settings in effect before anything has been saved. */
  const DEFAULT_SETTINGS := Settings(Num(0.0), Num(1.5))

  /** What the save-settings handler accepts: a rate that is a number and not
      negative, a multiplier that is a number and at least one. */
  predicate WellFormed(s: Settings) {
    && s.hourlyRate.Num? && s.hourlyRate.value >= 0.0
    && s.otMultiplier.Num? && s.otMultiplier.value >= 1.0
  }

  /** Pay for `hours` of overtime: zero while the rate is not a positive number,
      otherwise hours times rate times multiplier. */
  function Earnings(hours: real, s: Settings): (e: Number)
    ensures !IsPositive(s.hourlyRate) ==> e == Num(0.0)
    ensures IsPositive(s.hourlyRate) && s.otMultiplier.Num? ==>
              e == Num(hours * s.hourlyRate.value * s.otMultiplier.value)
    ensures IsPositive(s.hourlyRate) && s.otMultiplier.NaN? ==> e.NaN?
    ensures hours >= 0.0 && s.otMultiplier.Num? && s.otMultiplier.value >= 0.0 ==>
              e.Num? && e.value >= 0.0
  {
    if !IsPositive(s.hourlyRate) then Num(0.0)
    else
      var e := Mul(Mul(Num(hours), s.hourlyRate), s.otMultiplier);
      NonNegativeProduct(hours, s.hourlyRate, s.otMultiplier);
      e
  }

  /** A product of non-negative numbers is a non-negative number. */
  lemma NonNegativeProduct(hours: real, rate: Number, multiplier: Number)
    requires rate.Num? && rate.value >= 0.0
    ensures hours >= 0.0 && multiplier.Num? && multiplier.value >= 0.0 ==>
              Mul(Mul(Num(hours), rate), multiplier).value >= 0.0
  {
    if hours >= 0.0 && multiplier.Num? && multiplier.value >= 0.0 {
      var hr := hours * rate.value;
      assert hr >= 0.0;
      assert hr * multiplier.value >= 0.0;
    }
  }

  datatype SettingsError = InvalidRate | InvalidMultiplier

  /** The save-settings checks, rate first: a NaN or negative rate is
      refused, then a NaN multiplier or one below one. */
  function ValidateSettings(rate: Number, multiplier: Number): (r: Result<Settings, SettingsError>)
    ensures r.Ok? <==> WellFormed(Settings(rate, multiplier))
    ensures r.Ok? ==> r.value == Settings(rate, multiplier)
    ensures r == Err(InvalidRate) <==> !(rate.Num? && rate.value >= 0.0)
  {
    if rate.NaN? || rate.value < 0.0 then Err(InvalidRate)
    else if multiplier.NaN? || multiplier.value < 1.0 then Err(InvalidMultiplier)
    else Ok(Settings(rate, multiplier))
  }

  /** Validation gives back exactly the well-formed settings it is fed, and
      refuses every other. */
  lemma ValidateRoundTrip(s: Settings)
    ensures ValidateSettings(s.hourlyRate, s.otMultiplier) == Ok(s) <==> WellFormed(s)
  {
  }

  /** The defaults would pass the save-settings checks, but their zero rate
      means no record can be added until a rate is saved. */
  lemma DefaultsRefuseRecords()
    ensures WellFormed(DEFAULT_SETTINGS)
    ensures !IsPositive(DEFAULT_SETTINGS.hourlyRate)
    ensures forall h :: Earnings(h, DEFAULT_SETTINGS) == Num(0.0)
  {
  }
}
