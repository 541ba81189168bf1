/** TariffManager: the tariff settings page. It edits a configuration held
    in the page only (saving calls no API) and shows the peak price that
    follows from it. A number field read with parseFloat can hold NaN,
    written None here. */
module TariffPage {
  import opened Common

  /** A number of the page; None is NaN. */
  type Num = Option<real>

  datatype TariffConfig = TariffConfig(
    pricePerKwh: Num,
    hasPeakHours: bool,
    peakStartTime: string,
    peakEndTime: string,
    peakPriceMultiplier: Num,
    currency: string)

  /** The configuration the page starts with. */
  const DEFAULT_CONFIG: TariffConfig := TariffConfig(Some(0.12), true, "14:00", "20:00", Some(1.5), "EUR")

  /** One edit of handleConfigChange: a field and its new value. */
  datatype ConfigChange =
    | SetPrice(price: Num)
    | SetHasPeakHours(on: bool)
    | SetPeakStart(time: string)
    | SetPeakEnd(time: string)
    | SetMultiplier(factor: Num)
    | SetCurrency(code: string)

  /** The configuration with the one field the change names replaced. */
  function Apply(c: TariffConfig, ch: ConfigChange): (r: TariffConfig)
    ensures r.pricePerKwh == if ch.SetPrice? then ch.price else c.pricePerKwh
    ensures r.hasPeakHours == if ch.SetHasPeakHours? then ch.on else c.hasPeakHours
    ensures r.peakStartTime == if ch.SetPeakStart? then ch.time else c.peakStartTime
    ensures r.peakEndTime == if ch.SetPeakEnd? then ch.time else c.peakEndTime
    ensures r.peakPriceMultiplier == if ch.SetMultiplier? then ch.factor else c.peakPriceMultiplier
    ensures r.currency == if ch.SetCurrency? then ch.code else c.currency
  {
    match ch
    case SetPrice(p) => c.(pricePerKwh := p)
    case SetHasPeakHours(b) => c.(hasPeakHours := b)
    case SetPeakStart(t) => c.(peakStartTime := t)
    case SetPeakEnd(t) => c.(peakEndTime := t)
    case SetMultiplier(f) => c.(peakPriceMultiplier := f)
    case SetCurrency(code) => c.(currency := code)
  }

  /** calculatePeakPrice, before its four-decimal formatting: the base price
      times the multiplier, NaN when either is. */
  function PeakPrice(c: TariffConfig): (p: Num)
    ensures p.Some? <==> c.pricePerKwh.Some? && c.peakPriceMultiplier.Some?
    ensures p.Some? && c.pricePerKwh.value >= 0.0 && c.peakPriceMultiplier.value >= 1.0 ==> p.value >= c.pricePerKwh.value
    ensures p.Some? && c.peakPriceMultiplier.value == 1.0 ==> p.value == c.pricePerKwh.value
  {
    if c.pricePerKwh.Some? && c.peakPriceMultiplier.Some? then Some(c.pricePerKwh.value * c.peakPriceMultiplier.value)
    else None
  }

  /** The symbol shown after a price: euro, dollar, and pound for any other
      code. */
  function CurrencySymbol(currency: string): (sym: string)
    ensures sym == "€" <==> currency == "EUR"
    ensures sym == "$" <==> currency == "USD"
    ensures sym == "£" <==> currency != "EUR" && currency != "USD"
  {
    if currency == "EUR" then "€" else if currency == "USD" then "$" else "£"
  }

  class TariffManager {
    var config: TariffConfig
    var isModified: bool
    /** The configuration as of the last save (the initial one before
        any). */
    ghost var saved: TariffConfig

    /** The save button is hidden only while the configuration is the one
        last saved. */
    ghost predicate Valid()
      reads this
    {
      !isModified ==> config == saved
    }

    constructor ()
      ensures Valid()
      ensures config == DEFAULT_CONFIG && !isModified
    {
      config := DEFAULT_CONFIG;
      isModified := false;
      saved := DEFAULT_CONFIG;
    }

    /** handleConfigChange: the field set, and the page marked modified
        even when the value is the same. */
    method Change(ch: ConfigChange)
      requires Valid()
      modifies this
      ensures Valid()
      ensures config == Apply(old(config), ch) && isModified && saved == old(saved)
    {
      config := Apply(config, ch);
      isModified := true;
    }

    /** handleSave: the configuration is kept as it is and the page is no
        longer modified. */
    method Save()
      requires Valid()
      modifies this
      ensures Valid()
      ensures config == old(config) && !isModified && saved == config
    {
      isModified := false;
      saved := config;
    }

    /** Whether the save button is shown. */
    function SaveButtonShown(): (shown: bool)
      requires Valid()
      reads this
      ensures !shown ==> config == saved
    {
      isModified
    }

    /** Whether the peak price and hours are shown. */
    function PeakShown(): bool
      reads this
    {
      config.hasPeakHours
    }
  }
}
