/** The flood-forecast route's data preparation: the current-weather
    readings extracted with their defaults, the 24-hour accumulation over the
    first eight three-hour forecast items, and the environmental data derived
    from the weather for the models. */
module FloodForecast {
  import opened Text

  // ---------------------------------------------------------------------
  // Current weather
  // ---------------------------------------------------------------------

  /** The fields of the current-weather response that are read; a missing
      field (or a missing enclosing object) is None. */
  datatype WeatherResponse = WeatherResponse(rain1h: Option<real>, rain3h: Option<real>,
                                             humidity: Option<real>, temperature: Option<real>,
                                             pressure: Option<real>, windSpeed: Option<real>,
                                             clouds: Option<real>)

  /** The "current" readings of a weather report; absent keys are None. */
  datatype Current = Current(rainfall1h: Option<real>, rainfall3h: Option<real>,
                             humidity: Option<real>, temperature: Option<real>,
                             pressure: Option<real>, windSpeed: Option<real>,
                             cloudCover: Option<real>)

  /** The readings taken from a response: missing hourly rain is 0, missing
      three-hour rain is three times the hourly rain, and humidity,
      temperature, pressure, wind and cloud cover default to 70, 25, 1013, 5
      and 50. */
  function ExtractCurrent(w: WeatherResponse): (c: Current)
    ensures c.rainfall1h.Some? && c.rainfall3h.Some? && c.humidity.Some?
    ensures c.temperature.Some? && c.pressure.Some? && c.windSpeed.Some? && c.cloudCover.Some?
    ensures w.rain3h.None? ==> c.rainfall3h.value == 3.0 * c.rainfall1h.value
    ensures w.rain1h.None? ==> c.rainfall1h.value == 0.0
    ensures w.rain3h.Some? ==> c.rainfall3h == w.rain3h
    ensures w.rain1h.Some? ==> c.rainfall1h == w.rain1h
    ensures c.humidity == (if w.humidity.Some? then w.humidity else Some(70.0))
    ensures c.temperature == (if w.temperature.Some? then w.temperature else Some(25.0))
    ensures c.pressure == (if w.pressure.Some? then w.pressure else Some(1013.0))
    ensures c.windSpeed == (if w.windSpeed.Some? then w.windSpeed else Some(5.0))
    ensures c.cloudCover == (if w.clouds.Some? then w.clouds else Some(50.0))
  {
    var r1 := w.rain1h.GetOr(0.0);
    Current(Some(r1), Some(w.rain3h.GetOr(r1 * 3.0)), Some(w.humidity.GetOr(70.0)),
            Some(w.temperature.GetOr(25.0)), Some(w.pressure.GetOr(1013.0)),
            Some(w.windSpeed.GetOr(5.0)), Some(w.clouds.GetOr(50.0)))
  }

  // ---------------------------------------------------------------------
  // Forecast accumulation
  // ---------------------------------------------------------------------

  /** The forecast items read: the first eight three-hour steps. */
  const ForecastSteps: nat := 8

  /** The three-hour rain of each item read, 0 where an item has none. */
  function ItemRain(items: seq<Option<real>>): (r: seq<real>)
    ensures |r| == Min(|items|, ForecastSteps)
    ensures forall i :: 0 <= i < |r| ==> r[i] == items[i].GetOr(0.0)
  {
    var read := Take(items, ForecastSteps);
    seq(|read|, i requires 0 <= i < |read| => read[i].GetOr(0.0))
  }

  /** The running peak of the hourly rates rain / 3, starting from 0. */
  function PeakRate(rains: seq<real>): (m: real)
    ensures m >= 0.0
    ensures forall i :: 0 <= i < |rains| ==> rains[i] / 3.0 <= m
    ensures m == 0.0 || exists i :: 0 <= i < |rains| && m == rains[i] / 3.0
    decreases |rains|
  {
    if rains == [] then 0.0
    else
      var init := rains[..|rains| - 1];
      var m := PeakRate(init);
      assert forall i :: 0 <= i < |init| ==> init[i] == rains[i];
      MaxReal(m, rains[|rains| - 1] / 3.0)
  }

  /** The forecast totals: the 24-hour rainfall and the peak hourly rate. */
  datatype ForecastSummary = ForecastSummary(rainfall24h: Option<real>, maxIntensity: Option<real>)

  /** The accumulation loop over the forecast list (None when the response
      has no list): sums the rain of the first eight items and tracks the
      peak of rain / 3. */
  method AccumulateForecast(items: Option<seq<Option<real>>>) returns (rainfall24h: real, maxIntensity: real)
    ensures rainfall24h == Sum(ItemRain(items.GetOr([])))
    ensures maxIntensity == PeakRate(ItemRain(items.GetOr([])))
  {
    rainfall24h := 0.0;
    maxIntensity := 0.0;
    if items.Some? {
      var read := Take(items.value, ForecastSteps);
      ghost var rains := ItemRain(items.value);
      var i := 0;
      while i < |read|
        invariant 0 <= i <= |read| == |rains|
        invariant rainfall24h == Sum(rains[..i])
        invariant maxIntensity == PeakRate(rains[..i])
      {
        var rain := read[i].GetOr(0.0);
        PrefixStep(rains, i);
        rainfall24h := rainfall24h + rain;
        maxIntensity := MaxReal(maxIntensity, rain / 3.0);
        i := i + 1;
      }
      assert rains[..i] == rains;
    }
  }

  /** Extending a prefix of the rains by one item adds its rain to the
      total and may raise the peak to its hourly rate. */
  lemma PrefixStep(rains: seq<real>, i: nat)
    requires i < |rains|
    ensures Sum(rains[..i + 1]) == Sum(rains[..i]) + rains[i]
    ensures PeakRate(rains[..i + 1]) == MaxReal(PeakRate(rains[..i]), rains[i] / 3.0)
  {
    assert rains[..i + 1][..i] == rains[..i];
  }

  /** Items past the eighth do not change the totals. */
  lemma LaterItemsIgnored(items: seq<Option<real>>, extra: seq<Option<real>>)
    requires |items| >= ForecastSteps
    ensures ItemRain(items + extra) == ItemRain(items)
  {
    assert (items + extra)[..ForecastSteps] == items[..ForecastSteps];
  }

  /** With rain between 0 and `hi` per step, the 24-hour total is at most
      eight steps of `hi`, and the peak hourly rate at most hi / 3. */
  lemma ForecastBounds(items: seq<Option<real>>, hi: real)
    requires hi >= 0.0
    requires forall i :: 0 <= i < |items| ==> 0.0 <= items[i].GetOr(0.0) <= hi
    ensures 0.0 <= Sum(ItemRain(items)) <= 8.0 * hi
    ensures PeakRate(ItemRain(items)) <= hi / 3.0
  {
    var r := ItemRain(items);
    SumBounds(r, 0.0, hi);
    var n := |r| as real;
    assert n * hi <= 8.0 * hi by {
      assert (8.0 - n) * hi >= 0.0;
    }
  }

  // ---------------------------------------------------------------------
  // Environmental data
  // ---------------------------------------------------------------------

  /** Python's `x % 1` on a float: the fractional part, in [0, 1), taken
      toward negative infinity. On reals it is always below 1; Python's
      float operator can round a tiny negative x up to exactly 1.0
      (`-1e-20 % 1 == 1.0`), which would give the elevation 250 and the
      slope 0.07 that the bounds below exclude. */
  function FracPart(x: real): (f: real)
    ensures 0.0 <= f < 1.0
    ensures (x - f).Floor as real == x - f
  {
    x - x.Floor as real
  }

  datatype EnvironmentalData = EnvironmentalData(rainfallMm: real, humidity: real, temperature: real,
                                                 riverDischarge: real, waterLevel: real,
                                                 soilMoisture: real, pressure: real, windSpeed: real,
                                                 cloudCover: real, elevation: real, slope: real)

  /** The rainfall driving the derived quantities: the last three hours'
      rain plus an eighth of the 24-hour forecast, missing values 0. */
  function EffectiveRain(c: Current, f: ForecastSummary): real {
    c.rainfall3h.GetOr(0.0) + f.rainfall24h.GetOr(0.0) / 8.0
  }

  /** River discharge: a base of 150 m3/s, 15 per unit of effective rain
      and 2 per point of humidity over 50. */
  function Discharge(rain: real, humidity: real): real {
    150.0 + rain * 15.0 + (humidity - 50.0) * 2.0
  }

  /** The modelled data: the water level follows the discharge and the rain
      (at most 0.95), soil moisture the humidity and the rain (at most 100),
      and elevation and slope the fractional parts of the coordinates. */
  function GenerateEnvironmentalData(c: Current, f: ForecastSummary, lat: real, lon: real)
    : (e: EnvironmentalData)
    ensures e.waterLevel <= 0.95
    ensures e.soilMoisture <= 100.0
    ensures e.rainfallMm == c.rainfall1h.GetOr(0.0) * 24.0
    ensures e.riverDischarge == Discharge(EffectiveRain(c, f), c.humidity.GetOr(70.0))
    ensures 50.0 <= e.elevation < 250.0
    ensures 0.02 <= e.slope < 0.07
  {
    var rain := EffectiveRain(c, f);
    var humidity := c.humidity.GetOr(70.0);
    var discharge := Discharge(rain, humidity);
    EnvironmentalData(c.rainfall1h.GetOr(0.0) * 24.0, humidity, c.temperature.GetOr(25.0),
                      discharge, MinReal(0.95, 0.3 + discharge / 1000.0 + rain / 100.0),
                      MinReal(100.0, humidity + rain * 2.0), c.pressure.GetOr(1013.0),
                      c.windSpeed.GetOr(5.0), c.cloudCover.GetOr(50.0),
                      50.0 + FracPart(lat) * 200.0, 0.02 + FracPart(lon) * 0.05)
  }

  /** More recent rain never lowers the discharge, the water level or the
      soil moisture. */
  lemma MoreRainRaisesLevels(c: Current, f: ForecastSummary, more: real, lat: real, lon: real)
    requires more >= 0.0
    ensures var wet := c.(rainfall3h := Some(c.rainfall3h.GetOr(0.0) + more));
            var e := GenerateEnvironmentalData(c, f, lat, lon);
            var e' := GenerateEnvironmentalData(wet, f, lat, lon);
            && e'.riverDischarge == e.riverDischarge + more * 15.0
            && e.waterLevel <= e'.waterLevel
            && e.soilMoisture <= e'.soilMoisture
            && (more > 0.0 && e'.waterLevel < 0.95 ==>
                  e.waterLevel < e'.waterLevel && e'.waterLevel == e.waterLevel + 0.025 * more)
            && (more > 0.0 && e'.soilMoisture < 100.0 ==>
                  e.soilMoisture < e'.soilMoisture && e'.soilMoisture == e.soilMoisture + 2.0 * more)
  {
    EnvironmentalLevels(c, f, lat, lon);
    EnvironmentalLevels(c.(rainfall3h := Some(c.rainfall3h.GetOr(0.0) + more)), f, lat, lon);
  }

  /** The water level and soil moisture in closed form: with effective rain
      r and humidity h, the level is 0.35 + 0.002h + 0.025r and the soil
      h + 2r, each up to its cap of 0.95 and 100. */
  lemma EnvironmentalLevels(c: Current, f: ForecastSummary, lat: real, lon: real)
    ensures var r := EffectiveRain(c, f);
            var h := c.humidity.GetOr(70.0);
            var e := GenerateEnvironmentalData(c, f, lat, lon);
            && e.waterLevel == MinReal(0.95, 0.35 + 0.002 * h + 0.025 * r)
            && e.soilMoisture == MinReal(100.0, h + 2.0 * r)
            && (e.waterLevel == 0.95 <==> 0.35 + 0.002 * h + 0.025 * r >= 0.95)
            && (e.soilMoisture == 100.0 <==> h + 2.0 * r >= 100.0)
  {
  }

  /** With no effective rain the soil moisture is the humidity (up to 100)
      and the water level 0.35 + 0.002 per point of humidity (up to 0.95). */
  lemma NoRainLevels(c: Current, f: ForecastSummary, lat: real, lon: real)
    requires EffectiveRain(c, f) == 0.0
    ensures var h := c.humidity.GetOr(70.0);
            var e := GenerateEnvironmentalData(c, f, lat, lon);
            && e.soilMoisture == MinReal(100.0, h)
            && e.waterLevel == MinReal(0.95, 0.35 + 0.002 * h)
  {
    EnvironmentalLevels(c, f, lat, lon);
  }

  /** Elevation and slope repeat with every whole degree of latitude and
      longitude. */
  lemma TerrainRepeatsEachDegree(c: Current, f: ForecastSummary, lat: real, lon: real, k: int)
    ensures var e := GenerateEnvironmentalData(c, f, lat, lon);
            var e' := GenerateEnvironmentalData(c, f, lat + k as real, lon + k as real);
            e'.elevation == e.elevation && e'.slope == e.slope
  {
    assert (lat + k as real).Floor == lat.Floor + k;
    assert (lon + k as real).Floor == lon.Floor + k;
  }
}
