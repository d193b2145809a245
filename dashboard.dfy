/**
 * The Djibouti dashboard's pure rules: the AQI, UV and dust classifiers, the
 * compass label of a direction, the hourly bar series, the weather-code lookup
 * and the forecast range bar.
 */
module Dashboard {
  import opened Wrappers
  import opened Text

  // ---------------------------------------------------------------- banded classifiers

  /** How many of `thresholds` the value is strictly above. */
  function Exceeded(x: real, thresholds: seq<real>): (n: nat)
    ensures n <= |thresholds|
  {
    if thresholds == [] then 0 else (if x > thresholds[0] then 1 else 0) + Exceeded(x, thresholds[1..])
  }

  /** A larger value is above at least as many thresholds. */
  lemma {:induction false} ExceededMonotone(x: real, y: real, thresholds: seq<real>)
    requires x <= y
    ensures Exceeded(x, thresholds) <= Exceeded(y, thresholds)
  {
    if thresholds != [] {
      ExceededMonotone(x, y, thresholds[1..]);
    }
  }

  /** With four thresholds the count is the sum of the four comparisons. */
  lemma ExceededFour(x: real, a: real, b: real, c: real, d: real)
    ensures Exceeded(x, [a, b, c, d])
            == (if x > a then 1 else 0) + (if x > b then 1 else 0) + (if x > c then 1 else 0) + (if x > d then 1 else 0)
  {
    assert [d][1..] == [];
    assert Exceeded(x, [d]) == if x > d then 1 else 0;
    assert [c, d][1..] == [d];
    assert Exceeded(x, [c, d]) == (if x > c then 1 else 0) + Exceeded(x, [d]);
    assert [b, c, d][1..] == [c, d];
    assert Exceeded(x, [b, c, d]) == (if x > b then 1 else 0) + Exceeded(x, [c, d]);
    assert [a, b, c, d][1..] == [b, c, d];
  }

  datatype Band = Band(color: string, labelText: string, bg: string)

  const AqiThresholds: seq<real> := [50.0, 100.0, 150.0, 200.0]
  const AqiBands: seq<Band> := [
    Band("#10b981", "Bon", "rgba(16,185,129,0.15)"),
    Band("#f59e0b", "Modéré", "rgba(245,158,11,0.15)"),
    Band("#f97316", "Sensible", "rgba(249,115,22,0.15)"),
    Band("#ef4444", "Mauvais", "rgba(239,68,68,0.15)"),
    Band("#7c3aed", "Dangereux", "rgba(124,58,237,0.15)")
  ]

  /** `getAQIColor`: the first band whose upper bound the AQI does not exceed. */
  function AqiColor(aqi: real): Band {
    if aqi <= 50.0 then Band("#10b981", "Bon", "rgba(16,185,129,0.15)")
    else if aqi <= 100.0 then Band("#f59e0b", "Modéré", "rgba(245,158,11,0.15)")
    else if aqi <= 150.0 then Band("#f97316", "Sensible", "rgba(249,115,22,0.15)")
    else if aqi <= 200.0 then Band("#ef4444", "Mauvais", "rgba(239,68,68,0.15)")
    else Band("#7c3aed", "Dangereux", "rgba(124,58,237,0.15)")
  }

  /** The band is the one indexed by the number of thresholds 50/100/150/200 the AQI is above; so a higher AQI never gets a milder band. */
  lemma AqiColorByThresholds(aqi: real, higher: real)
    requires aqi <= higher
    ensures AqiColor(aqi) == AqiBands[Exceeded(aqi, AqiThresholds)]
    ensures Exceeded(aqi, AqiThresholds) <= Exceeded(higher, AqiThresholds)
  {
    ExceededFour(aqi, 50.0, 100.0, 150.0, 200.0);
    ExceededMonotone(aqi, higher, AqiThresholds);
  }

  datatype Level = Level(labelText: string, color: string)

  const UvThresholds: seq<real> := [2.0, 5.0, 7.0, 10.0]
  const UvLevels: seq<Level> := [
    Level("Faible", "#10b981"),
    Level("Modéré", "#f59e0b"),
    Level("Fort", "#f97316"),
    Level("Très fort", "#ef4444"),
    Level("Extrême", "#7c3aed")
  ]

  /** `getUVLevel` */
  function UvLevel(uv: real): Level {
    if uv <= 2.0 then Level("Faible", "#10b981")
    else if uv <= 5.0 then Level("Modéré", "#f59e0b")
    else if uv <= 7.0 then Level("Fort", "#f97316")
    else if uv <= 10.0 then Level("Très fort", "#ef4444")
    else Level("Extrême", "#7c3aed")
  }

  /** The level is the one indexed by the number of thresholds 2/5/7/10 the index is above; so a higher index is never milder. */
  lemma UvLevelByThresholds(uv: real, higher: real)
    requires uv <= higher
    ensures UvLevel(uv) == UvLevels[Exceeded(uv, UvThresholds)]
    ensures Exceeded(uv, UvThresholds) <= Exceeded(higher, UvThresholds)
  {
    ExceededFour(uv, 2.0, 5.0, 7.0, 10.0);
    ExceededMonotone(uv, higher, UvThresholds);
  }

  datatype DustAlert = DustAlert(level: string, color: string, text: string)

  const DustLevels: seq<string> := ["NORMAL", "MODÉRÉ", "ÉLEVÉ", "CRITIQUE"]

  /** `getDustAlert`: sand storm, dense sand haze, suspended dust or clear, first match wins. */
  function GetDustAlert(pm10: real, windSpeed: real): DustAlert {
    if pm10 > 200.0 && windSpeed > 40.0 then DustAlert("CRITIQUE", "#ef4444", "Tempête de sable active")
    else if pm10 > 100.0 && windSpeed > 25.0 then DustAlert("ÉLEVÉ", "#f97316", "Brume de sable dense")
    else if pm10 > 50.0 then DustAlert("MODÉRÉ", "#f59e0b", "Poussière en suspension")
    else DustAlert("NORMAL", "#10b981", "Conditions claires")
  }

  /** Position of an alert's level on the scale NORMAL < MODÉRÉ < ÉLEVÉ < CRITIQUE. */
  function DustSeverity(a: DustAlert): (n: nat)
    ensures n < |DustLevels| && (a.level in DustLevels ==> DustLevels[n] == a.level)
  {
    if a.level == "CRITIQUE" then 3 else if a.level == "ÉLEVÉ" then 2 else if a.level == "MODÉRÉ" then 1 else 0
  }

  /**
   * Each level holds exactly under its own condition: CRITIQUE needs both PM10
   * above 200 and wind above 40, ÉLEVÉ both above 100 and 25 short of that,
   * MODÉRÉ PM10 above 50 alone.
   */
  lemma DustAlertLevels(pm10: real, windSpeed: real)
    ensures var a := GetDustAlert(pm10, windSpeed);
      a.level in DustLevels
      && (a.level == "CRITIQUE" <==> pm10 > 200.0 && windSpeed > 40.0)
      && (a.level == "ÉLEVÉ" <==> !(pm10 > 200.0 && windSpeed > 40.0) && pm10 > 100.0 && windSpeed > 25.0)
      && (a.level == "MODÉRÉ" <==> !(pm10 > 100.0 && windSpeed > 25.0) && pm10 > 50.0)
      && (a.level == "NORMAL" <==> pm10 <= 50.0)
  {
  }

  /** More dust and more wind never lower the alert. */
  lemma DustAlertMonotone(pm10: real, windSpeed: real, pm10b: real, windSpeedb: real)
    requires pm10 <= pm10b && windSpeed <= windSpeedb
    ensures DustSeverity(GetDustAlert(pm10, windSpeed)) <= DustSeverity(GetDustAlert(pm10b, windSpeedb))
  {
  }

  // ---------------------------------------------------------------- compass

  const Directions: seq<string> := ["N", "NE", "E", "SE", "S", "SO", "O", "NO"]

  /** `Math.round`: the nearest integer, halves rounded up. */
  function Round(x: real): int {
    (x + 0.5).Floor
  }

  /** JavaScript's `%` on integers: the remainder takes the sign of the dividend. */
  function TruncRem(a: int, b: int): (r: int)
    requires b > 0
    ensures -b < r < b && (a >= 0 ==> r == a % b)
  {
    if a >= 0 then a % b else -((-a) % b)
  }

  /**
   * `getWindDir`: `dirs[Math.round(deg / 45) % 8]`. Below -22.5 degrees the
   * index can be negative, and the lookup gives `undefined`, modelled as `None`.
   */
  function WindDir(deg: real): Option<string> {
    var i := TruncRem(Round(deg / 45.0), 8);
    if i < 0 then None else Some(Directions[i])
  }

  /**
   * For a direction from -22.5 degrees up the label is defined and names the
   * 45-degree sector the direction falls in: within 22.5 degrees of its centre.
   */
  lemma WindDirSector(deg: real)
    requires deg >= -22.5
    ensures var k := Round(deg / 45.0);
      k >= 0 && WindDir(deg) == Some(Directions[k % 8])
      && 45.0 * k as real - 22.5 <= deg < 45.0 * k as real + 22.5
  {
    var k := Round(deg / 45.0);
    assert k as real <= deg / 45.0 + 0.5 < k as real + 1.0;
  }

  /** The label is `undefined` exactly below -22.5 degrees, except on the sectors a multiple of 360 degrees below north. */
  lemma WindDirUndefined(deg: real)
    ensures WindDir(deg).None? <==> deg < -22.5 && Round(deg / 45.0) % 8 != 0
  {
    var k := Round(deg / 45.0);
    assert k as real <= deg / 45.0 + 0.5 < k as real + 1.0;
    if k < 0 {
      assert (-k) % 8 == 0 <==> k % 8 == 0;
    }
  }

  /** A full turn gives the same label, and north is both 0 and 360 degrees; each sector centre gets its own label. */
  lemma WindDirTurns(deg: real, i: nat)
    requires deg >= 0.0 && i < 8
    ensures WindDir(deg + 360.0) == WindDir(deg)
    ensures WindDir(0.0) == WindDir(360.0) == Some("N")
    ensures WindDir(45.0 * i as real) == Some(Directions[i])
  {
    var k := Round(deg / 45.0);
    assert k as real <= deg / 45.0 + 0.5 < k as real + 1.0;
    assert Round((deg + 360.0) / 45.0) == k + 8 by {
      assert (deg + 360.0) / 45.0 + 0.5 == (deg / 45.0 + 0.5) + 8.0;
    }
    assert Round(360.0 / 45.0) == 8;
    assert Round(45.0 * i as real / 45.0) == i;
  }

  /**
   * The wave direction on the marine card: `wave_direction ? getWindDir(...) : '—'`,
   * as written, where a direction of exactly 0 counts as missing.
   */
  function MarineDirectionAsWritten(direction: Option<real>): string {
    if direction.None? || direction.value == 0.0 then "—" else WindDir(direction.value).GetOr("")
  }

  /** A wave from due north is shown as missing data rather than as north. */
  lemma MarineNorthShownMissing()
    ensures MarineDirectionAsWritten(Some(0.0)) == "—"
    ensures WindDir(0.0) == Some("N")
  {
    assert Round(0.0 / 45.0) == 0;
  }

  /** The wave direction with only a missing value shown as '—'. */
  function MarineDirection(direction: Option<real>): (shown: string)
    ensures direction.None? <==> shown == "—"
    ensures direction.Some? && direction.value >= 0.0 ==> WindDir(direction.value) == Some(shown)
  {
    if direction.None? then "—"
    else if direction.value >= 0.0 then
      WindDirSector(direction.value);
      WindDir(direction.value).value
    else WindDir(direction.value).GetOr("")
  }

  // ---------------------------------------------------------------- series and lookups

  datatype Bar = Bar(value: real, labelText: string, highlight: bool)

  function Min(a: int, b: int): int {
    if a <= b then a else b
  }

  /**
   * An hourly bar series: the first 24 readings, a missing reading drawn as 0,
   * labelled with its hour and highlighted at the current hour; no series, no bars.
   */
  function HourlySeries(readings: Option<seq<Option<real>>>, hour: nat): (bars: seq<Bar>)
    ensures readings.None? ==> bars == []
    ensures readings.Some? ==> |bars| == Min(|readings.value|, 24)
    ensures forall i :: 0 <= i < |bars| ==> bars[i].value == readings.value[i].GetOr(0.0)
  {
    match readings
    case None => []
    case Some(values) =>
      var n := Min(|values|, 24);
      seq(n, i requires 0 <= i < n => Bar(values[i].GetOr(0.0), Decimal(i) + "h", i == hour))
  }

  /**
   * The highlighted bar is the one whose index is the current hour, so at most
   * one is, and it exists exactly when that many readings came in.
   */
  lemma HourlySeriesHighlight(readings: seq<Option<real>>, hour: nat)
    ensures var bars := HourlySeries(Some(readings), hour);
      (forall i :: 0 <= i < |bars| ==> (bars[i].highlight <==> i == hour))
      && (forall i :: 0 <= i < |bars| ==> bars[i].labelText == Decimal(i) + "h")
      && (forall i, j :: 0 <= i < j < |bars| ==> !(bars[i].highlight && bars[j].highlight))
      && ((exists i :: 0 <= i < |bars| && bars[i].highlight) <==> hour < Min(|readings|, 24))
  {
    var bars := HourlySeries(Some(readings), hour);
    assert forall i :: 0 <= i < |bars| ==> (bars[i].highlight <==> i == hour);
    if hour < |bars| {
      assert bars[hour].highlight;
    }
  }

  /** Each bar's label is its hour followed by 'h', and reads back as that hour. */
  lemma HourlySeriesLabels(readings: seq<Option<real>>, hour: nat, i: nat)
    requires i < |HourlySeries(Some(readings), hour)|
    ensures var l := HourlySeries(Some(readings), hour)[i].labelText;
      |l| >= 2 && l[|l| - 1] == 'h' && AllDigits(l[..|l| - 1]) && DigitsValue(l[..|l| - 1]) == i
  {
    var l := HourlySeries(Some(readings), hour)[i].labelText;
    assert l == Decimal(i) + "h";
    assert l[..|l| - 1] == Decimal(i);
    DecimalValue(i);
  }

  datatype WeatherCode = WeatherCode(labelText: string, icon: string)

  const WeatherCodes: map<int, WeatherCode> := map[
    0 := WeatherCode("Ciel dégagé", "☀️"),
    1 := WeatherCode("Peu nuageux", "🌤️"),
    2 := WeatherCode("Partiellement nuageux", "⛅"),
    3 := WeatherCode("Couvert", "☁️"),
    45 := WeatherCode("Brouillard", "🌫️"),
    48 := WeatherCode("Brouillard givrant", "🌫️"),
    51 := WeatherCode("Bruine légère", "🌦️"),
    53 := WeatherCode("Bruine modérée", "🌦️"),
    55 := WeatherCode("Bruine dense", "🌧️"),
    61 := WeatherCode("Pluie légère", "🌧️"),
    63 := WeatherCode("Pluie modérée", "🌧️"),
    65 := WeatherCode("Pluie forte", "⛈️"),
    80 := WeatherCode("Averses", "🌦️"),
    95 := WeatherCode("Orage", "⛈️")
  ]

  /** The current conditions: the code's entry, or "N/A" with a question mark when the code is missing or unknown. */
  function CurrentWeather(code: Option<int>): (w: WeatherCode)
    ensures code.Some? && code.value in WeatherCodes ==> w == WeatherCodes[code.value]
  {
    if code.Some? && code.value in WeatherCodes then WeatherCodes[code.value] else WeatherCode("N/A", "❓")
  }

  /** "N/A" is shown exactly when the code is missing or not in the table. */
  lemma UnknownWeatherIsNA(code: Option<int>)
    ensures CurrentWeather(code).labelText == "N/A" <==> code.None? || code.value !in WeatherCodes
    ensures CurrentWeather(code).icon == "❓" <==> code.None? || code.value !in WeatherCodes
  {
    forall k | k in WeatherCodes ensures WeatherCodes[k].labelText != "N/A" && WeatherCodes[k].icon != "❓" {
    }
  }

  /** A forecast day's icon: the code's icon, or a question mark for an unknown code. */
  function ForecastIcon(code: int): (icon: string)
    ensures icon == "❓" <==> code !in WeatherCodes
  {
    UnknownWeatherIsNA(Some(code));
    if code in WeatherCodes then WeatherCodes[code].icon else "❓"
  }

  /** Width, in percent, of a forecast day's temperature-range bar: 15 degrees of range fill it. */
  function RangeBarWidth(max: real, min: real): (width: real)
    ensures width <= 100.0
    ensures max - min <= 15.0 ==> width == (max - min) / 15.0 * 100.0
    ensures max - min >= 15.0 ==> width == 100.0
  {
    var w := (max - min) / 15.0 * 100.0;
    if w < 100.0 then w else 100.0
  }
}
