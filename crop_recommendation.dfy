/**
 * The crop recommendation page. The weather lookup returns fixed readings and
 * the recommendation is a fixed text that echoes the soil type and pH the
 * farmer typed; the only check is that both fields are non-empty.
 */
module CropRecommendation {
  import opened Wrappers
  import opened Text

  /** The readings shown on the weather card. */
  datatype Weather = Weather(temperature: nat, humidity: nat, rainfall: nat)

  /** `fetchWeatherData`: always the same readings. */
  const MockWeather := Weather(25, 65, 200)

  /**
   * The fixed pieces of the report's template literal: the text before each
   * value, the unit after the rainfall, and the closing crop list.
   */
  datatype Template = Template(
    soilLabel: string,
    phLabel: string,
    temperatureLabel: string,
    humidityLabel: string,
    rainfallLabel: string,
    rainfallUnit: string,
    crops: string)

  /** The template of `mockRecommendation`. */
  const PageTemplate := Template(
    "Based on the current conditions:\n        - Soil Type: ",
    "\n        - pH Level: ",
    "\n        - Temperature: ",
    "\U{00B0}C\n        - Humidity: ",
    "%\n        - Rainfall: ",
    "mm\n",
    "\n        Recommended crops:\n        1. Rice\n        2. Wheat\n        3. Maize\n        \n        These crops are well-suited for your current soil conditions and local climate.")

  /** `s` ends with `suffix`. */
  predicate EndsWith(s: string, suffix: string) {
    |suffix| <= |s| && s[|s| - |suffix|..] == suffix
  }

  /** A label, a value, a second label, a second value, and the rest of the text. */
  function Layout(a: string, x: string, b: string, y: string, tail: string): (r: string)
    ensures |r| == |a| + |x| + |b| + |y| + |tail|
    ensures OccursAt(r, a, 0)
    ensures OccursAt(r, x, |a|)
    ensures OccursAt(r, b, |a| + |x|)
    ensures OccursAt(r, y, |a| + |x| + |b|)
    ensures OccursAt(r, tail, |a| + |x| + |b| + |y|)
    ensures EndsWith(r, tail)
  {
    var r := a + (x + (b + (y + tail)));
    assert r[|a|..] == x + (b + (y + tail));
    assert r[|a| + |x|..] == b + (y + tail);
    assert r[|a| + |x| + |b|..] == y + tail;
    r
  }

  /** Where the humidity reading starts in the weather lines. */
  function HumidityAt(t: Template, w: Weather): nat {
    |t.temperatureLabel| + |NatToString(w.temperature)| + |t.humidityLabel|
  }

  /** Where the rainfall reading starts in the weather lines. */
  function RainfallAt(t: Template, w: Weather): nat {
    HumidityAt(t, w) + |NatToString(w.humidity)| + |t.rainfallLabel|
  }

  /** The three weather lines, each reading rendered in decimal after its label. */
  function WeatherLines(t: Template, w: Weather): (lines: string)
    ensures OccursAt(lines, NatToString(w.temperature), |t.temperatureLabel|)
    ensures OccursAt(lines, NatToString(w.humidity), HumidityAt(t, w))
    ensures OccursAt(lines, NatToString(w.rainfall), RainfallAt(t, w))
  {
    var temperature, humidity, rainfall := NatToString(w.temperature), NatToString(w.humidity), NatToString(w.rainfall);
    ThirdValue(t.temperatureLabel, temperature, t.humidityLabel, humidity, t.rainfallLabel, rainfall, t.rainfallUnit);
    Layout(t.temperatureLabel, temperature, t.humidityLabel, humidity, t.rainfallLabel + rainfall + t.rainfallUnit)
  }

  /** A layout whose tail is a third label, a third value and an end holds the third value after its label. */
  lemma {:induction false} ThirdValue(a: string, x: string, b: string, y: string, c: string, z: string, d: string)
    ensures OccursAt(Layout(a, x, b, y, c + z + d), z, |a| + |x| + |b| + |y| + |c|)
  {
    var rest := c + z + d;
    var r := Layout(a, x, b, y, rest);
    assert OccursAt(rest, z, |c|) by {
      assert rest[|c|..] == z + d;
    }
    OccursWithin(r, rest, |a| + |x| + |b| + |y|, z, |c|);
  }

  /** Where the weather lines start in a report. */
  function WeatherAt(t: Template, soil: string, ph: string): nat {
    |t.soilLabel| + |soil| + |t.phLabel| + |ph|
  }

  /**
   * `mockRecommendation`: the soil type and pH exactly as typed, the weather
   * readings, then the fixed crop list.
   */
  function Report(t: Template, soil: string, ph: string, w: Weather): (r: string)
    ensures OccursAt(r, t.soilLabel, 0)
    ensures OccursAt(r, soil, |t.soilLabel|)
    ensures OccursAt(r, t.phLabel, |t.soilLabel| + |soil|)
    ensures OccursAt(r, ph, |t.soilLabel| + |soil| + |t.phLabel|)
    ensures EndsWith(r, t.crops)
  {
    var lines := WeatherLines(t, w);
    var r := Layout(t.soilLabel, soil, t.phLabel, ph, lines + t.crops);
    SuffixOfSuffix(r, lines, t.crops);
    r
  }

  /** What the weather lines hold at a position, the report holds at that position past the pH. */
  lemma {:induction false} WeatherInReport(t: Template, soil: string, ph: string, w: Weather, v: string, j: nat)
    requires OccursAt(WeatherLines(t, w), v, j)
    ensures OccursAt(Report(t, soil, ph, w), v, WeatherAt(t, soil, ph) + j)
  {
    InTail(t.soilLabel, soil, t.phLabel, ph, WeatherLines(t, w), t.crops, v, j);
  }

  /** What the start of a layout's tail holds at a position, the layout holds that far past the second value. */
  lemma {:induction false} InTail(a: string, x: string, b: string, y: string, lines: string, rest: string, v: string, j: nat)
    requires OccursAt(lines, v, j)
    ensures OccursAt(Layout(a, x, b, y, lines + rest), v, |a| + |x| + |b| + |y| + j)
  {
    var tail := lines + rest;
    assert OccursAt(tail, v, j) by {
      assert tail[..|lines|] == lines;
    }
    OccursWithin(Layout(a, x, b, y, tail), tail, |a| + |x| + |b| + |y|, v, j);
  }

  /** An occurrence inside an occurrence is an occurrence. */
  lemma {:induction false} OccursWithin(r: string, x: string, i: nat, y: string, j: nat)
    requires OccursAt(r, x, i) && OccursAt(x, y, j)
    ensures OccursAt(r, y, i + j)
  {
    forall k | 0 <= k < |y| ensures r[i + j + k] == y[k] {
      assert r[i..i + |x|][j + k] == x[j + k] && x[j..j + |y|][k] == y[k];
    }
    assert r[i + j..i + j + |y|] == y;
  }

  /** A text ending in `x + y` ends in `y`. */
  lemma {:induction false} SuffixOfSuffix(r: string, x: string, y: string)
    requires EndsWith(r, x + y)
    ensures EndsWith(r, y)
  {
    assert r[|r| - |y|..] == r[|r| - |x + y|..][|x|..];
  }

  /** Where one text followed by a line break is a shorter prefix of another, the other has a line break there. */
  lemma {:induction false} NewlineAt(s1: string, t1: string, s2: string, t2: string)
    requires |t1| > 0 && t1[0] == '\n'
    requires s1 + t1 == s2 + t2
    ensures |s1| < |s2| ==> s2[|s1|] == '\n'
  {
    if |s1| < |s2| {
      assert (s1 + t1)[|s1|] == (s2 + t2)[|s1|];
    }
  }

  /**
   * The layout loses nothing of what was typed: with the same labels and
   * tail, the same text means the same first value (when it holds no line
   * break) and the same second value.
   */
  lemma {:induction false} LayoutInjective(a: string, b: string, tail: string, s1: string, p1: string, s2: string, p2: string)
    requires |b| > 0 && b[0] == '\n'
    requires forall i :: 0 <= i < |s1| ==> s1[i] != '\n'
    requires forall i :: 0 <= i < |s2| ==> s2[i] != '\n'
    requires Layout(a, s1, b, p1, tail) == Layout(a, s2, b, p2, tail)
    ensures s1 == s2 && p1 == p2
  {
    var m := Layout(a, s1, b, p1, tail);
    var r1, r2 := s1 + (b + (p1 + tail)), s2 + (b + (p2 + tail));
    assert m == a + r1 == a + r2;
    assert r1 == m[|a|..] == r2;
    NewlineAt(s1, b + (p1 + tail), s2, b + (p2 + tail));
    NewlineAt(s2, b + (p2 + tail), s1, b + (p1 + tail));
    assert s1 == r1[..|s1|] == r2[..|s2|] == s2;
    assert p1 == m[|a| + |s1| + |b|..|a| + |s1| + |b| + |p1|] == p2;
  }

  /** The pH label of the page starts a new line. */
  lemma PhLabelStartsLine()
    ensures |PageTemplate.phLabel| > 0 && PageTemplate.phLabel[0] == '\n'
  {
  }

  /** With the same weather, two reports of the page are equal only for the same soil type (with no line break) and pH. */
  lemma {:induction false} InputsEchoed(s1: string, p1: string, s2: string, p2: string, w: Weather)
    requires forall i :: 0 <= i < |s1| ==> s1[i] != '\n'
    requires forall i :: 0 <= i < |s2| ==> s2[i] != '\n'
    requires Report(PageTemplate, s1, p1, w) == Report(PageTemplate, s2, p2, w)
    ensures s1 == s2 && p1 == p2
  {
    var t := PageTemplate;
    PhLabelStartsLine();
    LayoutInjective(t.soilLabel, t.phLabel, WeatherLines(t, w) + t.crops, s1, p1, s2, p2);
  }

  /** The crop list does not depend on the soil, the pH or the weather. */
  lemma {:induction false} SameCropsForAnyInput(t: Template, s1: string, p1: string, w1: Weather, s2: string, p2: string, w2: Weather)
    ensures var r1, r2 := Report(t, s1, p1, w1), Report(t, s2, p2, w2);
      |r1| >= |t.crops| && |r2| >= |t.crops| && r1[|r1| - |t.crops|..] == r2[|r2| - |t.crops|..]
  {
    var r1, r2 := Report(t, s1, p1, w1), Report(t, s2, p2, w2);
    assert EndsWith(r1, t.crops) && EndsWith(r2, t.crops);
  }

  /** The guard: a toast and nothing else when either field is empty. */
  function MissingInformation(soil: string, ph: string): (missing: bool)
    ensures missing <==> soil == "" || ph == ""
  {
    !(soil != "" && ph != "")
  }

  const MissingToast := Toast("Missing Information", "Please fill in all the required fields.", true)
  const SuccessToast := Toast("Success", "Crop recommendation generated successfully!", false)

  /** The pH is not read as a number: values outside 0 to 14, or not numbers at all, pass the guard. */
  lemma PhNotParsed()
    ensures !MissingInformation("clay", "15") && !MissingInformation("clay", "-3") && !MissingInformation("clay", "acidic")
  {
  }

  class CropRecommendationPage {
    var soilType: string
    var ph: string
    var loading: bool
    var weatherData: Option<Weather>
    var recommendation: string

    constructor()
      ensures soilType == "" && ph == "" && !loading && weatherData == None && recommendation == ""
    {
      soilType, ph, loading, weatherData, recommendation := "", "", false, None, "";
    }

    /** The soil type input. */
    method SetSoilType(value: string)
      modifies this
      ensures soilType == value
      ensures ph == old(ph) && loading == old(loading)
      ensures weatherData == old(weatherData) && recommendation == old(recommendation)
    {
      soilType := value;
    }

    /** The pH input, kept as the text typed. */
    method SetPh(value: string)
      modifies this
      ensures ph == value
      ensures soilType == old(soilType) && loading == old(loading)
      ensures weatherData == old(weatherData) && recommendation == old(recommendation)
    {
      ph := value;
    }

    /**
     * `generateRecommendation`. With a field missing it only raises the
     * warning toast; otherwise it stores the weather readings and the report,
     * raises the success toast and ends with loading off.
     */
    method GenerateRecommendation() returns (toast: Toast)
      modifies this
      ensures soilType == old(soilType) && ph == old(ph)
      ensures MissingInformation(soilType, ph) ==>
        && toast == MissingToast
        && loading == old(loading)
        && weatherData == old(weatherData)
        && recommendation == old(recommendation)
      ensures !MissingInformation(soilType, ph) ==>
        && toast == SuccessToast
        && !loading
        && weatherData == Some(MockWeather)
        && recommendation == Report(PageTemplate, soilType, ph, MockWeather)
    {
      if MissingInformation(soilType, ph) {
        return MissingToast;
      }
      loading := true;
      var weather := MockWeather;
      weatherData := Some(weather);
      recommendation := Report(PageTemplate, soilType, ph, weather);
      toast := SuccessToast;
      loading := false;
    }
  }

  /** The fixed readings as the report renders them. */
  lemma MockReadings()
    ensures NatToString(MockWeather.temperature) == "25"
    ensures NatToString(MockWeather.humidity) == "65"
    ensures NatToString(MockWeather.rainfall) == "200"
  {
  }

  /**
   * After a successful generation the report card shows: it is the report of
   * the typed values with the fixed readings, so it holds the typed soil type
   * and, by `WeatherLines`, `WeatherInReport` and `MockReadings`, the readings
   * 25, 65 and 200.
   */
  method GenerateThenShow(soil: string, ph: string) returns (page: CropRecommendationPage)
    requires soil != "" && ph != ""
    ensures page.recommendation != ""
    ensures OccursAt(page.recommendation, soil, |PageTemplate.soilLabel|)
    ensures page.recommendation == Report(PageTemplate, soil, ph, MockWeather)
    ensures page.weatherData == Some(MockWeather) && !page.loading
  {
    page := new CropRecommendationPage();
    page.SetSoilType(soil);
    page.SetPh(ph);
    var toast := page.GenerateRecommendation();
  }
}
