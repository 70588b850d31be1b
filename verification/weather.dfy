/**
 * The `weather` command's pure helpers (wind direction, icon emoji, first
 * letter upper-casing, icon image URL), its argument guard and the forecast
 * embed built from every day but the first.
 */
module Weather {
  import opened Wrappers
  import Text
  import Arguments
  import opened Embeds

  /** `format_direction`: the compass quarter a wind bearing in degrees falls in. */
  function FormatDirection(degrees: int): (r: string)
    ensures r in {"North", "East", "South", "West"}
    ensures r == "North" <==> degrees <= 45 || degrees > 315
    ensures r == "East" <==> 45 < degrees <= 135
    ensures r == "South" <==> 135 < degrees <= 225
    ensures r == "West" <==> 225 < degrees <= 315
  {
    if degrees <= 45 || degrees > 315 then "North"
    else if degrees <= 135 then "East"
    else if degrees <= 225 then "South"
    else if degrees <= 315 then "West"
    else ""
  }

  const Sun := "\U{2600}\U{FE0F}"
  const FullMoon := "\U{1F315}"
  const SunBehindCloud := "\U{26C5}"
  const Cloud := "\U{2601}\U{FE0F}"
  const Rain := "\U{1F327}\U{FE0F}"
  const Lightning := "\U{1F329}\U{FE0F}"
  const Snowflake := "\U{2744}\U{FE0F}"
  const Fog := "\U{1F32B}\U{FE0F}"

  /** The OpenWeatherMap icon codes that come in a day ("d") and a night ("n") form. */
  const DayNightCodes: set<string> := {"02", "03", "04", "09", "10", "11", "13", "50"}

  /** `get_weather_emoji`: the moon only for a clear night, otherwise one of the day emoji. */
  function WeatherEmoji(code: string): (r: string)
    ensures r in {Sun, FullMoon, SunBehindCloud, Cloud, Rain, Lightning, Snowflake, Fog}
    ensures r == FullMoon <==> code == "01n"
  {
    match code
    case "01d" => Sun
    case "01n" => FullMoon
    case "02d" | "02n" => SunBehindCloud
    case "03d" | "03n" => Cloud
    case "04d" | "04n" => Cloud
    case "09d" | "09n" => Rain
    case "10d" | "10n" => Rain
    case "11d" | "11n" => Lightning
    case "13d" | "13n" => Snowflake
    case "50d" | "50n" => Fog
    case _ => Sun
  }

  /** Day and night variants of the codes 02 to 50 show the same emoji. */
  lemma DayNightSameEmoji(code: string)
    requires code in DayNightCodes
    ensures WeatherEmoji(code + "d") == WeatherEmoji(code + "n")
  {
    if code in {"02", "03", "04", "09"} {
      DayNightSameEmojiCloudy(code);
    } else {
      DayNightSameEmojiWet(code);
    }
  }

  /** The codes 02 to 09: clouds and showers. */
  lemma DayNightSameEmojiCloudy(code: string)
    requires code in {"02", "03", "04", "09"}
    ensures WeatherEmoji(code + "d") == WeatherEmoji(code + "n")
  {
    var day, night := code + "d", code + "n";
    if code == "02" {
      assert day == "02d" && night == "02n";
    } else if code == "03" {
      assert day == "03d" && night == "03n";
    } else if code == "04" {
      assert day == "04d" && night == "04n";
    } else {
      assert day == "09d" && night == "09n";
    }
  }

  /** The codes 10 to 50: rain, thunder, snow and mist. */
  lemma DayNightSameEmojiWet(code: string)
    requires code in {"10", "11", "13", "50"}
    ensures WeatherEmoji(code + "d") == WeatherEmoji(code + "n")
  {
    var day, night := code + "d", code + "n";
    if code == "10" {
      assert day == "10d" && night == "10n";
    } else if code == "11" {
      assert day == "11d" && night == "11n";
    } else if code == "13" {
      assert day == "13d" && night == "13n";
    } else {
      assert day == "50d" && night == "50n";
    }
  }

  /** A code outside the known ones falls back to the clear-day sun. */
  lemma UnknownCodeIsSun(code: string)
    requires code !in {"01n", "02d", "02n", "03d", "03n", "04d", "04n", "09d", "09n",
                       "10d", "10n", "11d", "11n", "13d", "13n", "50d", "50n"}
    ensures WeatherEmoji(code) == WeatherEmoji("01d") == Sun
  {
  }

  /**
   * `uppercase_first`: the source slices the first byte, so it panics on an
   * empty string or a non-ASCII first character; the requires excludes both.
   */
  function UppercaseFirst(s: string): (r: string)
    requires s != "" && s[0] < 128 as char
    ensures |r| == |s| && r[1..] == s[1..]
    ensures r[0] == Text.UpperChar(s[0])
    ensures 'a' <= s[0] <= 'z' ==> r[0] != s[0]
  {
    [Text.UpperChar(s[0])] + s[1..]
  }

  lemma UppercaseFirstIdempotent(s: string)
    requires s != "" && s[0] < 128 as char
    ensures UppercaseFirst(UppercaseFirst(s)) == UppercaseFirst(s)
  {
  }

  const ImagePrefix := "http://openweathermap.org/img/wn/"
  const ImageSuffix := "@2x.png"

  /** `get_weather_image_url`; the code sits between a fixed prefix and suffix. */
  function WeatherImageUrl(code: string): (url: string)
    ensures |url| == |ImagePrefix| + |code| + |ImageSuffix|
    ensures ImagePrefix <= url
    ensures url[|ImagePrefix|..|url| - |ImageSuffix|] == code
  {
    ImagePrefix + code + ImageSuffix
  }

  /** Distinct codes give distinct image URLs. */
  lemma WeatherImageUrlInjective(a: string, b: string)
    ensures WeatherImageUrl(a) == WeatherImageUrl(b) ==> a == b
  {
    if WeatherImageUrl(a) == WeatherImageUrl(b) {
      var u := WeatherImageUrl(a);
      assert a == u[|ImagePrefix|..|u| - |ImageSuffix|];
    }
  }

  const MissingApiKeyError := "The bot owner didn't provide the OpenWeatherMap api key"
  const MissingCityError := "Please supply a valid city name as argument"

  /**
   * The checks before any request: the API key from the environment (given
   * as `apiKey`), then a non-empty search text. Gives the key and the text.
   */
  method WeatherQuery(apiKey: Option<string>, tokens: seq<string>)
    returns (r: Result<(string, string), string>)
    requires forall i :: 0 <= i < |tokens| ==> tokens[i] != ""
    ensures apiKey.None? ==> r == Failure(MissingApiKeyError)
    ensures apiKey.Some? && tokens == [] ==> r == Failure(MissingCityError)
    ensures apiKey.Some? && tokens != [] ==> r == Success((apiKey.value, Text.Join(tokens, " ")))
  {
    if apiKey.None? {
      return Failure(MissingApiKeyError);
    }
    var args := new Arguments.Args(tokens);
    var searchArg := args.Rest();
    if searchArg == "" {
      return Failure(MissingCityError);
    }
    r := Success((apiKey.value, searchArg));
  }

  /** One condition entry of a forecast (`weather[0]` of a day). */
  datatype Condition = Condition(description: string, icon: string)

  /**
   * One entry of `daily`. The date is already formatted ("%e %b %Y") and the
   * day temperature already rounded to text: both come from chrono and from
   * floating point, which are left out.
   */
  datatype DailyWeather = DailyWeather(date: string, dayTemp: string, humidity: int,
                                       conditions: seq<Condition>)

  /** What `uppercase_first` and `weather[0]` need of a day. */
  predicate Renderable(day: DailyWeather)
  {
    day.conditions != [] && day.conditions[0].description != "" &&
    day.conditions[0].description[0] < 128 as char
  }

  function ForecastField(day: DailyWeather): Field
    requires Renderable(day)
  {
    Field(day.date,
          WeatherEmoji(day.conditions[0].icon) + " **" + UppercaseFirst(day.conditions[0].description) +
          "** \n**Temp**: " + day.dayTemp + "\U{00B0}C\n**Humidity**: " + Text.IntToDecimal(day.humidity) + "%",
          true)
  }

  /**
   * A forecast field is named by its date and shown inline. Its text opens
   * with the day's emoji and capitalised description and closes with the
   * humidity percentage.
   */
  lemma ForecastFieldLayout(day: DailyWeather)
    requires Renderable(day)
    ensures ForecastField(day).name == day.date && ForecastField(day).inline
    ensures var head := WeatherEmoji(day.conditions[0].icon) + " **" + UppercaseFirst(day.conditions[0].description);
      head <= ForecastField(day).value
    ensures var tail := Text.IntToDecimal(day.humidity) + "%";
      |tail| <= |ForecastField(day).value| && ForecastField(day).value[|ForecastField(day).value| - |tail|..] == tail
  {
    var head := WeatherEmoji(day.conditions[0].icon) + " **" + UppercaseFirst(day.conditions[0].description);
    var middle := "** \n**Temp**: " + day.dayTemp + "\U{00B0}C\n**Humidity**: ";
    var tail := Text.IntToDecimal(day.humidity) + "%";
    var v := ForecastField(day).value;
    assert v == head + middle + tail;
  }

  /** The forecast fields of `days`, one per day, in order. */
  function ForecastFields(days: seq<DailyWeather>): (fs: seq<Field>)
    requires forall i :: 0 <= i < |days| ==> Renderable(days[i])
    ensures |fs| == |days|
  {
    if days == [] then [] else ForecastFields(days[..|days| - 1]) + [ForecastField(days[|days| - 1])]
  }

  /** Field i is day i's field, and every forecast field is inline. */
  lemma {:induction false} ForecastFieldsAt(days: seq<DailyWeather>, i: nat)
    requires forall j :: 0 <= j < |days| ==> Renderable(days[j])
    requires i < |days|
    ensures ForecastFields(days)[i] == ForecastField(days[i])
    ensures ForecastFields(days)[i].inline
  {
    var front := days[..|days| - 1];
    if i < |days| - 1 {
      ForecastFieldsAt(front, i);
      assert front[i] == days[i];
    }
  }

  lemma ForecastFieldsSnoc(days: seq<DailyWeather>, i: nat)
    requires forall j :: 0 <= j < |days| ==> Renderable(days[j])
    requires i < |days|
    ensures ForecastFields(days[..i + 1]) == ForecastFields(days[..i]) + [ForecastField(days[i])]
  {
    var shown := days[..i + 1];
    assert shown[..i] == days[..i] && shown[i] == days[i];
  }

  /** The `for` loop: one `e.field(…)` per day, in order. */
  method AddForecastFields(e: Embeds.EmbedBuilder, days: seq<DailyWeather>)
    requires forall i :: 0 <= i < |days| ==> Renderable(days[i])
    modifies e
    ensures e.View() == old(e.View()).(fields := old(e.fields) + ForecastFields(days))
  {
    for i := 0 to |days|
      invariant e.View() == old(e.View()).(fields := old(e.fields) + ForecastFields(days[..i]))
    {
      var f := ForecastField(days[i]);
      e.AddField(f.name, f.value, f.inline);
      ForecastFieldsSnoc(days, i);
      Text.AppendAssociative(old(e.fields), ForecastFields(days[..i]), [f]);
    }
    assert days[..|days|] == days;
  }

  /**
   * The forecast embed: its title, and one inline field per day after the
   * first, in order. `daily[1..]` panics on an empty list, hence the requires.
   */
  method BuildForecast(e: Embeds.EmbedBuilder, search: string, daily: seq<DailyWeather>)
    requires |daily| >= 1
    requires forall i :: 1 <= i < |daily| ==> Renderable(daily[i])
    modifies e
    ensures e.View() == old(e.View()).(title := Some("Forecast for " + search),
                                       fields := old(e.fields) + ForecastFields(daily[1..]))
  {
    e.SetTitle("Forecast for " + search);
    AddForecastFields(e, daily[1..]);
  }
}
