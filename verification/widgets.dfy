/** The realized-volatility widget's own helpers: the API URL for the selected
    asset and window, and the labels for the window and the metric. */
module Realized {
  import opened Text

  const UrlPrefix := "http://192.168.70.10:5001/api/vol_realized/"
  /** The configuration object's URL template. */
  const BaseUrlTemplate := UrlPrefix + "{CRYPTO}/{HOURS}"

  /** The window sizes offered by the hours selector, with their option text. */
  const HoursOptions: seq<(int, string)> :=
    [(1, "1 Hour"), (24, "1 Day"), (168, "7 Days"), (720, "30 Days")]

  /** The metrics offered by the metric selector, with their option text. */
  const MetricOptions: seq<(string, string)> := [
    ("volatility", "Volatility"),
    ("upside_volatility", "Upside Volatility"),
    ("downside_volatility", "Downside Volatility")
  ]

  /** The label table of the hours display. */
  const HoursLabels: map<int, string> :=
    map[1 := "1 Hour", 24 := "1 Day", 168 := "7 Days", 720 := "30 Days"]

  /** The label table of the metric display. */
  const MetricLabels: map<string, string> := map[
    "volatility" := "Volatility",
    "upside_volatility" := "Upside Volatility",
    "downside_volatility" := "Downside Volatility"
  ]

  /** The API URL: the first `{CRYPTO}` replaced by the asset, then the first
      `{HOURS}` replaced by the window size. */
  function CurrentUrl(template: string, crypto: string, hours: int): (url: string)
    ensures var n := |template| - 16;
      n >= 0 && template[n..] == "{CRYPTO}/{HOURS}" && '{' !in template[..n] && '{' !in crypto ==>
        url == template[..n] + crypto + "/" + IntToString(hours)
  {
    var hoursText := IntToString(hours);
    var url := ReplaceFirst(ReplaceFirst(template, "{CRYPTO}", crypto), "{HOURS}", hoursText);
    var n := |template| - 16;
    if n >= 0 && template[n..] == "{CRYPTO}/{HOURS}" && '{' !in template[..n] && '{' !in crypto then
      TemplateShape(template, crypto, hoursText);
      url
    else
      url
  }

  /** A template ending in the two placeholders is its brace-free prefix
      followed by them. */
  lemma TemplateShape(template: string, crypto: string, hoursText: string)
    requires |template| >= 16 && template[|template| - 16..] == "{CRYPTO}/{HOURS}"
    requires '{' !in template[..|template| - 16] && '{' !in crypto
    ensures ReplaceFirst(ReplaceFirst(template, "{CRYPTO}", crypto), "{HOURS}", hoursText)
         == template[..|template| - 16] + crypto + "/" + hoursText
  {
    var prefix := template[..|template| - 16];
    assert template == prefix + "{CRYPTO}/{HOURS}";
    UrlShape(prefix, crypto, hoursText);
  }

  /** With the configured template the URL is the prefix, the asset, a slash
      and the window size, for any asset name without a brace. */
  lemma DefaultUrlShape(crypto: string, hours: int)
    requires '{' !in crypto
    ensures CurrentUrl(BaseUrlTemplate, crypto, hours) == UrlPrefix + crypto + "/" + IntToString(hours)
  {
    assert '{' !in UrlPrefix;
    UrlShape(UrlPrefix, crypto, IntToString(hours));
  }

  /** The two substitutions for a template of the configured form: each
      placeholder is found where the template has it, since nothing before it
      contains a brace. */
  lemma {:induction false} UrlShape(prefix: string, crypto: string, hoursText: string)
    requires '{' !in prefix && '{' !in crypto
    ensures ReplaceFirst(ReplaceFirst(prefix + "{CRYPTO}/{HOURS}", "{CRYPTO}", crypto), "{HOURS}", hoursText)
         == prefix + crypto + "/" + hoursText
  {
    var crypto' := "{CRYPTO}";
    var hours' := "{HOURS}";
    assert prefix + "{CRYPTO}/{HOURS}" == prefix + crypto' + ("/" + hours');
    ReplaceFirstAfter(prefix, crypto', "/" + hours', crypto);
    var a := prefix + crypto + "/";
    assert '{' !in a by {
      forall k | 0 <= k < |a| ensures a[k] != '{' {
        if k < |prefix| {
          assert a[k] == prefix[k];
        } else if k < |prefix| + |crypto| {
          assert a[k] == crypto[k - |prefix|];
        }
      }
    }
    assert prefix + crypto + ("/" + hours') == a + hours' + "";
    ReplaceFirstAfter(a, hours', "", hoursText);
  }

  /** The window label: the table entry, or "<n> Hours" for any other value.
      A window size missing from the table is shown as its decimal number
      followed by " Hours", and that number reads back as the window size. */
  function HoursDisplayText(hours: int): (text: string)
    ensures hours !in HoursLabels ==>
      && |text| > 6 && text[|text| - 6..] == " Hours"
      && ((text[0] == '-') <==> hours < 0)
      && (hours < 0 ==> |text| > 7)
      && var digits := if hours < 0 then text[1..|text| - 6] else text[..|text| - 6];
      && |digits| >= 1
      && (forall k :: 0 <= k < |digits| ==> '0' <= digits[k] <= '9')
      && (|digits| > 1 ==> digits[0] != '0')
      && DecimalValue(digits) == Abs(hours)
  {
    if hours in HoursLabels then HoursLabels[hours] else IntToString(hours) + " Hours"
  }

  /** The window display agrees with the hours selector: every option offered
      is labelled with its own option text. */
  lemma HoursLabelsMatchSelector()
    ensures forall k :: 0 <= k < |HoursOptions| ==> HoursDisplayText(HoursOptions[k].0) == HoursOptions[k].1
  {
  }

  /** The metric label: the table entry, or the key itself when unknown. */
  function MetricDisplayText(metric: string): (text: string)
    ensures metric !in MetricLabels ==> text == metric
    ensures metric in MetricLabels ==> text != metric
  {
    if metric in MetricLabels then MetricLabels[metric] else metric
  }

  /** The metric display agrees with the selector: every option offered is
      labelled with its own option text. */
  lemma MetricLabelsMatchSelector()
    ensures forall k :: 0 <= k < |MetricOptions| ==> MetricDisplayText(MetricOptions[k].0) == MetricOptions[k].1
  {
  }
}

/** The forecast widget's own helpers: the API URL for the selected asset and
    horizon, and the label for the horizon. */
module Forecast {
  import opened Text

  const UrlPrefix := "http://192.168.70.10:5001/api/vol_forecast/"
  /** The configuration object's URL template. */
  const BaseUrlTemplate := UrlPrefix + "{CRYPTO}/"

  /** The horizons offered by the period selector, with their option text. */
  const PeriodOptions: seq<(int, string)> :=
    [(0, "1 Hour"), (1, "1 Day"), (7, "7 Days"), (30, "30 Days")]

  /** The label table of the period display. */
  const PeriodLabels: map<int, string> :=
    map[0 := "1 Hour", 1 := "1 Day", 7 := "7 Days", 30 := "30 Days"]

  /** The API URL: the first `{CRYPTO}` replaced by the asset, then the
      horizon appended. */
  function CurrentUrl(template: string, crypto: string, period: int): (url: string)
    ensures var n := |template| - 9;
      n >= 0 && template[n..] == "{CRYPTO}/" && '{' !in template[..n] ==>
        url == template[..n] + crypto + "/" + IntToString(period)
  {
    var url := ReplaceFirst(template, "{CRYPTO}", crypto) + IntToString(period);
    var n := |template| - 9;
    if n >= 0 && template[n..] == "{CRYPTO}/" && '{' !in template[..n] then
      TemplateShape(template, crypto);
      url
    else
      url
  }

  /** The substitution for a template of the configured form: the
      placeholder is found where the template has it, since nothing before it
      contains a brace. */
  lemma UrlShape(prefix: string, crypto: string)
    requires '{' !in prefix
    ensures ReplaceFirst(prefix + "{CRYPTO}/", "{CRYPTO}", crypto) == prefix + crypto + "/"
  {
    assert prefix + "{CRYPTO}/" == prefix + "{CRYPTO}" + "/";
    ReplaceFirstAfter(prefix, "{CRYPTO}", "/", crypto);
  }

  /** A template ending in the placeholder and a slash is its brace-free
      prefix followed by them. */
  lemma TemplateShape(template: string, crypto: string)
    requires |template| >= 9 && template[|template| - 9..] == "{CRYPTO}/"
    requires '{' !in template[..|template| - 9]
    ensures ReplaceFirst(template, "{CRYPTO}", crypto) == template[..|template| - 9] + crypto + "/"
  {
    var prefix := template[..|template| - 9];
    assert template == prefix + "{CRYPTO}/";
    UrlShape(prefix, crypto);
  }

  /** With the configured template the URL is the prefix, the asset, a slash
      and the horizon, whatever the asset name. */
  lemma DefaultUrlShape(crypto: string, period: int)
    ensures CurrentUrl(BaseUrlTemplate, crypto, period) == UrlPrefix + crypto + "/" + IntToString(period)
  {
    assert '{' !in UrlPrefix;
    UrlShape(UrlPrefix, crypto);
  }

  /** The horizon label: the table entry, or "<n> Days" for any other value.
      A horizon missing from the table is shown as its decimal number
      followed by " Days", and that number reads back as the horizon. */
  function PeriodDisplayText(period: int): (text: string)
    ensures period !in PeriodLabels ==>
      && |text| > 5 && text[|text| - 5..] == " Days"
      && ((text[0] == '-') <==> period < 0)
      && (period < 0 ==> |text| > 6)
      && var digits := if period < 0 then text[1..|text| - 5] else text[..|text| - 5];
      && |digits| >= 1
      && (forall k :: 0 <= k < |digits| ==> '0' <= digits[k] <= '9')
      && (|digits| > 1 ==> digits[0] != '0')
      && DecimalValue(digits) == Abs(period)
  {
    if period in PeriodLabels then PeriodLabels[period] else IntToString(period) + " Days"
  }

  /** The period display agrees with the selector: every option offered is
      labelled with its own option text. */
  lemma PeriodLabelsMatchSelector()
    ensures forall k :: 0 <= k < |PeriodOptions| ==> PeriodDisplayText(PeriodOptions[k].0) == PeriodOptions[k].1
  {
  }
}
