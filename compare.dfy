/**
 * compare_cities and format_comparison of bot.py: the two-city input
 * format and the temperature difference shown.
 */
module Compare {
  import opened Wrappers
  import opened JsonValues
  import opened Text

  /** `[c.strip() for c in text.split(',')]` when it has exactly two parts. */
  function ParseCities(text: string): (r: Option<(string, string)>)
    ensures r.Some? <==> Count(text, ',') == 1
  {
    var parts := Split(text, ',');
    if |parts| == 2 then Some((Strip(parts[0]), Strip(parts[1]))) else None
  }

  /** Two comma-free parts around one comma are the two cities, stripped. */
  lemma ParseTwoCities(x: string, y: string)
    requires ',' !in x && ',' !in y
    ensures ParseCities(x + "," + y) == Some((Strip(x), Strip(y)))
  {
    assert x + "," + y == x + [','] + y;
    SplitAtSep(x, y, ',');
    SplitWithoutSep(y, ',');
    assert Split(y, ',') == [y];
  }

  /** Whenever two cities are read, the text is one comma between two comma-free parts. */
  lemma ParsedTextShape(text: string)
    requires ParseCities(text).Some?
    ensures var parts := Split(text, ',');
            |parts| == 2 && text == parts[0] + "," + parts[1]
            && ',' !in parts[0] && ',' !in parts[1]
            && ParseCities(text) == Some((Strip(parts[0]), Strip(parts[1])))
  {
    var parts := Split(text, ',');
    JoinSplit(text, ',');
    assert parts[1..] == [parts[1]];
    assert parts[0] in parts && parts[1] in parts;
  }

  /** A single city is rejected. */
  lemma OneCityRejected(text: string)
    requires ',' !in text
    ensures ParseCities(text).None?
  {
    SplitWithoutSep(text, ',');
  }

  /** A trailing comma passes the format check with an empty second city. */
  lemma TrailingCommaAccepted(x: string)
    requires ',' !in x
    ensures ParseCities(x + ",") == Some((Strip(x), ""))
  {
    var e: string := [];
    assert Strip(e) == e;
    ParseTwoCities(x, e);
    assert x + "," + e == x + ",";
  }

  /** `w['main']['temp']` as subtraction accepts it. */
  function Temperature(w: Json): Option<real> {
    match At(w, [Key("main"), Key("temp")])
    case None => None
    case Some(v) => Number(v)
  }

  /** The subscripts format_comparison reads from each city's payload. */
  predicate Comparable(w: Json) {
    && At(w, [Key("name")]).Some?
    && Temperature(w).Some?
    && At(w, [Key("main"), Key("humidity")]).Some?
    && At(w, [Key("wind"), Key("speed")]).Some?
    && At(w, [Key("weather"), Index(0), Key("description")]).Some?
  }

  /** `abs(t1 - t2)` */
  function Difference(t1: real, t2: real): (d: real)
    ensures d >= 0.0
    ensures d == t1 - t2 || d == t2 - t1
    ensures d == 0.0 <==> t1 == t2
  {
    if t1 >= t2 then t1 - t2 else t2 - t1
  }

  lemma DifferenceSymmetric(t1: real, t2: real)
    ensures Difference(t1, t2) == Difference(t2, t1)
  {
  }

  /** The difference is the larger temperature minus the smaller. */
  lemma DifferenceIsSpread(t1: real, t2: real)
    ensures Difference(t1, t2) + (if t1 <= t2 then t1 else t2) == (if t1 <= t2 then t2 else t1)
  {
  }

  /** What the comparison shows: both payloads and the difference, or a caught formatting error. */
  datatype Comparison = Compared(first: Json, second: Json, difference: real) | FormatFailed

  function FormatComparison(w1: Json, w2: Json): (c: Comparison)
    ensures c.Compared? <==> Comparable(w1) && Comparable(w2)
    ensures c.Compared? ==> c.first == w1 && c.second == w2
    ensures c.Compared? ==> c.difference == Difference(Temperature(w1).value, Temperature(w2).value)
    ensures c.Compared? ==> c.difference >= 0.0
    ensures c.Compared? ==> (c.difference == 0.0 <==> Temperature(w1) == Temperature(w2))
  {
    if Comparable(w1) && Comparable(w2) then
      Compared(w1, w2, Difference(Temperature(w1).value, Temperature(w2).value))
    else FormatFailed
  }

  /** Swapping the cities swaps the columns and keeps the difference. */
  lemma ComparisonSymmetric(w1: Json, w2: Json)
    requires FormatComparison(w1, w2).Compared?
    ensures FormatComparison(w2, w1) == Compared(w2, w1, FormatComparison(w1, w2).difference)
  {
    DifferenceSymmetric(Temperature(w1).value, Temperature(w2).value);
  }
}
