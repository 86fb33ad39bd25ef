/**
 * analize_air_pollution: every pollutant of the threshold table that the
 * reading holds gets the level of the first half-open band `[low, high)`
 * containing its value (1 if none does); the overall level is the maximum,
 * starting from 1; the warning follows the overall level.
 */
module AirQuality {
  import opened Wrappers
  import opened JsonValues

  /** The upper end of a band; the last band of each table runs to `float('inf')`. */
  datatype Bound = Below(limit: real) | Unbounded

  datatype Band = Band(low: real, high: Bound, level: int)

  /** `min_val <= value < max_val` */
  predicate InBand(b: Band, v: real) {
    b.low <= v && (b.high.Unbounded? || v < b.high.limit)
  }

  datatype Pollutant = Pollutant(key: string, bands: seq<Band>)

  /** The five bands of one table, from its four inner limits. */
  function Table(a: real, b: real, c: real, d: real): seq<Band> {
    [Band(0.0, Below(a), 1), Band(a, Below(b), 2), Band(b, Below(c), 3), Band(c, Below(d), 4), Band(d, Unbounded, 5)]
  }

  /** `thresholds`, in its dict order. */
  const Thresholds: seq<Pollutant> := [
    Pollutant("so2", Table(20.0, 80.0, 250.0, 350.0)),
    Pollutant("no2", Table(40.0, 70.0, 150.0, 200.0)),
    Pollutant("pm10", Table(20.0, 50.0, 100.0, 200.0)),
    Pollutant("pm2_5", Table(10.0, 25.0, 50.0, 75.0)),
    Pollutant("o3", Table(60.0, 100.0, 140.0, 180.0)),
    Pollutant("co", Table(4400.0, 9400.0, 12400.0, 15400.0))
  ]

  /** The level of the first band containing `v`, or 1 when none does. */
  function LevelOf(bands: seq<Band>, v: real): (l: int)
    ensures (forall i | 0 <= i < |bands| :: !InBand(bands[i], v)) ==> l == 1
    ensures forall i | 0 <= i < |bands| && InBand(bands[i], v) && (forall j | 0 <= j < i :: !InBand(bands[j], v))
              :: l == bands[i].level
  {
    if bands == [] then 1
    else if InBand(bands[0], v) then bands[0].level
    else
      assert forall i | 1 <= i < |bands| :: bands[i] == bands[1..][i - 1];
      LevelOf(bands[1..], v)
  }

  /** A table that starts at 0, whose bands abut in increasing order with levels 1, 2, ... and the last unbounded. */
  predicate Contiguous(bands: seq<Band>) {
    && |bands| > 0 && bands[0].low == 0.0
    && (forall i | 0 <= i < |bands| :: bands[i].level == i + 1)
    && (forall i | 0 <= i < |bands| - 1 :: bands[i].high == Below(bands[i + 1].low))
    && bands[|bands| - 1].high == Unbounded
    && (forall i, j | 0 <= i < j < |bands| :: bands[i].low < bands[j].low)
  }

  lemma TableContiguous(a: real, b: real, c: real, d: real)
    requires 0.0 < a < b < c < d
    ensures Contiguous(Table(a, b, c, d))
  {
  }

  /** The `k`-th table of `thresholds` is contiguous with five bands. */
  lemma ThresholdContiguous(k: nat)
    requires k < |Thresholds|
    ensures Contiguous(Thresholds[k].bands) && |Thresholds[k].bands| == 5
  {
    if k == 0 { TableContiguous(20.0, 80.0, 250.0, 350.0); }
    else if k == 1 { TableContiguous(40.0, 70.0, 150.0, 200.0); }
    else if k == 2 { TableContiguous(20.0, 50.0, 100.0, 200.0); }
    else if k == 3 { TableContiguous(10.0, 25.0, 50.0, 75.0); }
    else if k == 4 { TableContiguous(60.0, 100.0, 140.0, 180.0); }
    else { TableContiguous(4400.0, 9400.0, 12400.0, 15400.0); }
  }

  lemma TablesContiguous()
    ensures forall p | p in Thresholds :: Contiguous(p.bands) && |p.bands| == 5
  {
    forall p | p in Thresholds
      ensures Contiguous(p.bands) && |p.bands| == 5
    {
      var k :| 0 <= k < |Thresholds| && Thresholds[k] == p;
      ThresholdContiguous(k);
    }
  }

  /** In a contiguous table, a band containing `v` decides its level, whatever comes before. */
  lemma {:induction false} LevelIsContainingBand(bands: seq<Band>, v: real, i: nat)
    requires Contiguous(bands) && i < |bands| && InBand(bands[i], v)
    ensures LevelOf(bands, v) == i + 1
  {
    forall j | 0 <= j < i
      ensures !InBand(bands[j], v)
    {
      assert bands[j].high == Below(bands[j + 1].low);
      assert bands[j + 1].low <= bands[i].low;
    }
  }

  /** Every non-negative value lies in some band of a contiguous table. */
  lemma CoveringBand(bands: seq<Band>, v: real) returns (i: nat)
    requires Contiguous(bands) && v >= 0.0
    ensures i < |bands| && InBand(bands[i], v)
  {
    i := 0;
    while i < |bands| - 1 && bands[i + 1].low <= v
      invariant i < |bands| && bands[i].low <= v
    {
      i := i + 1;
    }
  }

  /** Levels lie in 1..|bands|; negative values (no band) get level 1. */
  lemma LevelInRange(bands: seq<Band>, v: real)
    requires Contiguous(bands)
    ensures 1 <= LevelOf(bands, v) <= |bands|
    ensures v < 0.0 ==> LevelOf(bands, v) == 1
  {
    if v >= 0.0 {
      var i := CoveringBand(bands, v);
      LevelIsContainingBand(bands, v, i);
    } else {
      assert forall i | 0 <= i < |bands| :: bands[0].low <= bands[i].low;
    }
  }

  /** A higher concentration never gets a lower level. */
  lemma LevelMonotone(bands: seq<Band>, v: real, v': real)
    requires Contiguous(bands) && v <= v'
    ensures LevelOf(bands, v) <= LevelOf(bands, v')
  {
    LevelInRange(bands, v);
    LevelInRange(bands, v');
    if v >= 0.0 {
      var i := CoveringBand(bands, v);
      var i' := CoveringBand(bands, v');
      forall j | 0 <= j < i
        ensures !InBand(bands[j], v')
      {
        assert bands[j].high == Below(bands[j + 1].low);
        assert bands[j + 1].low <= bands[i].low;
      }
      LevelIsContainingBand(bands, v, i);
      LevelIsContainingBand(bands, v', i');
    }
  }

  /** One line of `results`: a pollutant present in the reading, its value and its level. */
  datatype Reading = Reading(key: string, value: real, level: int)

  /**
   * The readings the loop appends for `table`, in table order; None when a
   * present value is not a number, where the comparison raises TypeError.
   */
  function Readings(table: seq<Pollutant>, air: map<string, Json>): (r: Option<seq<Reading>>)
    ensures r.Some? ==> |r.value| <= |table|
    ensures r.Some? ==> forall x | x in r.value :: x.key in air && Number(air[x.key]) == Some(x.value)
  {
    if table == [] then Some([])
    else
      var p := table[|table| - 1];
      match Readings(table[..|table| - 1], air)
      case None => None
      case Some(prefix) =>
        if p.key !in air then Some(prefix)
        else match Number(air[p.key])
          case None => None
          case Some(v) => Some(prefix + [Reading(p.key, v, LevelOf(p.bands, v))])
  }

  /** The loop raises exactly when some pollutant of the table is present with a value that is not a number. */
  lemma {:induction false} ReadingsRaiseExactly(table: seq<Pollutant>, air: map<string, Json>)
    ensures Readings(table, air).None? <==> exists p | p in table :: p.key in air && Number(air[p.key]).None?
  {
    if table != [] {
      var p := table[|table| - 1];
      ReadingsRaiseExactly(table[..|table| - 1], air);
      assert forall q :: q in table <==> q in table[..|table| - 1] || q == p;
    }
  }

  /** Every reading is rated by the bands of a pollutant of the table with its key. */
  lemma {:induction false} ReadingsRatedByTable(table: seq<Pollutant>, air: map<string, Json>)
    requires Readings(table, air).Some?
    ensures forall x | x in Readings(table, air).value ::
              exists p | p in table :: p.key == x.key && x.level == LevelOf(p.bands, x.value)
  {
    if table != [] {
      var init := table[..|table| - 1];
      var p := table[|table| - 1];
      ReadingsRatedByTable(init, air);
      assert forall q | q in init :: q in table;
      assert p in table;
    }
  }

  /** One pollutant: rated when present, skipped when absent, raising when not a number. */
  lemma ReadingsSingle(p: Pollutant, air: map<string, Json>)
    ensures Readings([p], air) ==
              if p.key !in air then Some([])
              else match Number(air[p.key])
                case None => None
                case Some(v) => Some([Reading(p.key, v, LevelOf(p.bands, v))])
  {
    assert [p][..0] == [];
    assert Readings([], air) == Some([]);
    if p.key in air && Number(air[p.key]).Some? {
      var v := Number(air[p.key]).value;
      assert [] + [Reading(p.key, v, LevelOf(p.bands, v))] == [Reading(p.key, v, LevelOf(p.bands, v))];
    }
  }

  /** The readings of two tables one after the other are the readings of each, in table order. */
  lemma {:induction false} ReadingsAppend(t1: seq<Pollutant>, t2: seq<Pollutant>, air: map<string, Json>)
    ensures Readings(t1 + t2, air) ==
              if Readings(t1, air).None? || Readings(t2, air).None? then None
              else Some(Readings(t1, air).value + Readings(t2, air).value)
    decreases |t2|
  {
    if t2 == [] {
      assert t1 + t2 == t1;
      assert Readings(t2, air) == Some([]);
      if Readings(t1, air).Some? {
        assert Readings(t1, air).value + [] == Readings(t1, air).value;
      }
    } else {
      var init := t2[..|t2| - 1];
      var p := t2[|t2| - 1];
      assert (t1 + t2)[..|t1 + t2| - 1] == t1 + init;
      assert (t1 + t2)[|t1 + t2| - 1] == p;
      ReadingsAppend(t1, init, air);
      if Readings(t1, air).Some? && Readings(init, air).Some? && p.key in air && Number(air[p.key]).Some? {
        var v := Number(air[p.key]).value;
        var a := Readings(t1, air).value;
        var b := Readings(init, air).value;
        assert a + b + [Reading(p.key, v, LevelOf(p.bands, v))] == a + (b + [Reading(p.key, v, LevelOf(p.bands, v))]);
      }
    }
  }

  /** `max_level`: the largest level, starting from 1. */
  function MaxLevel(rs: seq<Reading>): (m: int)
    ensures m >= 1
    ensures forall i | 0 <= i < |rs| :: rs[i].level <= m
    ensures m == 1 || exists i | 0 <= i < |rs| :: rs[i].level == m
  {
    if rs == [] then 1
    else
      var m := MaxLevel(rs[..|rs| - 1]);
      assert forall i | 0 <= i < |rs| - 1 :: rs[i] == rs[..|rs| - 1][i];
      if rs[|rs| - 1].level > m then rs[|rs| - 1].level else m
  }

  /** Every reading of the real table has a level in 1..5, so the overall level does too. */
  lemma {:induction false} ReadingLevelsInRange(table: seq<Pollutant>, air: map<string, Json>)
    requires forall p | p in table :: Contiguous(p.bands) && |p.bands| == 5
    requires Readings(table, air).Some?
    ensures forall x | x in Readings(table, air).value :: 1 <= x.level <= 5
    ensures 1 <= MaxLevel(Readings(table, air).value) <= 5
  {
    if table != [] {
      var p := table[|table| - 1];
      ReadingLevelsInRange(table[..|table| - 1], air);
      if p.key in air {
        LevelInRange(p.bands, Number(air[p.key]).value);
      }
    }
    var rs := Readings(table, air).value;
    assert forall i | 0 <= i < |rs| :: rs[i] in rs;
  }

  /** Each pollutant of the table present in the reading is rated, by its own table, on its own value. */
  lemma {:induction false} EveryPresentPollutantRated(table: seq<Pollutant>, air: map<string, Json>)
    requires Readings(table, air).Some?
    ensures forall p | p in table && p.key in air ::
              exists x | x in Readings(table, air).value :: x.key == p.key && x.level == LevelOf(p.bands, x.value)
  {
    if table != [] {
      var init := table[..|table| - 1];
      var last := table[|table| - 1];
      EveryPresentPollutantRated(init, air);
      var prefix := Readings(init, air).value;
      var rs := Readings(table, air).value;
      assert forall x | x in prefix :: x in rs;
      forall p | p in table && p.key in air
        ensures exists x | x in rs :: x.key == p.key && x.level == LevelOf(p.bands, x.value)
      {
        if p !in init {
          assert p == last;
          assert rs[|rs| - 1] in rs;
        }
      }
    }
  }

  /** The warning appended after the report. */
  datatype Warning = NoWarning | ModerateWarning | HighWarning

  /** The warning for an overall level: 4 and above high, exactly 3 moderate, below none. */
  function WarningFor(level: int): (w: Warning)
    ensures w == HighWarning <==> level >= 4
    ensures w == ModerateWarning <==> level == 3
    ensures w == NoWarning <==> level <= 2
  {
    if level >= 4 then HighWarning else if level == 3 then ModerateWarning else NoWarning
  }

  predicate InTable(key: string) {
    exists p | p in Thresholds :: p.key == key
  }

  /** The components the extended report lists besides the table's pollutants. */
  function OtherComponents(air: map<string, Json>): map<string, Json> {
    map k | k in air && !InTable(k) :: air[k]
  }

  /** The analysis, without its text layout. */
  datatype AirReport =
    | PassedThrough(error: Json)     // the input carried "error": that value is returned
    | Report(overall: int, readings: seq<Reading>, others: map<string, Json>, warning: Warning)
    | Raises                         // a present pollutant's value is not a number

  /** The inner scan of `ranges`: the first band containing `value` sets the level and stops the scan. */
  method BandLevel(bands: seq<Band>, value: real) returns (level: int)
    ensures level == LevelOf(bands, value)
  {
    level := 1;
    var k := 0;
    while k < |bands|
      invariant 0 <= k <= |bands|
      invariant level == 1
      invariant forall j | 0 <= j < k :: !InBand(bands[j], value)
    {
      if bands[k].low <= value && (bands[k].high.Unbounded? || value < bands[k].high.limit) {
        level := bands[k].level;
        break;
      }
      k := k + 1;
    }
  }

  /** What analize_air_pollution(air_pollution, extended) reports for a dict. */
  function Analysis(air: map<string, Json>, extended: bool): (r: AirReport)
    ensures r.PassedThrough? <==> "error" in air
    ensures r.PassedThrough? ==> r.error == air["error"]
    ensures r.Raises? <==> "error" !in air && Readings(Thresholds, air).None?
    ensures r.Report? ==> r.readings == Readings(Thresholds, air).value && r.overall == MaxLevel(r.readings)
    ensures r.Report? ==> 1 <= r.overall <= 5 && r.warning == WarningFor(r.overall)
    ensures r.Report? ==> forall x | x in r.readings :: x.level <= r.overall
    ensures r.Report? && extended ==> forall k | k in air :: k in r.others <==> !InTable(k)
    ensures r.Report? && extended ==> r.others == map k | k in air && !InTable(k) :: air[k]
    ensures r.Report? && !extended ==> r.others == map[]
  {
    if "error" in air then PassedThrough(air["error"])
    else match Readings(Thresholds, air)
      case None => Raises
      case Some(rs) =>
        OverallLevelInRange(air);
        assert forall x | x in rs :: x.level <= MaxLevel(rs) by {
          assert forall i | 0 <= i < |rs| :: rs[i].level <= MaxLevel(rs);
        }
        Report(MaxLevel(rs), rs, if extended then OtherComponents(air) else map[], WarningFor(MaxLevel(rs)))
  }

  /** analize_air_pollution(air_pollution, extended) on a dict. */
  method Analyze(air: map<string, Json>, extended: bool) returns (r: AirReport)
    ensures r == Analysis(air, extended)
  {
    if "error" in air {
      return PassedThrough(air["error"]);
    }
    var results, maxLevel := ScanTable(Thresholds, air);
    if results.None? {
      return Raises;
    }
    var others := if extended then OtherComponents(air) else map[];
    r := Report(maxLevel, results.value, others, WarningFor(maxLevel));
  }

  /** The loop over the pollutant tables: the readings it appends and `max_level`, or None where a comparison raises. */
  method ScanTable(table: seq<Pollutant>, air: map<string, Json>) returns (results: Option<seq<Reading>>, maxLevel: int)
    ensures results == Readings(table, air)
    ensures results.Some? ==> maxLevel == MaxLevel(results.value)
  {
    var rs: seq<Reading> := [];
    maxLevel := 1;
    var i := 0;
    while i < |table|
      invariant 0 <= i <= |table|
      invariant Readings(table[..i], air) == Some(rs)
      invariant maxLevel == MaxLevel(rs)
    {
      var p := table[i];
      ReadingsStep(table, i, air, rs);
      if p.key in air {
        var n := Number(air[p.key]);
        if n.None? {
          ReadingsNoneExtends(table, i + 1, air);
          return None, maxLevel;
        }
        var value := n.value;
        var level := BandLevel(p.bands, value);
        maxLevel := if level > maxLevel then level else maxLevel;
        rs := rs + [Reading(p.key, value, level)];
      }
      i := i + 1;
    }
    assert table[..i] == table;
    results := Some(rs);
  }

  /** Readings of one more pollutant of the table, in terms of the readings before it. */
  lemma ReadingsStep(table: seq<Pollutant>, i: nat, air: map<string, Json>, rs: seq<Reading>)
    requires i < |table| && Readings(table[..i], air) == Some(rs)
    ensures var p := table[i];
            && (p.key !in air ==> Readings(table[..i + 1], air) == Some(rs))
            && (p.key in air && Number(air[p.key]).None? ==> Readings(table[..i + 1], air).None?)
            && (p.key in air && Number(air[p.key]).Some? ==>
                  var v := Number(air[p.key]).value;
                  Readings(table[..i + 1], air) == Some(rs + [Reading(p.key, v, LevelOf(p.bands, v))]))
  {
    assert table[..i + 1][..i] == table[..i];
  }

  /** Once a prefix of the table raises, the whole table does. */
  lemma {:induction false} ReadingsNoneExtends(table: seq<Pollutant>, i: nat, air: map<string, Json>)
    requires i <= |table| && Readings(table[..i], air).None?
    ensures Readings(table, air).None?
    decreases |table| - i
  {
    if i < |table| {
      assert table[..i + 1][..i] == table[..i];
      ReadingsNoneExtends(table, i + 1, air);
    } else {
      assert table[..i] == table;
    }
  }

  /** Whatever the reading holds, a report's overall level lies in 1..5 and its warning follows from it. */
  lemma OverallLevelInRange(air: map<string, Json>)
    requires "error" !in air && Readings(Thresholds, air).Some?
    ensures 1 <= MaxLevel(Readings(Thresholds, air).value) <= 5
  {
    TablesContiguous();
    ReadingLevelsInRange(Thresholds, air);
  }
}
