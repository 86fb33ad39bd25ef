/**
 * The response cache of weather_app.py: one JSON file per key under `.cache/`,
 * the key being the MD5 of `f"{lat:.4f}_{lon:.4f}_{endpoint}"`. Files are
 * overwritten on every save and judged fresh on read while younger than
 * CACHE_DURATION (ten minutes); stale files are never deleted.
 */
module Cache {
  import opened Wrappers
  import opened JsonValues
  import opened Text

  /** A point on the globe, in degrees, as Telegram and the geocoder hand it over. */
  datatype Coord = Coord(lat: real, lon: real)

  /** CACHE_DURATION = timedelta(minutes=10), in microseconds (datetime's resolution). */
  const CacheDuration: int := 600_000_000

  /** The endpoint tags the callers file their responses under. */
  datatype Endpoint = Weather | Hourly | AirPollution | Forecast5d {
    function Tag(): string {
      match this
      case Weather => "weather"
      case Hourly => "hourly"
      case AirPollution => "air_pollution"
      case Forecast5d => "forecast5d"
    }
  }

  function Abs(x: real): (r: real)
    ensures r >= 0.0 && (r == x || r == -x)
  {
    if x < 0.0 then -x else x
  }

  /** `x * 10^4` rounded to the nearest integer, ties to even: how `:.4f` rounds the exact value. */
  function Round4(x: real): (n: int)
    ensures (n as real) - 0.5 <= x * 10000.0 <= (n as real) + 0.5
    ensures (n as real) - 0.5 == x * 10000.0 || x * 10000.0 == (n as real) + 0.5 ==> n % 2 == 0
  {
    var y := x * 10000.0;
    var f := y.Floor;
    var frac := y - f as real;
    if frac < 0.5 then f
    else if frac > 0.5 then f + 1
    else if f % 2 == 0 then f
    else f + 1
  }

  /** The rounded magnitude of a coordinate, in units of 10^-4 degrees. */
  function Magnitude4(x: real): (m: nat)
    ensures m as real - 0.5 <= Abs(x) * 10000.0 <= m as real + 0.5
  {
    Round4(Abs(x))
  }

  /** `f"{x:.4f}"`: a minus sign for a negative x, then the rounded magnitude with four decimals. */
  function Fixed4(x: real): (s: string)
    ensures '_' !in s
  {
    (if x < 0.0 then "-" else "") + Unsigned4(Magnitude4(x))
  }

  /** A magnitude in units of 10^-4 written with four decimals: `{m // 10000}.{m % 10000:04d}`. */
  function Unsigned4(m: nat): (s: string)
    ensures |s| > 0 && '0' <= s[0] <= '9' && '_' !in s
  {
    NatToString(m / 10000) + "." + Pad4(m % 10000)
  }

  /** Different magnitudes are written differently. */
  lemma Unsigned4Injective(m: nat, m': nat)
    requires Unsigned4(m) == Unsigned4(m')
    ensures m == m'
  {
    SplitAtFirst(NatToString(m / 10000), Pad4(m % 10000), NatToString(m' / 10000), Pad4(m' % 10000), '.');
    NatToStringInjective(m / 10000, m' / 10000);
    Pad4RoundTrip(m % 10000);
    Pad4RoundTrip(m' % 10000);
  }

  /** `f"{lat:.4f}_{lon:.4f}_{endpoint}"`: the string get_cache_key hashes into a file name. */
  function KeyString(lat: real, lon: real, ep: Endpoint): string {
    Fixed4(lat) + "_" + Fixed4(lon) + "_" + ep.Tag()
  }

  /** What the key keeps of a coordinate: its sign and its rounded magnitude. */
  predicate SameRounding(x: real, y: real) {
    (x < 0.0 <==> y < 0.0) && Magnitude4(x) == Magnitude4(y)
  }

  lemma Fixed4Injective(x: real, y: real)
    requires Fixed4(x) == Fixed4(y)
    ensures SameRounding(x, y)
  {
    var ux, uy := Unsigned4(Magnitude4(x)), Unsigned4(Magnitude4(y));
    if x < 0.0 {
      assert Fixed4(x) == "-" + ux && Fixed4(x)[0] == '-';
      assert y < 0.0;
      assert Fixed4(y) == "-" + uy;
      assert ux == Fixed4(x)[1..] == uy;
    } else {
      assert Fixed4(x) == ux && Fixed4(x)[0] == ux[0];
      assert !(y < 0.0);
    }
    Unsigned4Injective(Magnitude4(x), Magnitude4(y));
  }

  lemma TagInjective(a: Endpoint, b: Endpoint)
    requires a.Tag() == b.Tag()
    ensures a == b
  {
    match a
    case Weather => assert b.Tag()[0] == 'w';
    case Hourly => assert b.Tag()[0] == 'h';
    case AirPollution => assert b.Tag()[0] == 'a';
    case Forecast5d => assert b.Tag()[0] == 'f';
  }

  /**
   * Two requests share a cache file exactly when their coordinates agree in
   * sign and in their magnitude rounded to four decimals, and their endpoint
   * tags agree (the MD5 step is taken as collision-free).
   */
  lemma KeyStringMatches(lat: real, lon: real, ep: Endpoint, lat': real, lon': real, ep': Endpoint)
    ensures KeyString(lat, lon, ep) == KeyString(lat', lon', ep')
            <==> SameRounding(lat, lat') && SameRounding(lon, lon') && ep == ep'
  {
    if KeyString(lat, lon, ep) == KeyString(lat', lon', ep') {
      KeyStringInjective(lat, lon, ep, lat', lon', ep');
    } else if SameRounding(lat, lat') && SameRounding(lon, lon') {
      assert Fixed4(lat) == Fixed4(lat') && Fixed4(lon) == Fixed4(lon');
    }
  }

  lemma KeyStringInjective(lat: real, lon: real, ep: Endpoint, lat': real, lon': real, ep': Endpoint)
    requires KeyString(lat, lon, ep) == KeyString(lat', lon', ep')
    ensures SameRounding(lat, lat') && SameRounding(lon, lon') && ep == ep'
  {
    var a, b, a', b' := Fixed4(lat), Fixed4(lon), Fixed4(lat'), Fixed4(lon');
    var t, t' := ep.Tag(), ep'.Tag();
    KeyStringParts(lat, lon, ep);
    KeyStringParts(lat', lon', ep');
    SplitAtFirst(a, b + "_" + t, a', b' + "_" + t', '_');
    SplitAtFirst(b, t, b', t', '_');
    Fixed4Injective(lat, lat');
    Fixed4Injective(lon, lon');
    TagInjective(ep, ep');
  }

  lemma KeyStringParts(lat: real, lon: real, ep: Endpoint)
    ensures KeyString(lat, lon, ep) == Fixed4(lat) + "_" + (Fixed4(lon) + "_" + ep.Tag())
  {
  }

  /** Coordinates that differ only beyond the fourth decimal share their cache entry. */
  lemma NearbyPointsShareKey()
    ensures KeyString(55.75581, 37.61732, Weather) == KeyString(55.75583, 37.61733, Weather)
  {
    assert Magnitude4(55.75581) == 557558 == Magnitude4(55.75583);
    assert Magnitude4(37.61732) == 376173 == Magnitude4(37.61733);
  }

  /** Rounding to zero keeps the sign: "-0.0000" and "0.0000" are different keys. */
  lemma SignSurvivesRounding()
    ensures Round4(-0.00001) == Round4(0.00001) == 0
    ensures KeyString(-0.00001, 1.0, Weather) != KeyString(0.00001, 1.0, Weather)
  {
    assert |Fixed4(-0.00001)| == 7;
    assert |Fixed4(0.00001)| == 6;
  }

  /** The `fetched_at` field of a cache file. */
  datatype Stamp =
    | IsoStamp(at: int)  // a naive ISO-8601 time `datetime.fromisoformat` reads (in microseconds)
    | BadStamp           // anything else: fromisoformat or the subtraction from now() raises

  /** A file under `.cache/`, as `json.load` sees it. */
  datatype CacheDoc =
    | NotJson                                               // JSONDecodeError, e.g. a truncated write
    | Undecodable                                           // bytes that are not UTF-8: UnicodeDecodeError
    | NotObject                                             // valid JSON whose top level is not an object
    | Record(fetchedAt: Option<Stamp>, data: Option<Json>)  // an object; either field may be missing

  /** The document save_to_cache_by_key writes (the lat/lon/endpoint fields it adds are never read). */
  function Written(data: Json, now: int): CacheDoc {
    Record(Some(IsoStamp(now)), Some(data))
  }

  /** A document that load_from_cache_by_key returns data from at time `now`. */
  predicate Live(doc: CacheDoc, now: int) {
    && doc.Record?
    && doc.fetchedAt.Some? && doc.fetchedAt.value.IsoStamp?
    && now - doc.fetchedAt.value.at < CacheDuration
    && doc.data.Some?
  }

  datatype LoadOutcome = Hit(data: Json) | Absent | Raises

  /**
   * load_from_cache_by_key as written: it catches FileNotFoundError,
   * JSONDecodeError and KeyError only, so a file that is not UTF-8
   * (UnicodeDecodeError, which is not a JSONDecodeError), a document that is
   * JSON but not an object (TypeError) or one whose `fetched_at` is not a
   * naive ISO time (ValueError, TypeError) raises to the caller.
   */
  function LoadAsWritten(doc: Option<CacheDoc>, now: int): (r: LoadOutcome)
    ensures r.Hit? <==> doc.Some? && Live(doc.value, now)
    ensures r.Raises? <==> (doc == Some(Undecodable) || doc == Some(NotObject)
                            || (doc.Some? && doc.value.Record? && doc.value.fetchedAt == Some(BadStamp)))
    ensures r.Absent? <==> (doc.None? || doc == Some(NotJson)
                            || (doc.Some? && doc.value.Record? && (doc.value.fetchedAt.None?
                                || (doc.value.fetchedAt.value.IsoStamp? && !Live(doc.value, now)))))
  {
    match doc
    case None => Absent
    case Some(NotJson) => Absent
    case Some(Undecodable) => Raises
    case Some(NotObject) => Raises
    case Some(Record(None, _)) => Absent
    case Some(Record(Some(BadStamp), _)) => Raises
    case Some(Record(Some(IsoStamp(t)), data)) =>
      if now - t < CacheDuration then
        if data.Some? then Hit(data.value) else Absent
      else Absent
  }

  /**
   * A valid-JSON file with an unreadable timestamp, a JSON file that is not an
   * object and a file that is not UTF-8 escape the function as an exception,
   * and they do so at every time: the read never writes, so nothing heals them.
   */
  lemma CorruptStampEscapes(now: int, later: int)
    ensures LoadAsWritten(Some(Record(Some(BadStamp), Some(JObj(map[])))), now) == Raises
    ensures LoadAsWritten(Some(NotObject), now) == Raises
    ensures LoadAsWritten(Some(Undecodable), now) == Raises
    ensures forall doc :: LoadAsWritten(doc, now).Raises? ==> LoadAsWritten(doc, later).Raises?
  {
  }

  /**
   * The read as intended: every unreadable or stale document reads as absent,
   * and a live one yields its data.
   */
  function ReadEntry(doc: Option<CacheDoc>, now: int): (r: Option<Json>)
    ensures r.Some? <==> doc.Some? && Live(doc.value, now)
    ensures r.Some? ==> r == doc.value.data
  {
    match LoadAsWritten(doc, now)
    case Hit(d) => Some(d)
    case _ => None
  }

  /** Where the as-written read does not raise, the intended read agrees with it. */
  lemma ReadEntryRefinesLoad(doc: Option<CacheDoc>, now: int)
    requires !LoadAsWritten(doc, now).Raises?
    ensures ReadEntry(doc, now) == (if LoadAsWritten(doc, now).Hit? then Some(LoadAsWritten(doc, now).data) else None)
  {
  }

  /** A freshly written entry serves its data for strictly less than ten minutes. */
  lemma {:induction false} WrittenEntryLifetime(data: Json, t: int, now: int)
    ensures ReadEntry(Some(Written(data, t)), now) == (if now - t < CacheDuration then Some(data) else None)
    ensures ReadEntry(Some(Written(data, t)), t + CacheDuration) == None
  {
  }

  function Lookup(files: map<string, CacheDoc>, key: string): (r: Option<CacheDoc>)
    ensures r.Some? <==> key in files
  {
    if key in files then Some(files[key]) else None
  }

  /** The `.cache/` directory: file name (the key string) to document. */
  class CacheDir {
    var files: map<string, CacheDoc>

    constructor ()
      ensures files == map[]
    {
      files := map[];
    }

    /** save_to_cache_by_key: overwrites the key's file, whatever it held. */
    method Save(data: Json, lat: real, lon: real, ep: Endpoint, now: int)
      modifies this
      ensures files == old(files)[KeyString(lat, lon, ep) := Written(data, now)]
    {
      files := files[KeyString(lat, lon, ep) := Written(data, now)];
    }

    /** load_from_cache_by_key, with corrupt files reading as absent. */
    function Load(lat: real, lon: real, ep: Endpoint, now: int): (r: Option<Json>)
      reads this
      ensures var k := KeyString(lat, lon, ep);
              (r.Some? <==> k in files && Live(files[k], now)) && (r.Some? ==> r == files[k].data)
    {
      ReadEntry(Lookup(files, KeyString(lat, lon, ep)), now)
    }
  }

  /**
   * After a save, a read of the same key within ten minutes returns the saved
   * data, whatever the file held before; other keys are not disturbed.
   */
  lemma SaveThenLoad(files: map<string, CacheDoc>, key: string, data: Json, t: int, other: string, now: int)
    requires now - t < CacheDuration
    ensures ReadEntry(Lookup(files[key := Written(data, t)], key), now) == Some(data)
    ensures other != key ==> Lookup(files[key := Written(data, t)], other) == Lookup(files, other)
  {
  }
}
