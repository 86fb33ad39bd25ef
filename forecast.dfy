/**
 * The 5-day forecast views of bot.py: the `days` buckets of
 * show_forecast_menu, the day buttons, the per-day selection of
 * show_day_details and the `day_<date>` callback tag.
 *
 * `dateOf` stands for `datetime.fromtimestamp(dt).strftime('%Y-%m-%d')`,
 * the local calendar date of a timestamp.
 */
module Forecast {
  import opened Wrappers
  import opened JsonValues
  import opened Text

  /** One entry of `forecast['list']`, with its timestamp. */
  datatype Item = Item(dt: real, raw: Json)

  /** `item['dt']` as `fromtimestamp` accepts it. */
  function DtOf(x: Json): (r: Option<real>)
    ensures r.Some? ==> Field(x, "dt").Some? && Number(Field(x, "dt").value) == r
  {
    match Field(x, "dt")
    case None => None
    case Some(v) => Number(v)
  }

  /** The items with their timestamps; None where some entry has no usable `dt`. */
  function DecodeItems(xs: seq<Json>): (r: Option<seq<Item>>)
    ensures r.Some? <==> forall i | 0 <= i < |xs| :: DtOf(xs[i]).Some?
    ensures r.Some? ==> |r.value| == |xs| && forall i | 0 <= i < |xs| :: r.value[i] == Item(DtOf(xs[i]).value, xs[i])
  {
    if xs == [] then Some([])
    else
      var x := xs[|xs| - 1];
      assert forall i | 0 <= i < |xs| - 1 :: xs[..|xs| - 1][i] == xs[i];
      match DecodeItems(xs[..|xs| - 1])
      case None => None
      case Some(prefix) =>
        match DtOf(x)
        case None => None
        case Some(t) => Some(prefix + [Item(t, x)])
  }

  /**
   * `for item in forecast_data['list']`: a list is walked item by item; an
   * empty dict or string yields nothing; anything else raises (a non-empty
   * dict or string yields keys or characters, whose `['dt']` raises).
   */
  function DecodeForecast(payload: Json): (r: Option<seq<Item>>)
    ensures Field(payload, "list").None? ==> r.None?
    ensures Field(payload, "list").Some? && Field(payload, "list").value.JList? ==>
              r == DecodeItems(Field(payload, "list").value.items)
    ensures (Field(payload, "list") == Some(JObj(map[])) || Field(payload, "list") == Some(JStr(""))) ==> r == Some([])
    ensures r.Some? ==> Field(payload, "list").value.JList? || r == Some([])
  {
    match Field(payload, "list")
    case None => None
    case Some(v) =>
      match v
      case JList(xs) => DecodeItems(xs)
      case JObj(fs) => if fs == map[] then Some([]) else None
      case JStr(s) => if s == "" then Some([]) else None
      case _ => None
  }

  /** The items dated `d`, in input order: the bucket `days[d]` and the day-details selection alike. */
  function ItemsOn(items: seq<Item>, dateOf: real -> string, d: string): (r: seq<Item>)
    ensures |r| <= |items|
    ensures forall x | x in r :: dateOf(x.dt) == d
    ensures forall i | 0 <= i < |items| && dateOf(items[i].dt) == d :: items[i] in r
    ensures r == [] <==> forall i | 0 <= i < |items| :: dateOf(items[i].dt) != d
  {
    if items == [] then []
    else
      var x := items[|items| - 1];
      var prefix := ItemsOn(items[..|items| - 1], dateOf, d);
      assert forall i | 0 <= i < |items| - 1 :: items[..|items| - 1][i] == items[i];
      if dateOf(x.dt) == d then prefix + [x] else prefix
  }

  /** Selection distributes over concatenation: the items of `a` dated `d` come before those of `b`. */
  lemma {:induction false} ItemsOnAppend(a: seq<Item>, b: seq<Item>, dateOf: real -> string, d: string)
    ensures ItemsOn(a + b, dateOf, d) == ItemsOn(a, dateOf, d) + ItemsOn(b, dateOf, d)
    decreases |b|
  {
    if b == [] {
      assert a + b == a;
    } else {
      var init := b[..|b| - 1];
      var x := b[|b| - 1];
      assert (a + b)[..|a + b| - 1] == a + init;
      ItemsOnAppend(a, init, dateOf, d);
    }
  }

  /** A single item is kept exactly when it is dated `d`. */
  lemma ItemsOnSingle(x: Item, dateOf: real -> string, d: string)
    ensures ItemsOn([x], dateOf, d) == if dateOf(x.dt) == d then [x] else []
  {
    assert [x][..0] == [];
  }

  /** The index of the first item dated `d`, or the number of items when there is none. */
  function FirstDated(items: seq<Item>, dateOf: real -> string, d: string): (k: nat)
    ensures k <= |items|
    ensures forall i | 0 <= i < k :: dateOf(items[i].dt) != d
    ensures k < |items| ==> dateOf(items[k].dt) == d
  {
    if items == [] then 0
    else if dateOf(items[0].dt) == d then 0
    else 1 + FirstDated(items[1..], dateOf, d)
  }

  /** The dates of the items, each once, in order of first appearance: the key order of `days`. */
  function Days(items: seq<Item>, dateOf: real -> string): (ds: seq<string>)
    ensures forall d :: d in ds <==> ItemsOn(items, dateOf, d) != []
    ensures forall i, j | 0 <= i < j < |ds| :: ds[i] != ds[j]
  {
    if items == [] then []
    else
      var x := items[|items| - 1];
      var prefix := Days(items[..|items| - 1], dateOf);
      if dateOf(x.dt) in prefix then prefix else prefix + [dateOf(x.dt)]
  }

  /** The first item of a date met earlier stays where it was when an item is appended. */
  lemma FirstDatedSnoc(init: seq<Item>, x: Item, dateOf: real -> string, d: string)
    ensures FirstDated(init + [x], dateOf, d)
            == if FirstDated(init, dateOf, d) < |init| then FirstDated(init, dateOf, d)
               else if dateOf(x.dt) == d then |init| else |init| + 1
  {
    var items := init + [x];
    assert forall i | 0 <= i < |init| :: items[i] == init[i];
    assert items[|init|] == x;
  }

  /** A date with no items has its first item past the end. */
  lemma NoFirstDated(items: seq<Item>, dateOf: real -> string, d: string)
    requires forall i | 0 <= i < |items| :: dateOf(items[i].dt) != d
    ensures FirstDated(items, dateOf, d) == |items|
  {
  }

  /** Days lists every date in the order in which its first item appears. */
  lemma {:induction false} DaysInFirstAppearanceOrder(items: seq<Item>, dateOf: real -> string)
    ensures forall i | 0 <= i < |Days(items, dateOf)| :: FirstDated(items, dateOf, Days(items, dateOf)[i]) < |items|
    ensures forall i, j | 0 <= i < j < |Days(items, dateOf)| ::
              FirstDated(items, dateOf, Days(items, dateOf)[i]) < FirstDated(items, dateOf, Days(items, dateOf)[j])
  {
    if items != [] {
      var init := items[..|items| - 1];
      var x := items[|items| - 1];
      assert init + [x] == items;
      DaysInFirstAppearanceOrder(init, dateOf);
      var ds0 := Days(init, dateOf);
      var ds := Days(items, dateOf);
      forall i | 0 <= i < |ds0|
        ensures FirstDated(items, dateOf, ds0[i]) == FirstDated(init, dateOf, ds0[i]) < |init|
      {
        FirstDatedSnoc(init, x, dateOf, ds0[i]);
      }
      var d := dateOf(x.dt);
      if d in ds0 {
        assert ds == ds0;
      } else {
        assert ds == ds0 + [d];
        NoFirstDated(init, dateOf, d);
        FirstDatedSnoc(init, x, dateOf, d);
        assert FirstDated(items, dateOf, d) == |init|;
      }
    }
  }

  /**
   * The bucketing loop of show_forecast_menu: `days` holds, for every date
   * met, the items of that date in input order; its keys keep the order in
   * which dates were first met.
   */
  method GroupByDay(items: seq<Item>, dateOf: real -> string) returns (order: seq<string>, days: map<string, seq<Item>>)
    ensures order == Days(items, dateOf)
    ensures forall d :: d in days <==> d in order
    ensures forall d | d in days :: days[d] == ItemsOn(items, dateOf, d)
  {
    order := [];
    days := map[];
    for i := 0 to |items|
      invariant order == Days(items[..i], dateOf)
      invariant forall d :: d in days <==> d in order
      invariant forall d | d in days :: days[d] == ItemsOn(items[..i], dateOf, d)
    {
      assert items[..i + 1][..i] == items[..i];
      var date := dateOf(items[i].dt);
      if date !in days {
        days := days[date := []];
        order := order + [date];
      }
      days := days[date := days[date] + [items[i]]];
    }
    assert items[..|items|] == items;
  }

  /** The total size of the buckets of `ds`. */
  function BucketTotal(ds: seq<string>, items: seq<Item>, dateOf: real -> string): nat {
    if ds == [] then 0 else BucketTotal(ds[..|ds| - 1], items, dateOf) + |ItemsOn(items, dateOf, ds[|ds| - 1])|
  }

  /** One more item adds one to the total exactly when its date is among `ds`. */
  lemma {:induction false} BucketTotalExtend(ds: seq<string>, items: seq<Item>, x: Item, dateOf: real -> string)
    requires forall i, j | 0 <= i < j < |ds| :: ds[i] != ds[j]
    ensures BucketTotal(ds, items + [x], dateOf) == BucketTotal(ds, items, dateOf) + (if dateOf(x.dt) in ds then 1 else 0)
  {
    if ds != [] {
      var init := ds[..|ds| - 1];
      BucketTotalExtend(init, items, x, dateOf);
      assert (items + [x])[..|items|] == items;
      assert dateOf(x.dt) in ds <==> dateOf(x.dt) in init || dateOf(x.dt) == ds[|ds| - 1];
      assert ds[|ds| - 1] !in init;
    }
  }

  /** Every item lies in exactly one bucket: the bucket sizes add up to the number of items. */
  lemma {:induction false} BucketsPartitionItems(items: seq<Item>, dateOf: real -> string)
    ensures BucketTotal(Days(items, dateOf), items, dateOf) == |items|
  {
    if items != [] {
      var init := items[..|items| - 1];
      var x := items[|items| - 1];
      assert init + [x] == items;
      BucketsPartitionItems(init, dateOf);
      var ds := Days(init, dateOf);
      BucketTotalExtend(ds, init, x, dateOf);
      if dateOf(x.dt) !in ds {
        assert ItemsOn(init, dateOf, dateOf(x.dt)) == [];
        assert ItemsOn(items, dateOf, dateOf(x.dt)) == [x];
      }
    }
  }

  /** The first `n` elements, or all of them when there are fewer: `xs[:n]`. */
  function Take<T>(xs: seq<T>, n: nat): (r: seq<T>)
    ensures |r| == Min(n, |xs|) && r == xs[..|r|]
    ensures |xs| <= n ==> r == xs
  {
    if |xs| <= n then xs else xs[..n]
  }

  /** The dates that get a button: the first five days, each at most once. */
  function DayButtons(items: seq<Item>, dateOf: real -> string): (b: seq<string>)
    ensures |b| <= 5
    ensures forall i, j | 0 <= i < j < |b| :: b[i] != b[j]
    ensures forall d | d in b :: ItemsOn(items, dateOf, d) != []
    ensures b == Days(items, dateOf)[..Min(5, |Days(items, dateOf)|)]
    ensures |Days(items, dateOf)| <= 5 ==> b == Days(items, dateOf)
  {
    Take(Days(items, dateOf), 5)
  }

  /** `item['main']['temp']` as `sum()` accepts it. */
  function TempOf(x: Json): Option<real> {
    match At(x, [Key("main"), Key("temp")])
    case None => None
    case Some(v) => Number(v)
  }

  /** The average temperature of each button's day is computed; a missing or non-numeric temperature raises. */
  predicate MenuShowable(items: seq<Item>, dateOf: real -> string) {
    forall i | 0 <= i < |items| :: dateOf(items[i].dt) in DayButtons(items, dateOf) ==> TempOf(items[i].raw).Some?
  }

  /** What show_day_details answers for the date `d`. */
  datatype DayView =
    | NoData                  // "data not found": nothing is edited
    | Shown(items: seq<Item>) // the day's items, at most eight
    | DetailRaises            // a shown item lacks the temperature or the description

  /** One line of the day view reads the temperature and the first weather description. */
  predicate DetailLine(x: Item) {
    At(x.raw, [Key("main"), Key("temp")]).Some? && At(x.raw, [Key("weather"), Index(0), Key("description")]).Some?
  }

  function DayDetails(items: seq<Item>, dateOf: real -> string, d: string): (v: DayView)
    ensures v.NoData? <==> forall i | 0 <= i < |items| :: dateOf(items[i].dt) != d
    ensures v.Shown? ==> |v.items| == Min(8, |ItemsOn(items, dateOf, d)|)
    ensures v.Shown? ==> v.items == ItemsOn(items, dateOf, d)[..|v.items|]
    ensures v.Shown? ==> forall x | x in v.items :: dateOf(x.dt) == d && DetailLine(x)
    ensures v.DetailRaises? <==> ItemsOn(items, dateOf, d) != []
                                 && exists x | x in Take(ItemsOn(items, dateOf, d), 8) :: !DetailLine(x)
  {
    var selected := ItemsOn(items, dateOf, d);
    if selected == [] then NoData
    else
      var shown := Take(selected, 8);
      if forall x | x in shown :: DetailLine(x) then Shown(shown) else DetailRaises
  }

  function Min(a: nat, b: nat): nat {
    if a < b then a else b
  }

  /** The callback data of a day button. */
  function DayTag(d: string): string {
    "day_" + d
  }

  /** show_day_details reads its date back with `call.data.replace('day_', '')`. */
  function DateOfTag(data: string): string {
    RemoveAll(data, "day_")
  }

  /** A date written by strftime('%Y-%m-%d') holds no '_', so the tag gives back exactly the button's date. */
  lemma DayTagRoundTrip(d: string)
    requires '_' !in d
    ensures DateOfTag(DayTag(d)) == d
  {
    var s := DayTag(d);
    assert s[..4] == "day_" && s[4..] == d;
    RemoveAllAbsent(d, "day_", '_');
  }
}
