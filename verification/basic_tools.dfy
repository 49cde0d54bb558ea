/** The deterministic part of the example travel tools: the fixed lookup tables
    of `calculate_budget`, `convert_currency`, `estimate_travel_time`,
    `get_season_info` and its two helpers, and the fallbacks each one takes for a
    key it does not know.  Money and hours are exact reals; the `round()` calls
    and the hour/minute text of the travel estimate are outside the model.
 */
module BasicTools {
  import opened Common
  import opened Strings

  // ---------------------------------------------------------------------------
  // Dict literals read only by key are maps; `table.get(key, default)`
  // ---------------------------------------------------------------------------

  function Get<K, V>(table: map<K, V>, key: K, default: V): V {
    if key in table then table[key] else default
  }

  // ---------------------------------------------------------------------------
  // get_season_info
  // ---------------------------------------------------------------------------

  const Spring := "春季"
  const Summer := "夏季"
  const Autumn := "秋季"
  const Winter := "冬季"

  /** The season name a truthy month selects: 3-5 spring, 6-8 summer, 9-11
      autumn, and every other month, in range or not, winter. */
  function SeasonOfMonth(month: int): (s: string)
    ensures s == Spring <==> 3 <= month <= 5
    ensures s == Summer <==> 6 <= month <= 8
    ensures s == Autumn <==> 9 <= month <= 11
    ensures s == Winter <==> month < 3 || 11 < month
  {
    if 3 <= month <= 5 then Spring
    else if 6 <= month <= 8 then Summer
    else if 9 <= month <= 11 then Autumn
    else Winter
  }

  /** Season label to description, per destination, in source order. */
  type SeasonTable = seq<(string, string)>

  const TokyoSeasons: SeasonTable := [
    ("春季 (3-5月)", "樱花盛开，气候宜人，最佳旅游季节"),
    ("夏季 (6-8月)", "炎热潮湿，有花火大会，适合室内活动"),
    ("秋季 (9-11月)", "枫叶季节，天气凉爽，适合户外活动"),
    ("冬季 (12-2月)", "寒冷干燥，可滑雪，适合温泉旅行")
  ]

  const ParisSeasons: SeasonTable := [
    ("春季 (3-5月)", "气候温和，鲜花盛开，游客较少"),
    ("夏季 (6-8月)", "旅游旺季，天气温暖，适合户外咖啡"),
    ("秋季 (9-11月)", "天气凉爽，树叶变色，浪漫季节"),
    ("冬季 (12-2月)", "寒冷但节日气氛浓厚，圣诞市场")
  ]

  /** Bangkok's three tropical seasons: cool, hot and rainy. */
  const BangkokSeasons: SeasonTable := [
    ("凉季 (11-2月)", "最佳旅游季节，气候凉爽干燥"),
    ("热季 (3-5月)", "非常炎热，注意防暑"),
    ("雨季 (6-10月)", "经常下雨，但物价较低")
  ]

  /** Sydney's seasons, labelled for the southern hemisphere. */
  const SydneySeasons: SeasonTable := [
    ("夏季 (12-2月)", "海滩季节，适合水上活动"),
    ("秋季 (3-5月)", "天气温和，适合户外活动"),
    ("冬季 (6-8月)", "凉爽但阳光充足，适合城市游览"),
    ("春季 (9-11月)", "野花盛开，气候宜人")
  ]

  const SeasonsData: map<string, SeasonTable> := map[
    "东京" := TokyoSeasons, "巴黎" := ParisSeasons, "曼谷" := BangkokSeasons, "悉尼" := SydneySeasons
  ]

  const DefaultSeasons: SeasonTable := [
    ("春季 (3-5月)", "气候温和，适合旅行"),
    ("夏季 (6-8月)", "旅游旺季，天气温暖"),
    ("秋季 (9-11月)", "天气凉爽，风景优美"),
    ("冬季 (12-2月)", "寒冷季节，可能有雪")
  ]

  /** `seasons_data.get(destination, default_seasons)`: the destination's own four
      seasons when it is tabled, the northern-hemisphere defaults otherwise. */
  function DestinationSeasons(destination: string): (t: SeasonTable)
    ensures destination in SeasonsData ==> t == SeasonsData[destination]
    ensures destination !in SeasonsData ==> t == DefaultSeasons
  {
    Get(SeasonsData, destination, DefaultSeasons)
  }

  const ActivitiesData: map<string, map<string, string>> := map[
    "东京" := map[
      "春季" := "赏樱花、逛公园、日式庭院游览",
      "夏季" := "花火大会、神社祭典、室内购物",
      "秋季" := "赏红叶、登山、温泉旅行",
      "冬季" := "滑雪、温泉、圣诞灯光秀"],
    "巴黎" := map[
      "春季" := "公园野餐、博物馆参观、塞纳河漫步",
      "夏季" := "户外咖啡、音乐节、巴黎海滩",
      "秋季" := "葡萄园游览、艺术展览、美食节",
      "冬季" := "圣诞市场、滑冰场、室内音乐会"]
  ]

  const DefaultActivities := "城市观光、美食体验、文化探索"

  /** `_get_recommended_activities`: the destination's activities for the season
      when both are tabled; an unknown destination has an empty table, and every
      untabled pair gets the generic list. */
  function RecommendedActivities(destination: string, season: string): (a: string)
    ensures destination in ActivitiesData && season in ActivitiesData[destination] ==>
              a == ActivitiesData[destination][season]
    ensures !(destination in ActivitiesData && season in ActivitiesData[destination]) ==>
              a == DefaultActivities
  {
    Get(Get(ActivitiesData, destination, map[]), season, DefaultActivities)
  }

  const BestTimes: map<string, string> := map[
    "东京" := "春季（3-5月）和秋季（9-11月）",
    "巴黎" := "春季（4-6月）和秋季（9-10月）",
    "曼谷" := "凉季（11-2月）",
    "悉尼" := "春季（9-11月）和秋季（3-5月）"
  ]

  const DefaultBestTime := "春季和秋季"

  /** `_get_best_time_to_visit`: the tabled advice for a known destination, the
      generic spring-and-autumn advice otherwise. */
  function BestTimeToVisit(destination: string): (b: string)
    ensures destination in BestTimes ==> b == BestTimes[destination]
    ensures destination !in BestTimes ==> b == DefaultBestTime
  {
    Get(BestTimes, destination, DefaultBestTime)
  }

  /** The index of the first season label containing `season` (the loop over
      `destination_seasons.items()`), if any. */
  function FirstKeyContaining(table: SeasonTable, season: string): (r: Option<nat>)
    ensures r.Some? ==> r.value < |table| && Contains(table[r.value].0, season)
    ensures r.Some? ==> forall j :: 0 <= j < r.value ==> !Contains(table[j].0, season)
    ensures r.None? ==> forall j :: 0 <= j < |table| ==> !Contains(table[j].0, season)
  {
    if table == [] then None
    else if Contains(table[0].0, season) then Some(0)
    else
      match FirstKeyContaining(table[1..], season)
      case None => None
      case Some(i) => Some(i + 1)
  }

  /** The two shapes of `get_season_info`'s answer. */
  datatype SeasonInfo =
    | MonthReport(destination: string, monthLabel: string, seasonKey: string, description: string, activities: string)
    | AllSeasons(destination: string, seasons: SeasonTable, bestTime: string)

  /** `if month:` on an `Optional[int]`: `None` and `0` are false. */
  predicate MonthGiven(month: Option<int>) {
    month.Some? && month.value != 0
  }

  /** `get_season_info(destination, month)`. */
  function SeasonInfoFor(destination: string, month: Option<int>): (r: SeasonInfo)
    ensures r.destination == destination
    ensures r.AllSeasons? ==> r.seasons == DestinationSeasons(destination) && r.bestTime == BestTimeToVisit(destination)
    ensures !MonthGiven(month) ==> r.AllSeasons?
  {
    var table := DestinationSeasons(destination);
    if MonthGiven(month) then
      var season := SeasonOfMonth(month.value);
      match FirstKeyContaining(table, season)
      case Some(i) =>
        MonthReport(destination, IntToDecimal(month.value) + "月", table[i].0, table[i].1,
                    RecommendedActivities(destination, season))
      case None =>
        AllSeasons(destination, table, BestTimeToVisit(destination))
    else
      AllSeasons(destination, table, BestTimeToVisit(destination))
  }

  /** A given month is answered with the first label, in table order, that
      contains the month's season name, together with that season's activities;
      only when no label contains it does the answer fall back to all seasons. */
  lemma SeasonInfoForMonth(destination: string, month: Option<int>)
    requires MonthGiven(month)
    ensures var r := SeasonInfoFor(destination, month);
            var season := SeasonOfMonth(month.value);
            var table := DestinationSeasons(destination);
            && (r.MonthReport? <==> exists k :: 0 <= k < |table| && Contains(table[k].0, season))
            && (r.MonthReport? ==>
                  && r.monthLabel == IntToDecimal(month.value) + "月"
                  && r.activities == RecommendedActivities(destination, season)
                  && exists i :: 0 <= i < |table| && table[i] == (r.seasonKey, r.description)
                                 && Contains(table[i].0, season)
                                 && forall j :: 0 <= j < i ==> !Contains(table[j].0, season))
  {
    var season := SeasonOfMonth(month.value);
    var table := DestinationSeasons(destination);
    match FirstKeyContaining(table, season)
    case Some(i) =>
      MonthReportAt(destination, month, i);
      assert table[i] == (table[i].0, table[i].1);
    case None =>
  }

  /** The first containing label is at `i` when `i` contains the season and no
      earlier label does. */
  lemma {:induction false} FirstKeyAt(table: SeasonTable, season: string, i: nat)
    requires i < |table| && Contains(table[i].0, season)
    requires forall j :: 0 <= j < i ==> !Contains(table[j].0, season)
    ensures FirstKeyContaining(table, season) == Some(i)
  {
    if i > 0 {
      assert !Contains(table[0].0, season);
      FirstKeyAt(table[1..], season, i - 1);
    }
  }

  /** The first containing label is the third when only it, of the first three,
      contains the season. */
  lemma ThirdLabelFirst(table: SeasonTable, season: string)
    requires |table| >= 3 && Contains(table[2].0, season)
    requires !Contains(table[0].0, season) && !Contains(table[1].0, season)
    ensures FirstKeyContaining(table, season) == Some(2)
  {
    FirstKeyAt(table, season, 2);
  }

  /** No label contains the season: nothing is found. */
  lemma {:induction false} FirstKeyAbsent(table: SeasonTable, season: string)
    requires forall j :: 0 <= j < |table| ==> !Contains(table[j].0, season)
    ensures FirstKeyContaining(table, season) == None
  {
    if table != [] {
      assert !Contains(table[0].0, season);
      FirstKeyAbsent(table[1..], season);
    }
  }

  /** A string lacking the first character of `sub` does not contain `sub`. */
  lemma NotContainsWithoutFirst(s: string, sub: string)
    requires sub != [] && sub[0] !in s
    ensures !Contains(s, sub)
  {
    if Contains(s, sub) {
      ContainsHasChars(s, sub, 0);
    }
  }

  /** Every season name starts with one of 春, 夏, 秋 or 冬. */
  lemma SeasonInitial(month: int)
    ensures FourSeasonInitial(SeasonOfMonth(month))
  {
  }

  /** A four-season name is a non-empty string starting with 春, 夏, 秋 or 冬. */
  predicate FourSeasonInitial(season: string) {
    season != [] && (season[0] == '春' || season[0] == '夏' || season[0] == '秋' || season[0] == '冬')
  }

  /** Bangkok's season labels are 凉季, 热季 and 雨季: none contains a
      four-season name. */
  lemma BangkokLabelsLackSeasons(season: string)
    requires FourSeasonInitial(season)
    ensures forall j :: 0 <= j < |BangkokSeasons| ==> !Contains(BangkokSeasons[j].0, season)
  {
    NotContainsWithoutFirst(BangkokSeasons[0].0, season);
    NotContainsWithoutFirst(BangkokSeasons[1].0, season);
    NotContainsWithoutFirst(BangkokSeasons[2].0, season);
  }

  /** So even a given month yields Bangkok's all-seasons answer. */
  lemma BangkokIgnoresMonth(month: Option<int>)
    ensures SeasonInfoFor("曼谷", month) == AllSeasons("曼谷", BangkokSeasons, "凉季（11-2月）")
  {
    assert DestinationSeasons("曼谷") == BangkokSeasons;
    if MonthGiven(month) {
      var season := SeasonOfMonth(month.value);
      SeasonInitial(month.value);
      BangkokLabelsLackSeasons(season);
      FirstKeyAbsent(BangkokSeasons, season);
    }
  }

  /** A destination with no table of its own gets the generic seasons, the generic
      activities and the generic best time. */
  lemma UnknownDestinationFallbacks(destination: string, season: string)
    requires destination !in SeasonsData
    ensures DestinationSeasons(destination) == DefaultSeasons
    ensures RecommendedActivities(destination, season) == DefaultActivities
    ensures BestTimeToVisit(destination) == DefaultBestTime
  {
  }

  /** Tokyo in April: the spring entry and the spring activities. */
  lemma TokyoInApril()
    ensures SeasonInfoFor("东京", Some(4)) ==
              MonthReport("东京", "4月", "春季 (3-5月)", "樱花盛开，气候宜人，最佳旅游季节", "赏樱花、逛公园、日式庭院游览")
  {
    assert DestinationSeasons("东京") == TokyoSeasons;
    PrefixContained(TokyoSeasons[0].0, Spring);
    FirstKeyAt(TokyoSeasons, Spring, 0);
  }

  /** A given month whose season name first occurs in label `i` is answered with
      that label's entry. */
  lemma MonthReportAt(destination: string, month: Option<int>, i: nat)
    requires MonthGiven(month)
    requires FirstKeyContaining(DestinationSeasons(destination), SeasonOfMonth(month.value)) == Some(i)
    ensures i < |DestinationSeasons(destination)|
    ensures SeasonInfoFor(destination, month) ==
              MonthReport(destination, IntToDecimal(month.value) + "月", DestinationSeasons(destination)[i].0,
                          DestinationSeasons(destination)[i].1, RecommendedActivities(destination, SeasonOfMonth(month.value)))
  {
  }

  /** Sydney has its own season table and no activities table. */
  lemma SydneyTables()
    ensures DestinationSeasons("悉尼") == SydneySeasons && "悉尼" !in ActivitiesData
  {
  }

  /** The first Sydney label containing 冬季 is the third, "冬季 (6-8月)". */
  lemma SydneyWinterLabel()
    ensures FirstKeyContaining(SydneySeasons, Winter) == Some(2)
  {
    NotContainsWithoutFirst(SydneySeasons[0].0, Winter);
    NotContainsWithoutFirst(SydneySeasons[1].0, Winter);
    PrefixContained(SydneySeasons[2].0, Winter);
    ThirdLabelFirst(SydneySeasons, Winter);
  }

  /** Sydney's labels follow the southern seasons but the month is mapped with the
      northern ones, so a northern-winter month such as January is answered with
      Sydney's "冬季 (6-8月)" entry, after the summer and autumn labels fail to
      match, and with the generic activities. */
  lemma SydneyNorthernWinter(month: int)
    requires month != 0 && (month < 3 || 11 < month)
    ensures SeasonInfoFor("悉尼", Some(month)) ==
              MonthReport("悉尼", IntToDecimal(month) + "月", "冬季 (6-8月)", "凉爽但阳光充足，适合城市游览", DefaultActivities)
  {
    var season := SeasonOfMonth(month);
    assert season == Winter;
    SydneyWinterLabel();
    SydneyTables();
    MonthReportAt("悉尼", Some(month), 2);
  }

  // ---------------------------------------------------------------------------
  // estimate_travel_time
  // ---------------------------------------------------------------------------

  /** Kilometres between tabled city pairs, in one direction only. */
  const Distances: map<(string, string), int> := map[
    ("北京", "上海") := 1318,
    ("北京", "广州") := 2123,
    ("上海", "广州") := 1454,
    ("东京", "大阪") := 553,
    ("纽约", "洛杉矶") := 3945,
    ("伦敦", "巴黎") := 344,
    ("北京", "东京") := 2100,
    ("上海", "东京") := 1770
  ]

  /** The loop over `[key, reverse_key]`: the tabled distance between two places,
      tried in the given order and then reversed. */
  function TabledDistance(origin: string, destination: string): (d: Option<int>)
    ensures d.Some? <==> (origin, destination) in Distances || (destination, origin) in Distances
    ensures d.Some? ==> d.value > 0
    ensures (origin, destination) in Distances ==> d == Some(Distances[(origin, destination)])
  {
    if (origin, destination) in Distances then Some(Distances[(origin, destination)])
    else if (destination, origin) in Distances then Some(Distances[(destination, origin)])
    else None
  }

  /** No pair is tabled in both directions. */
  lemma NoReversedPairs(a: string, b: string)
    requires (a, b) in Distances
    ensures (b, a) !in Distances
  {
  }

  /** The tabled distance does not depend on the order of the two places. */
  lemma TabledDistanceSymmetric(a: string, b: string)
    ensures TabledDistance(a, b) == TabledDistance(b, a)
  {
    if (a, b) in Distances {
      NoReversedPairs(a, b);
    } else if (b, a) in Distances {
      NoReversedPairs(b, a);
    }
  }

  /** The distance used: the tabled one, else the `random.randint(500, 5000)`
      draw, which is passed in. */
  function Distance(origin: string, destination: string, draw: int): (d: int)
    requires 500 <= draw <= 5000
    ensures TabledDistance(origin, destination).Some? ==> d == TabledDistance(origin, destination).value
    ensures TabledDistance(origin, destination).None? ==> d == draw
    ensures d > 0
  {
    TabledDistance(origin, destination).GetOr(draw)
  }

  const Speeds: map<string, int> := map["飞机" := 800, "高铁" := 300, "汽车" := 80, "火车" := 120]
  const ExtraHours: map<string, real> := map["飞机" := 3.0, "高铁" := 1.0, "汽车" := 0.5, "火车" := 1.5]

  /** Average speed in km/h, 100 for a mode not in the table. */
  function Speed(mode: string): (v: int)
    ensures mode !in Speeds ==> v == 100
    ensures v > 0
  {
    Get(Speeds, mode, 100)
  }

  /** Hours added for check-in and waiting, 1.0 for a mode not in the table. */
  function ExtraTime(mode: string): (h: real)
    ensures mode !in ExtraHours ==> h == 1.0
    ensures h > 0.0
  {
    Get(ExtraHours, mode, 1.0)
  }

  datatype TravelEstimate = TravelEstimate(origin: string, destination: string, mode: string, distance: int, totalHours: real)

  /** `estimate_travel_time(origin, destination, mode)` with the random draw it
      would make for an untabled pair passed in. */
  function EstimateTravelTime(origin: string, destination: string, mode: string, draw: int): (e: TravelEstimate)
    requires 500 <= draw <= 5000
    ensures e.origin == origin && e.destination == destination && e.mode == mode
    ensures e.distance == Distance(origin, destination, draw)
    ensures (e.totalHours - ExtraTime(mode)) * Speed(mode) as real == e.distance as real
    ensures e.totalHours > ExtraTime(mode)
  {
    var d := Distance(origin, destination, draw);
    var v := Speed(mode);
    QuotientTimesDivisor(d as real, v as real);
    TravelEstimate(origin, destination, mode, d, d as real / v as real + ExtraTime(mode))
  }

  /** Dividing a positive distance by a positive speed gives a positive time which,
      multiplied back by the speed, is the distance. */
  lemma QuotientTimesDivisor(d: real, v: real)
    requires d > 0.0 && v > 0.0
    ensures (d / v) * v == d && d / v > 0.0
  {
  }

  /** Swapping the two places of a tabled pair gives the same estimate. */
  lemma EstimateSymmetric(a: string, b: string, mode: string, draw: int)
    requires 500 <= draw <= 5000
    ensures EstimateTravelTime(a, b, mode, draw).distance == EstimateTravelTime(b, a, mode, draw).distance
    ensures EstimateTravelTime(a, b, mode, draw).totalHours == EstimateTravelTime(b, a, mode, draw).totalHours
  {
    TabledDistanceSymmetric(a, b);
  }

  // ---------------------------------------------------------------------------
  // convert_currency
  // ---------------------------------------------------------------------------

  const ExchangeRates: map<string, map<string, real>> := map[
    "USD" := map["CNY" := 7.2, "JPY" := 150.0, "EUR" := 0.92, "GBP" := 0.79],
    "CNY" := map["USD" := 0.14, "JPY" := 21.0, "EUR" := 0.13, "GBP" := 0.11],
    "JPY" := map["USD" := 0.0067, "CNY" := 0.048, "EUR" := 0.0061, "GBP" := 0.0052],
    "EUR" := map["USD" := 1.09, "CNY" := 7.85, "JPY" := 163.0, "GBP" := 0.86],
    "GBP" := map["USD" := 1.27, "CNY" := 9.15, "JPY" := 190.0, "EUR" := 1.16]
  ]

  const DefaultRateNote := "使用默认汇率，实际请查询最新汇率"

  /** The tabled rate from one upper-case code to another, if both are tabled. */
  function TabledRate(fromCode: string, toCode: string): (r: Option<real>)
    ensures r.Some? <==> fromCode in ExchangeRates && toCode in ExchangeRates[fromCode]
    ensures r.Some? ==> r.value == ExchangeRates[fromCode][toCode] && r.value > 0.0
  {
    if fromCode in ExchangeRates && toCode in ExchangeRates[fromCode] then
      Some(ExchangeRates[fromCode][toCode])
    else
      None
  }

  /** No currency is tabled against itself. */
  lemma NoSelfRate(code: string)
    ensures TabledRate(code, code).None?
  {
  }

  datatype Conversion = Conversion(amount: real, fromCode: string, toCode: string, rate: real, converted: real, note: Option<string>)

  /** `convert_currency(amount, from_currency, to_currency)`: the codes are
      upper-cased before the lookup and returned upper-cased; a tabled pair
      multiplies by its rate, any other pair keeps the amount at rate 1.0 and adds
      a note. */
  function ConvertCurrency(amount: real, fromCurrency: string, toCurrency: string): (c: Conversion)
    ensures c.amount == amount
    ensures c.fromCode == Upper(fromCurrency) && c.toCode == Upper(toCurrency)
    ensures c.note.None? <==> TabledRate(c.fromCode, c.toCode).Some?
    ensures c.note.None? ==> c.rate == TabledRate(c.fromCode, c.toCode).value && c.converted == amount * c.rate
    ensures c.note.Some? ==> c.rate == 1.0 && c.converted == amount && c.note == Some(DefaultRateNote)
  {
    var f := Upper(fromCurrency);
    var t := Upper(toCurrency);
    match TabledRate(f, t)
    case Some(rate) => Conversion(amount, f, t, rate, amount * rate, None)
    case None => Conversion(amount, f, t, 1.0, amount, Some(DefaultRateNote))
  }

  /** Only the letters' case of the codes is irrelevant: converting with the codes
      already upper-cased gives the same answer. */
  lemma ConvertCaseInsensitive(amount: real, fromCurrency: string, toCurrency: string)
    ensures ConvertCurrency(amount, fromCurrency, toCurrency) ==
              ConvertCurrency(amount, Upper(fromCurrency), Upper(toCurrency))
  {
    UpperIdempotent(fromCurrency);
    UpperIdempotent(toCurrency);
  }

  /** Converting a currency to itself is not tabled, so it takes the fallback. */
  lemma SameCurrencyFallback(amount: real, code: string)
    ensures ConvertCurrency(amount, code, code) ==
              Conversion(amount, Upper(code), Upper(code), 1.0, amount, Some(DefaultRateNote))
  {
    NoSelfRate(Upper(code));
  }

  /** 1000 USD at the tabled 7.2 is 7200 CNY, whatever the case of the codes. */
  lemma UsdToCny()
    ensures ConvertCurrency(1000.0, "usd", "Cny").converted == 7200.0
  {
    assert Upper("usd") == "USD";
    assert Upper("Cny") == "CNY";
  }

  // ---------------------------------------------------------------------------
  // calculate_budget
  // ---------------------------------------------------------------------------

  /** US dollars per person per day. */
  const BasePrices: map<string, int> := map[
    "东京" := 150, "巴黎" := 200, "纽约" := 250, "曼谷" := 80,
    "巴厘岛" := 100, "悉尼" := 180, "伦敦" := 220, "新加坡" := 160
  ]

  const LevelMultipliers: map<string, real> := map["经济" := 0.7, "中等" := 1.0, "豪华" := 1.8]

  /** The budget categories, in source order, and the share of the total each
      receives. */
  const Allocation: seq<(string, real)> := [
    ("住宿", 0.35), ("餐饮", 0.25), ("交通", 0.20), ("景点门票", 0.15), ("购物其他", 0.05)
  ]

  /** Base daily price, 120 for a destination not in the table. */
  function BasePrice(destination: string): (p: int)
    ensures destination !in BasePrices ==> p == 120
    ensures p > 0
  {
    Get(BasePrices, destination, 120)
  }

  /** Price multiplier of a budget level, 1.0 for a level not in the table. */
  function LevelMultiplier(level: string): (m: real)
    ensures level !in LevelMultipliers ==> m == 1.0
    ensures m > 0.0
  {
    Get(LevelMultipliers, level, 1.0)
  }

  function SumAmounts(entries: seq<(string, real)>): real {
    if entries == [] then 0.0 else entries[0].1 + SumAmounts(entries[1..])
  }

  /** The allocation shares add up to the whole. */
  lemma AllocationSumsToOne()
    ensures SumAmounts(Allocation) == 1.0
  {
  }

  /** Each category's share of `total`, in allocation order. */
  function Breakdown(alloc: seq<(string, real)>, total: real): (b: seq<(string, real)>)
    ensures |b| == |alloc|
  {
    if alloc == [] then [] else [(alloc[0].0, total * alloc[0].1)] + Breakdown(alloc[1..], total)
  }

  /** Entry `i` of the breakdown is category `i` with its share of the total. */
  lemma {:induction false} BreakdownShares(alloc: seq<(string, real)>, total: real)
    ensures forall i :: 0 <= i < |alloc| ==>
              Breakdown(alloc, total)[i].0 == alloc[i].0 && Breakdown(alloc, total)[i].1 == total * alloc[i].1
  {
    if alloc != [] {
      BreakdownShares(alloc[1..], total);
      var b := Breakdown(alloc, total);
      var rest := Breakdown(alloc[1..], total);
      forall i | 0 <= i < |alloc| ensures b[i].0 == alloc[i].0 && b[i].1 == total * alloc[i].1 {
        if i > 0 {
          assert b[i] == rest[i - 1];
          assert alloc[1..][i - 1] == alloc[i];
        }
      }
    }
  }

  /** Splitting a total by shares distributes the sum of the shares over it. */
  lemma {:induction false} BreakdownSum(alloc: seq<(string, real)>, total: real)
    ensures SumAmounts(Breakdown(alloc, total)) == total * SumAmounts(alloc)
  {
    if alloc != [] {
      BreakdownSum(alloc[1..], total);
      var b := Breakdown(alloc, total);
      var rest := Breakdown(alloc[1..], total);
      assert b == [(alloc[0].0, total * alloc[0].1)] + rest;
      assert b[1..] == rest;
    }
  }

  datatype BudgetFigures = BudgetFigures(perPersonPerDay: real, total: real, breakdown: seq<(string, real)>)

  /** The figures of `calculate_budget(days, destination, travelers, budget_level)`
      before rounding. */
  function CalculateBudget(days: real, destination: string, travelers: real, level: string): (b: BudgetFigures)
    ensures b.perPersonPerDay == BasePrice(destination) as real * LevelMultiplier(level)
    ensures b.total == b.perPersonPerDay * days * travelers
    ensures |b.breakdown| == |Allocation|
  {
    var daily := BasePrice(destination) as real * LevelMultiplier(level);
    var total := daily * days * travelers;
    BudgetFigures(daily, total, Breakdown(Allocation, total))
  }

  /** The itemised budget lists every allocation category, in order, with its
      share of the total. */
  lemma BudgetItems(days: real, destination: string, travelers: real, level: string)
    ensures var b := CalculateBudget(days, destination, travelers, level);
            forall i :: 0 <= i < |Allocation| ==>
              b.breakdown[i].0 == Allocation[i].0 && b.breakdown[i].1 == b.total * Allocation[i].1
  {
    var b := CalculateBudget(days, destination, travelers, level);
    BreakdownShares(Allocation, b.total);
  }

  /** The itemised budget adds up to the total. */
  lemma BudgetBreakdownSumsToTotal(days: real, destination: string, travelers: real, level: string)
    ensures var b := CalculateBudget(days, destination, travelers, level);
            SumAmounts(b.breakdown) == b.total
  {
    var b := CalculateBudget(days, destination, travelers, level);
    BreakdownSum(Allocation, b.total);
    AllocationSumsToOne();
  }

  /** An unknown destination and level price at 120 a day. */
  lemma UnknownBudgetDefaults(days: real, destination: string, travelers: real, level: string)
    requires destination !in BasePrices && level !in LevelMultipliers
    ensures CalculateBudget(days, destination, travelers, level).total == 120.0 * days * travelers
  {
  }
}
