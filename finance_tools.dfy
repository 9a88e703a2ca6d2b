/**
 * The response-shaping logic of `FinanceResearchTool`: what each tool does with the
 * provider's parsed JSON once the HTTP call has returned. Every Python exception the
 * code raises (or lets escape) is a `Failure` carrying a `ToolError`.
 */
module FinanceTools {
  import opened Wrappers
  import opened JsonValues
  import opened PyText
  import opened Dates

  datatype ToolError =
    | ApiError(detail: Json)                 // the provider sent an "Error Message" entry
    | NoSymbolFound(companyName: string)     // "bestMatches" absent or empty
    | NoTimeSeries(symbol: string)           // "Time Series (Daily)" absent
    | NoPricesInRange(symbol: string, startDate: string, endDate: string)
    | NoArticles(query: string)              // the news search returned no article
    | Malformed                              // a KeyError, TypeError, AttributeError or strptime ValueError

  const ErrorKey := "Error Message"

  // ---------------------------------------------------------------------------------------------
  // search_for_stock_symbol

  /** Output key and the key of the first match it is copied from. */
  const SymbolFields: seq<(string, string)> :=
    [("symbol", "1. symbol"), ("name", "2. name"), ("type", "3. type"),
     ("region", "4. region"), ("currency", "8. currency")]

  /** `data["bestMatches"][0]` when that is a JSON object; None where indexing or keying it would raise. */
  function FirstMatch(data: map<string, Json>): Option<map<string, Json>>
  {
    if "bestMatches" in data && data["bestMatches"].JArray? && |data["bestMatches"].items| > 0
       && data["bestMatches"].items[0].JObject?
    then Some(data["bestMatches"].items[0].fields)
    else None
  }

  /** The first match exists and carries every field the projection reads. */
  predicate MatchReadable(data: map<string, Json>)
  {
    FirstMatch(data).Some? && forall f <- SymbolFields :: f.1 in FirstMatch(data).value
  }

  function SearchForStockSymbol(companyName: string, data: map<string, Json>): (r: Result<map<string, Json>, ToolError>)
    ensures ErrorKey in data ==> r == Failure(ApiError(data[ErrorKey]))
    ensures ErrorKey !in data && ("bestMatches" !in data || !Truthy(data["bestMatches"]))
            ==> r == Failure(NoSymbolFound(companyName))
    ensures r.Success? <==> ErrorKey !in data && MatchReadable(data)
    ensures r == Failure(Malformed) <==>
              ErrorKey !in data && "bestMatches" in data && Truthy(data["bestMatches"]) && !MatchReadable(data)
    ensures r.Success? ==>
              r.value.Keys == (set f <- SymbolFields :: f.0)
              && forall f <- SymbolFields :: r.value[f.0] == FirstMatch(data).value[f.1]
  {
    if ErrorKey in data then Failure(ApiError(data[ErrorKey]))
    else if "bestMatches" !in data || !Truthy(data["bestMatches"]) then Failure(NoSymbolFound(companyName))
    else if !MatchReadable(data) then Failure(Malformed)
    else
      var m := FirstMatch(data).value;
      assert SymbolFields[0] in SymbolFields && SymbolFields[1] in SymbolFields && SymbolFields[2] in SymbolFields
          && SymbolFields[3] in SymbolFields && SymbolFields[4] in SymbolFields;
      Success(map["symbol" := m["1. symbol"], "name" := m["2. name"], "type" := m["3. type"],
                  "region" := m["4. region"], "currency" := m["8. currency"]])
  }

  /** Only the first match matters: whatever follows it in "bestMatches" leaves the result alone. */
  lemma SearchUsesFirstMatchOnly(companyName: string, data: map<string, Json>, first: Json, rest: seq<Json>)
    ensures SearchForStockSymbol(companyName, data["bestMatches" := JArray([first] + rest)])
         == SearchForStockSymbol(companyName, data["bestMatches" := JArray([first])])
  {
    var d1, d2 := data["bestMatches" := JArray([first] + rest)], data["bestMatches" := JArray([first])];
    assert FirstMatch(d1) == FirstMatch(d2);
    var r1, r2 := SearchForStockSymbol(companyName, d1), SearchForStockSymbol(companyName, d2);
    if r1.Success? {
      assert r1.value.Keys == r2.value.Keys;
      assert forall k <- r1.value.Keys :: r1.value[k] == r2.value[k];
    }
  }

  /** The Apple reply of the tool's unit test projects to its five expected fields. */
  lemma SearchAppleExample()
    ensures
      var first := map["1. symbol" := JString("AAPL"), "2. name" := JString("Apple Inc."),
                       "3. type" := JString("Equity"), "4. region" := JString("United States"),
                       "5. marketOpen" := JString("09:30"), "6. marketClose" := JString("16:00"),
                       "7. timezone" := JString("UTC-05"), "8. currency" := JString("USD"), "9. matchScore" := JString("1.0000")];
      SearchForStockSymbol("Apple", map["bestMatches" := JArray([JObject(first)])])
        == Success(map["symbol" := JString("AAPL"), "name" := JString("Apple Inc."), "type" := JString("Equity"),
                       "region" := JString("United States"), "currency" := JString("USD")])
  {
    var first := map["1. symbol" := JString("AAPL"), "2. name" := JString("Apple Inc."),
                     "3. type" := JString("Equity"), "4. region" := JString("United States"),
                     "5. marketOpen" := JString("09:30"), "6. marketClose" := JString("16:00"),
                     "7. timezone" := JString("UTC-05"), "8. currency" := JString("USD"), "9. matchScore" := JString("1.0000")];
    var data := map["bestMatches" := JArray([JObject(first)])];
    assert ErrorKey !in data;
    assert FirstMatch(data) == Some(first);
    assert MatchReadable(data);
  }

  // ---------------------------------------------------------------------------------------------
  // get_historical_stock_prices

  const TimeSeriesKey := "Time Series (Daily)"

  datatype PricePoint = PricePoint(date: string, price: Json)

  /** `values["4. close"]`, None where that would raise. The `float` conversion is not modelled. */
  function ClosePrice(values: Json): Option<Json>
  {
    if values.JObject? && "4. close" in values.fields then Some(values.fields["4. close"]) else None
  }

  /** `start_date <= date <= end_date` on parsed dates. */
  predicate InRange(d: Ymd, start: Ymd, end: Ymd)
  {
    YmdLe(start, d) && YmdLe(d, end)
  }

  /** A series key that parses to a date inside the requested range. */
  predicate Selected(k: string, start: Ymd, end: Ymd)
  {
    ParseDate(k).Some? && InRange(ParseDate(k).value, start, end)
  }

  /** Every series date parses and every selected entry has a closing price. */
  ghost predicate EntriesReadable(series: map<string, Json>, start: Ymd, end: Ymd)
  {
    forall k <- series :: ParseDate(k).Some? && (Selected(k, start, end) ==> ClosePrice(series[k]).Some?)
  }

  /** Nothing in lines 143-152 raises: both bounds parse, the series is an object and its entries are readable. */
  ghost predicate SeriesReadable(data: map<string, Json>, startDate: string, endDate: string)
    requires TimeSeriesKey in data
  {
    ParseDate(startDate).Some? && ParseDate(endDate).Some? && data[TimeSeriesKey].JObject?
    && EntriesReadable(data[TimeSeriesKey].fields, ParseDate(startDate).value, ParseDate(endDate).value)
  }

  /** The series has at least one date inside the range. */
  ghost predicate AnySelected(data: map<string, Json>, startDate: string, endDate: string)
    requires TimeSeriesKey in data && SeriesReadable(data, startDate, endDate)
  {
    exists k <- data[TimeSeriesKey].fields :: Selected(k, ParseDate(startDate).value, ParseDate(endDate).value)
  }

  /** Ordered by the date string, each date strictly before the next. */
  predicate StrictlyAscending(ps: seq<PricePoint>)
  {
    forall i, j :: 0 <= i < j < |ps| ==> LexLt(ps[i].date, ps[j].date)
  }

  /** Ordered by the date string, allowing equal dates. */
  predicate NonDescending(ps: seq<PricePoint>)
  {
    forall i, j :: 0 <= i < j < |ps| ==> !LexLt(ps[j].date, ps[i].date)
  }

  /** Puts `p` before the first element whose date is not earlier than its own. */
  function InsertByDate(p: PricePoint, s: seq<PricePoint>): (r: seq<PricePoint>)
    ensures multiset(r) == multiset(s) + multiset{p}
  {
    if s == [] then [p]
    else if !LexLt(s[0].date, p.date) then [p] + s
    else
      assert s == [s[0]] + s[1..];
      [s[0]] + InsertByDate(p, s[1..])
  }

  /** Every element of an insertion is the inserted point or an element of the original. */
  lemma InsertedFrom(p: PricePoint, s: seq<PricePoint>, q: PricePoint)
    requires q in InsertByDate(p, s)
    ensures q == p || q in s
  {
    assert q in multiset(InsertByDate(p, s));
  }

  lemma {:induction false} InsertKeepsOrder(p: PricePoint, s: seq<PricePoint>)
    requires NonDescending(s)
    ensures NonDescending(InsertByDate(p, s))
  {
    var r := InsertByDate(p, s);
    if s == [] {
    } else if !LexLt(s[0].date, p.date) {
      forall j | 0 < j < |r| ensures !LexLt(r[j].date, p.date) {
        if LexLt(r[j].date, p.date) && s[0].date != p.date {
          LexLtTotal(s[0].date, p.date);
          LexLtTransitive(r[j].date, p.date, s[0].date);
        }
      }
    } else {
      var t := InsertByDate(p, s[1..]);
      InsertKeepsOrder(p, s[1..]);
      forall j | 0 <= j < |t| ensures !LexLt(t[j].date, s[0].date) {
        assert t[j] in t;
        InsertedFrom(p, s[1..], t[j]);
        if t[j] == p {
          LexLtAsymmetric(s[0].date, p.date);
        } else {
          var k :| 0 <= k < |s[1..]| && s[1..][k] == t[j];
          assert s[k + 1] == t[j];
        }
      }
      assert r == [s[0]] + t;
    }
  }

  lemma {:induction false} InsertKeepsStrictOrder(p: PricePoint, s: seq<PricePoint>)
    requires StrictlyAscending(s)
    requires forall q <- s :: q.date != p.date
    ensures StrictlyAscending(InsertByDate(p, s))
  {
    var r := InsertByDate(p, s);
    if s == [] {
    } else if !LexLt(s[0].date, p.date) {
      assert s[0] in s;
      LexLtTotal(s[0].date, p.date);
      forall j | 0 < j < |r| ensures LexLt(p.date, r[j].date) {
        if j > 1 { LexLtTransitive(p.date, s[0].date, r[j].date); }
      }
    } else {
      var t := InsertByDate(p, s[1..]);
      InsertKeepsStrictOrder(p, s[1..]);
      forall j | 0 <= j < |t| ensures LexLt(s[0].date, t[j].date) {
        assert t[j] in t;
        InsertedFrom(p, s[1..], t[j]);
        if t[j] != p {
          var k :| 0 <= k < |s[1..]| && s[1..][k] == t[j];
          assert s[k + 1] == t[j];
        }
      }
      assert r == [s[0]] + t;
    }
  }

  /** No two elements share a date. */
  predicate DistinctDates(s: seq<PricePoint>)
  {
    forall i, j :: 0 <= i < j < |s| ==> s[i].date != s[j].date
  }

  /** Inserting the head of a list with distinct dates into a strictly ascending arrangement of its tail. */
  lemma InsertHeadStrict(s: seq<PricePoint>, t: seq<PricePoint>)
    requires s != [] && DistinctDates(s)
    requires multiset(t) == multiset(s[1..]) && StrictlyAscending(t)
    ensures StrictlyAscending(InsertByDate(s[0], t))
  {
    forall q <- t ensures q.date != s[0].date {
      assert q in multiset(s[1..]);
      var k :| 0 <= k < |s[1..]| && s[1..][k] == q;
      assert s[k + 1] == q;
    }
    InsertKeepsStrictOrder(s[0], t);
  }

  /** The tail of a list with distinct dates has distinct dates. */
  lemma DistinctTail(s: seq<PricePoint>)
    requires s != [] && DistinctDates(s)
    ensures DistinctDates(s[1..])
  {
    forall i, j | 0 <= i < j < |s[1..]| ensures s[1..][i].date != s[1..][j].date {
      assert s[1..][i] == s[i + 1] && s[1..][j] == s[j + 1];
    }
  }

  /** Python's `sorted(prices, key=lambda x: x["date"])`, as an insertion sort. */
  function SortByDate(s: seq<PricePoint>): (r: seq<PricePoint>)
    ensures multiset(r) == multiset(s)
    ensures NonDescending(r)
    ensures DistinctDates(s) ==> StrictlyAscending(r)
  {
    if s == [] then []
    else
      var t := SortByDate(s[1..]);
      assert s == [s[0]] + s[1..];
      InsertKeepsOrder(s[0], t);
      if DistinctDates(s) then
        DistinctTail(s);
        InsertHeadStrict(s, t);
        InsertByDate(s[0], t)
      else
        InsertByDate(s[0], t)
  }

  /** The loop of lines 146-152: the selected entries with their closing prices, in whatever order the
      dictionary yields them; None where the loop raises. */
  method CollectInRange(series: map<string, Json>, start: Ymd, end: Ymd) returns (r: Option<seq<PricePoint>>)
    ensures r.Some? <==> EntriesReadable(series, start, end)
    ensures r.Some? ==>
              DistinctDates(r.value)
              && (forall p <- r.value :: p.date in series && Selected(p.date, start, end)
                                         && ClosePrice(series[p.date]) == Some(p.price))
              && (forall k <- series :: Selected(k, start, end) ==> exists p <- r.value :: p.date == k)
  {
    var remaining := series.Keys;
    var prices: seq<PricePoint> := [];
    while remaining != {}
      invariant remaining <= series.Keys
      invariant forall p <- prices ::
                  p.date in series.Keys - remaining && Selected(p.date, start, end)
                  && ClosePrice(series[p.date]) == Some(p.price)
      invariant forall k <- series.Keys - remaining ::
                  ParseDate(k).Some? && (Selected(k, start, end) ==> exists p <- prices :: p.date == k)
      invariant DistinctDates(prices)
      decreases remaining
    {
      var dateStr :| dateStr in remaining;
      var date := ParseDate(dateStr);
      if date.None? {
        return None;
      }
      if InRange(date.value, start, end) {
        var close := ClosePrice(series[dateStr]);
        if close.None? {
          return None;
        }
        prices := prices + [PricePoint(dateStr, close.value)];
      }
      remaining := remaining - {dateStr};
    }
    return Some(prices);
  }

  method HistoricalStockPrices(symbol: string, data: map<string, Json>, startDate: string, endDate: string)
    returns (r: Result<seq<PricePoint>, ToolError>)
    ensures ErrorKey in data ==> r == Failure(ApiError(data[ErrorKey]))
    ensures ErrorKey !in data && TimeSeriesKey !in data ==> r == Failure(NoTimeSeries(symbol))
    ensures r == Failure(Malformed) <==>
              ErrorKey !in data && TimeSeriesKey in data && !SeriesReadable(data, startDate, endDate)
    ensures r == Failure(NoPricesInRange(symbol, startDate, endDate)) <==>
              ErrorKey !in data && TimeSeriesKey in data && SeriesReadable(data, startDate, endDate)
              && !AnySelected(data, startDate, endDate)
    ensures r.Success? <==>
              ErrorKey !in data && TimeSeriesKey in data && SeriesReadable(data, startDate, endDate)
              && AnySelected(data, startDate, endDate)
    ensures r.Success? ==>
              ErrorKey !in data && TimeSeriesKey in data && SeriesReadable(data, startDate, endDate)
              && var series, start, end := data[TimeSeriesKey].fields, ParseDate(startDate).value, ParseDate(endDate).value;
              && |r.value| > 0
              && StrictlyAscending(r.value)
              && (forall p <- r.value :: p.date in series && Selected(p.date, start, end)
                                         && ClosePrice(series[p.date]) == Some(p.price))
              && (forall k <- series :: Selected(k, start, end) ==> exists p <- r.value :: p.date == k)
  {
    if ErrorKey in data {
      return Failure(ApiError(data[ErrorKey]));
    }
    if TimeSeriesKey !in data {
      return Failure(NoTimeSeries(symbol));
    }
    var timeSeries := data[TimeSeriesKey];
    var start, end := ParseDate(startDate), ParseDate(endDate);
    if start.None? || end.None? || !timeSeries.JObject? {
      return Failure(Malformed);
    }
    var series := timeSeries.fields;
    var collected := CollectInRange(series, start.value, end.value);
    if collected.None? {
      return Failure(Malformed);
    }
    var prices := collected.value;
    if prices == [] {
      return Failure(NoPricesInRange(symbol, startDate, endDate));
    }
    assert AnySelected(data, startDate, endDate) by {
      assert prices[0] in prices;
    }
    var sorted := SortByDate(prices);
    forall p <- sorted
      ensures p.date in series && Selected(p.date, start.value, end.value) && ClosePrice(series[p.date]) == Some(p.price)
    {
      assert p in multiset(prices);
    }
    forall k <- series | Selected(k, start.value, end.value) ensures exists p <- sorted :: p.date == k {
      var p :| p in prices && p.date == k;
      assert p in multiset(sorted);
    }
    assert |sorted| == |prices| by {
      assert |multiset(sorted)| == |multiset(prices)|;
    }
    r := Success(sorted);
  }

  /** The result, ordered by date string, is also in chronological order: every returned date parses. */
  lemma StrictlyAscendingIsChronological(ps: seq<PricePoint>)
    requires StrictlyAscending(ps)
    requires forall p <- ps :: ParseDate(p.date).Some?
    ensures forall i, j :: 0 <= i < j < |ps| ==> YmdLt(ParseDate(ps[i].date).value, ParseDate(ps[j].date).value)
  {
    forall i, j | 0 <= i < j < |ps|
      ensures YmdLt(ParseDate(ps[i].date).value, ParseDate(ps[j].date).value)
    {
      assert ps[i] in ps && ps[j] in ps;
      DateOrderAgreement(ps[i].date, ps[j].date);
    }
  }

  // ---------------------------------------------------------------------------------------------
  // get_sentiment_analysis (the counting part)

  datatype Article = Article(title: string, description: string)

  /** The text handed to the polarity scorer: `f"{title} {description}"`. */
  function ArticleText(a: Article): string
  {
    a.title + " " + a.description
  }

  /** One polarity per article, in article order. */
  function Polarities(articles: seq<Article>, polarity: string -> real): (s: seq<real>)
    ensures |s| == |articles|
  {
    seq(|articles|, i requires 0 <= i < |articles| => polarity(ArticleText(articles[i])))
  }

  const PositiveThreshold: real := 0.05
  const NegativeThreshold: real := -0.05

  function CountPositive(s: seq<real>): nat
  {
    if s == [] then 0 else (if s[0] > PositiveThreshold then 1 else 0) + CountPositive(s[1..])
  }

  function CountNeutral(s: seq<real>): nat
  {
    if s == [] then 0
    else (if NegativeThreshold <= s[0] <= PositiveThreshold then 1 else 0) + CountNeutral(s[1..])
  }

  function CountNegative(s: seq<real>): nat
  {
    if s == [] then 0 else (if s[0] < NegativeThreshold then 1 else 0) + CountNegative(s[1..])
  }

  /** Every score lands in exactly one bucket, so the three counts add up to the number of scores. */
  lemma {:induction false} BucketsPartition(s: seq<real>)
    ensures CountPositive(s) + CountNeutral(s) + CountNegative(s) == |s|
  {
    if s != [] {
      BucketsPartition(s[1..]);
    }
  }

  datatype SentimentSummary = SentimentSummary(
    positiveArticles: nat, neutralArticles: nat, negativeArticles: nat, articleCount: nat)

  /** `polarity` stands for TextBlob's polarity scorer. */
  method SentimentAnalysis(query: string, articles: seq<Article>, polarity: string -> real)
    returns (r: Result<SentimentSummary, ToolError>)
    ensures r.Failure? <==> articles == []
    ensures r.Failure? ==> r.error == NoArticles(query)
    ensures r.Success? ==>
              var scores := Polarities(articles, polarity);
              && r.value.articleCount == |articles|
              && r.value.positiveArticles == CountPositive(scores)
              && r.value.neutralArticles == CountNeutral(scores)
              && r.value.negativeArticles == CountNegative(scores)
              && r.value.positiveArticles + r.value.neutralArticles + r.value.negativeArticles == r.value.articleCount
  {
    if articles == [] {
      return Failure(NoArticles(query));
    }
    var sentiments: seq<real> := [];
    var i := 0;
    while i < |articles|
      invariant 0 <= i <= |articles|
      invariant |sentiments| == i
      invariant forall k :: 0 <= k < i ==> sentiments[k] == polarity(ArticleText(articles[k]))
    {
      sentiments := sentiments + [polarity(ArticleText(articles[i]))];
      i := i + 1;
    }
    assert sentiments == Polarities(articles, polarity);
    BucketsPartition(sentiments);
    r := Success(SentimentSummary(CountPositive(sentiments), CountNeutral(sentiments),
                                  CountNegative(sentiments), |articles|));
  }

  // ---------------------------------------------------------------------------------------------
  // get_company_leadership

  /** Output key and the `info` key it is copied from. */
  const LeadershipFields: seq<(string, string)> :=
    [("CEO", "ceo"), ("Company", "longName"), ("Industry", "industry"), ("Sector", "sector"),
     ("Full Time Employees", "fullTimeEmployees"), ("Website", "website")]

  /** `info.get(key, "N/A")`. */
  function GetOrNA(info: map<string, Json>, key: string): Json
  {
    if key in info then info[key] else JString("N/A")
  }

  /** `info` is None when fetching the company's info raised; the tool then returns `{}`. */
  function CompanyLeadership(info: Option<map<string, Json>>): (r: map<string, Json>)
    ensures info.None? ==> r == map[]
    ensures info.Some? ==> r != map[]
  {
    match info
    case None => map[]
    case Some(m) =>
      var r := map["CEO" := GetOrNA(m, "ceo"), "Company" := GetOrNA(m, "longName"),
          "Industry" := GetOrNA(m, "industry"), "Sector" := GetOrNA(m, "sector"),
          "Full Time Employees" := GetOrNA(m, "fullTimeEmployees"),
          "Website" := GetOrNA(m, "website")];
      assert "Website" in r;
      r
  }

  /** Every output key of the table is present, holding the info value under its info key, or "N/A". */
  lemma LeadershipEntries(m: map<string, Json>)
    ensures var r := CompanyLeadership(Some(m));
      forall f <- LeadershipFields :: f.0 in r && r[f.0] == if f.1 in m then m[f.1] else JString("N/A")
  {
  }

  /** There are no other keys. */
  lemma LeadershipKeysFromTable(m: map<string, Json>)
    ensures forall k <- CompanyLeadership(Some(m)) :: exists f <- LeadershipFields :: f.0 == k
  {
  }

  /** The six output keys are distinct, so a successful lookup has exactly six entries. */
  lemma LeadershipHasSixKeys(m: map<string, Json>)
    ensures |CompanyLeadership(Some(m))| == 6
  {
    SixDistinctKeys(GetOrNA(m, "ceo"), GetOrNA(m, "longName"), GetOrNA(m, "industry"),
                    GetOrNA(m, "sector"), GetOrNA(m, "fullTimeEmployees"), GetOrNA(m, "website"));
  }

  /** The info record of the tool's unit test maps to its six expected entries. */
  lemma LeadershipAppleExample()
    ensures
      var info := map["ceo" := JString("Tim Cook"), "longName" := JString("Apple Inc."),
                      "industry" := JString("Technology"), "sector" := JString("Consumer Electronics"),
                      "fullTimeEmployees" := JNumber(147000.0), "website" := JString("https://www.apple.com")];
      var r := CompanyLeadership(Some(info));
      && r["CEO"] == JString("Tim Cook") && r["Company"] == JString("Apple Inc.")
      && r["Industry"] == JString("Technology") && r["Sector"] == JString("Consumer Electronics")
      && r["Full Time Employees"] == JNumber(147000.0) && r["Website"] == JString("https://www.apple.com")
  {
  }

  lemma SixDistinctKeys(a: Json, b: Json, c: Json, d: Json, e: Json, f: Json)
    ensures |map["CEO" := a, "Company" := b, "Industry" := c, "Sector" := d,
                 "Full Time Employees" := e, "Website" := f]| == 6
  {
    var r := map["CEO" := a, "Company" := b, "Industry" := c, "Sector" := d,
                 "Full Time Employees" := e, "Website" := f];
    var s1: set<string> := {"CEO"};
    var s2 := s1 + {"Company"};
    assert "Company"[1] != "CEO"[1];
    var s3 := s2 + {"Industry"};
    var s4 := s3 + {"Sector"};
    var s5 := s4 + {"Full Time Employees"};
    var s6 := s5 + {"Website"};
    assert "Website"[0] != "Company"[0];
    assert |s6| == 6;
    assert r.Keys == s6;
  }
}
