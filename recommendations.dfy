/**
 * The portfolio recommendation engine: an overall verdict from realised gain
 * against the strategy's target return and risk tolerance, and for every held
 * symbol a price trend against last week's mean close and a verdict on recent
 * news headlines.
 *
 * The market-data lookups (current price, last week's history, recent news)
 * are supplied as a `Quotes` value; the performance summary the serializer
 * computes from the portfolio's transactions is supplied as a `PerformanceData`
 * object, which the engine extends in place.
 */
module Recommendations {
  import opened Wrappers
  import opened Text
  import opened Stats

  /** The two strategy fields the engine branches on. */
  datatype Strategy = Strategy(riskTolerance: string, targetReturn: real)

  const Underperforming := "Your portfolio is underperforming. "
  const HighRiskAdvice := "Given your high risk tolerance, consider increasing exposure to aggressive, riskier stocks."
  const MediumRiskAdvice := "Consider rebalancing with a mix of growth and defensive stocks."
  const LowRiskAdvice := "Focus on stable, dividend-paying stocks to reduce volatility."
  // Written in two pieces so that `MessagesDiffer` can read its opening characters.
  const OnTrack := "Your portfolio is on track with your strategy. " + "Consider rebalancing periodically."

  /**
   * The verdict messages are told apart: the three pieces of advice by their
   * lengths, and the on-track message by its opening, which is not the
   * underperformance sentence.
   */
  lemma MessagesDiffer()
    ensures HighRiskAdvice != MediumRiskAdvice && HighRiskAdvice != LowRiskAdvice && MediumRiskAdvice != LowRiskAdvice
    ensures !(Underperforming <= OnTrack)
  {
    assert |HighRiskAdvice| == 91 && |MediumRiskAdvice| == 63 && |LowRiskAdvice| == 61;
    assert Underperforming[18] != OnTrack[18];
  }

  // ---------------------------------------------------------------------------
  // Overall verdict
  // ---------------------------------------------------------------------------

  /** The advice added to an underperforming portfolio's verdict. */
  function RiskAdvice(riskTolerance: string): (r: string)
    ensures r == HighRiskAdvice <==> riskTolerance == "high"
    ensures r == MediumRiskAdvice <==> riskTolerance == "medium"
    ensures r == LowRiskAdvice <==> riskTolerance != "high" && riskTolerance != "medium"
  {
    MessagesDiffer();
    if riskTolerance == "high" then HighRiskAdvice
    else if riskTolerance == "medium" then MediumRiskAdvice
    else LowRiskAdvice
  }

  /**
   * The verdict opens with the underperformance sentence exactly when the
   * realised gain is below target, and then carries the advice for the risk
   * tolerance; otherwise it is the on-track message and nothing else.
   */
  function OverallRecommendation(realized: real, target: real, riskTolerance: string): (r: string)
    ensures Underperforming <= r <==> realized < target
    ensures realized < target ==> r[|Underperforming|..] == RiskAdvice(riskTolerance)
    ensures target <= realized ==> r == OnTrack
  {
    MessagesDiffer();
    if realized < target then
      PrefixOfConcat(Underperforming, RiskAdvice(riskTolerance));
      Underperforming + RiskAdvice(riskTolerance)
    else OnTrack
  }

  /**
   * The realised gain of the summary, zero when the summary has no gain/loss
   * entry (`totalGainLoss` is None) or that entry has no "realized" amount.
   */
  function Realized(totalGainLoss: Option<map<string, real>>): (r: real)
    ensures totalGainLoss.Some? && "realized" in totalGainLoss.value ==> r == totalGainLoss.value["realized"]
    ensures totalGainLoss.None? || "realized" !in totalGainLoss.value ==> r == 0.0
  {
    var gains := totalGainLoss.GetOr(map[]);
    if "realized" in gains then gains["realized"] else 0.0
  }

  // ---------------------------------------------------------------------------
  // Price trend
  // ---------------------------------------------------------------------------

  /** One record of a price history; `close` is None when it has no "Close" value. */
  datatype PriceRecord = PriceRecord(close: Option<real>)

  /** The closing prices present in a history, in order. */
  function Closes(history: seq<PriceRecord>): (prices: seq<real>)
    ensures |prices| <= |history|
    ensures forall p :: p in prices <==> exists i :: 0 <= i < |history| && history[i].close == Some(p)
  {
    if history == [] then []
    else
      var rest := Closes(history[1..]);
      assert forall i :: 0 < i < |history| ==> history[i] == history[1..][i - 1];
      match history[0].close
      case Some(p) => [p] + rest
      case None => rest
  }

  /** The mean of last week's closing prices, or None when there are none. */
  function AveragePrice(history: seq<PriceRecord>): (r: Option<real>)
    ensures r.None? <==> forall i :: 0 <= i < |history| ==> history[i].close.None?
    ensures r.Some? ==> r.value == Mean(Closes(history))
  {
    var prices := Closes(history);
    if prices == [] then None
    else
      assert prices[0] in prices;
      Some(Mean(prices))
  }

  /** Every bound on the closing prices of a history bounds their mean. */
  lemma AverageWithinCloses(history: seq<PriceRecord>, lo: real, hi: real)
    requires forall i :: 0 <= i < |history| && history[i].close.Some? ==> lo <= history[i].close.value <= hi
    requires AveragePrice(history).Some?
    ensures lo <= AveragePrice(history).value <= hi
  {
    var prices := Closes(history);
    forall j | 0 <= j < |prices|
      ensures lo <= prices[j] <= hi
    {
      assert prices[j] in prices;
    }
    MeanAtLeast(prices, lo);
    MeanAtMost(prices, hi);
  }

  /** The mean is strictly below any strict upper bound of the closing prices. */
  lemma AverageBelow(history: seq<PriceRecord>, b: real)
    requires forall i :: 0 <= i < |history| && history[i].close.Some? ==> history[i].close.value < b
    requires AveragePrice(history).Some?
    ensures AveragePrice(history).value < b
  {
    var prices := Closes(history);
    forall j | 0 <= j < |prices|
      ensures prices[j] < b
    {
      assert prices[j] in prices;
    }
    MeanBelow(prices, b);
  }

  /**
   * The closing prices are exactly those present, each once and in order:
   * collecting over two runs of records collects over each in turn.
   */
  lemma {:induction false} ClosesAppend(a: seq<PriceRecord>, b: seq<PriceRecord>)
    ensures Closes(a + b) == Closes(a) + Closes(b)
  {
    if a == [] {
      assert a + b == b;
    } else {
      assert (a + b)[0] == a[0];
      assert (a + b)[1..] == a[1..] + b;
      ClosesAppend(a[1..], b);
    }
  }

  /** A single record contributes its closing price when it has one, and nothing otherwise. */
  lemma ClosesSingle(r: PriceRecord)
    ensures Closes([r]) == if r.close.Some? then [r.close.value] else []
  {
    assert [r][1..] == [];
  }

  /** A record without a closing price, wherever it stands, does not change the mean. */
  lemma AverageIgnoresMissingCloses(before: seq<PriceRecord>, after: seq<PriceRecord>)
    ensures AveragePrice(before + [PriceRecord(None)] + after) == AveragePrice(before + after)
  {
    var missing := [PriceRecord(None)];
    ClosesAppend(before, missing);
    ClosesSingle(PriceRecord(None));
    assert Closes(before + missing) == Closes(before);
    ClosesAppend(before + missing, after);
    ClosesAppend(before, after);
    assert Closes(before + missing + after) == Closes(before + after);
  }

  datatype Trend = Bullish | Bearish | InsufficientData

  function TrendOf(current: Option<real>, average: Option<real>): (t: Trend)
    ensures t == Bullish <==> current.Some? && average.Some? && current.value > average.value
    ensures t == Bearish <==> current.Some? && average.Some? && current.value <= average.value
    ensures t == InsufficientData <==> current.None? || average.None?
  {
    if current.Some? && average.Some? then
      if current.value > average.value then Bullish else Bearish
    else InsufficientData
  }

  function TrendMessage(t: Trend): string {
    match t
    case Bullish => "Bullish trend observed."
    case Bearish => "Bearish trend observed."
    case InsufficientData => "Insufficient data to determine trend."
  }

  /**
   * A current price above every close of the week is a bullish trend; one at or
   * below every close is a bearish trend.
   */
  lemma TrendAgainstCloses(current: real, history: seq<PriceRecord>)
    requires AveragePrice(history).Some?
    ensures (forall i :: 0 <= i < |history| && history[i].close.Some? ==> history[i].close.value < current)
      ==> TrendOf(Some(current), AveragePrice(history)) == Bullish
    ensures (forall i :: 0 <= i < |history| && history[i].close.Some? ==> current <= history[i].close.value)
      ==> TrendOf(Some(current), AveragePrice(history)) == Bearish
  {
    if forall i :: 0 <= i < |history| && history[i].close.Some? ==> history[i].close.value < current {
      AverageBelow(history, current);
    }
    if forall i :: 0 <= i < |history| && history[i].close.Some? ==> current <= history[i].close.value {
      var prices := Closes(history);
      forall j | 0 <= j < |prices|
        ensures current <= prices[j]
      {
        assert prices[j] in prices;
      }
      MeanAtLeast(prices, current);
    }
  }

  // ---------------------------------------------------------------------------
  // News
  // ---------------------------------------------------------------------------

  /** A news article; `title` is None when it has no "title" entry. */
  datatype Article = Article(title: Option<string>)

  const NegativeKeywords: seq<string> := ["downgrade", "warning", "risk", "loss"]

  /** The title of an article, empty when it has none. */
  function TitleOf(a: Article): string {
    a.title.GetOr("")
  }

  /** Some keyword occurs in `text`. */
  function MentionsAny(text: string, keywords: seq<string>): (b: bool)
    ensures b <==> exists j :: 0 <= j < |keywords| && Contains(text, keywords[j])
  {
    if keywords == [] then false
    else
      assert forall j :: 0 < j < |keywords| ==> keywords[j] == keywords[1..][j - 1];
      Contains(text, keywords[0]) || MentionsAny(text, keywords[1..])
  }

  /** The lower-cased title mentions one of the negative keywords. */
  predicate Concerning(a: Article) {
    MentionsAny(Lower(TitleOf(a)), NegativeKeywords)
  }

  /** The qualitative flag: some article is concerning. */
  function NewsFlagged(news: seq<Article>): (b: bool)
    ensures b <==> exists i :: 0 <= i < |news| && Concerning(news[i])
  {
    if news == [] then false
    else
      assert forall i :: 0 < i < |news| ==> news[i] == news[1..][i - 1];
      Concerning(news[0]) || NewsFlagged(news[1..])
  }

  /** An article is concerning exactly when its title, lower-cased, contains a negative keyword. */
  lemma ConcerningIff(a: Article)
    ensures Concerning(a) <==>
      exists j :: 0 <= j < |NegativeKeywords| && Contains(Lower(TitleOf(a)), NegativeKeywords[j])
  {
  }

  /** An article without a title is never concerning. */
  lemma UntitledNotConcerning(a: Article)
    requires a.title.None?
    ensures !Concerning(a)
  {
  }

  /** A titled article is concerning exactly when its title spells a negative keyword in any mix of cases. */
  lemma ConcerningIgnoresCase(title: string)
    ensures Concerning(Article(Some(title))) <==>
      exists j, i :: 0 <= j < |NegativeKeywords| && OccursIgnoringCaseAt(title, NegativeKeywords[j], i)
  {
    assert IsLowerCase("downgrade") && IsLowerCase("warning") && IsLowerCase("risk") && IsLowerCase("loss");
    forall j | 0 <= j < |NegativeKeywords|
      ensures Contains(Lower(title), NegativeKeywords[j]) <==>
        exists i :: OccursIgnoringCaseAt(title, NegativeKeywords[j], i)
    {
      ContainsLowerIff(title, NegativeKeywords[j]);
    }
  }

  datatype NewsVerdict = Concerns | Positive | NoNews

  function NewsVerdictOf(news: seq<Article>): (v: NewsVerdict)
    ensures v == Concerns <==> NewsFlagged(news)
    ensures v == Positive <==> !NewsFlagged(news) && news != []
    ensures v == NoNews <==> news == []
  {
    if NewsFlagged(news) then Concerns
    else if news != [] then Positive
    else NoNews
  }

  function NewsMessage(v: NewsVerdict): string {
    match v
    case Concerns => "Recent news signals potential concerns."
    case Positive => "Recent news appears positive."
    case NoNews => "No recent news to analyze."
  }

  /** The news shown with an analysis: the first two articles, or all of them when there are fewer. */
  function DisplayNews(news: seq<Article>): (shown: seq<Article>)
    ensures |shown| == if |news| < 2 then |news| else 2
    ensures shown <= news
  {
    if |news| <= 2 then news else news[..2]
  }

  // ---------------------------------------------------------------------------
  // Per-symbol analysis
  // ---------------------------------------------------------------------------

  /**
   * The market-data lookups for a symbol: its current price, its price
   * history over the week before the day of the request, and its recent news.
   */
  datatype Quotes = Quotes(
    price: string -> Option<real>,
    history: string -> seq<PriceRecord>,
    news: string -> seq<Article>)

  /** One entry of `stocks_analysis`. */
  datatype StockAnalysis = StockAnalysis(
    symbol: string,
    currentPrice: Option<real>,
    averagePriceLastWeek: Option<real>,
    quantitativeAssessment: string,
    news: seq<Article>,
    qualitativeAssessment: string)

  /**
   * The analysis of one symbol: its current price and last week's mean close,
   * bullish exactly when both are known and the price is above the mean, the
   * concern flag exactly when some headline mentions a negative keyword, and at
   * most the first two articles of its news.
   */
  function AnalyzeStock(symbol: string, quotes: Quotes): (a: StockAnalysis)
    ensures a.symbol == symbol && a.currentPrice == quotes.price(symbol)
    ensures a.averagePriceLastWeek == AveragePrice(quotes.history(symbol))
    ensures a.quantitativeAssessment == "Bullish trend observed." <==>
      (a.currentPrice.Some? && a.averagePriceLastWeek.Some? && a.currentPrice.value > a.averagePriceLastWeek.value)
    ensures a.quantitativeAssessment == "Bearish trend observed." <==>
      (a.currentPrice.Some? && a.averagePriceLastWeek.Some? && a.currentPrice.value <= a.averagePriceLastWeek.value)
    ensures a.quantitativeAssessment == "Insufficient data to determine trend." <==>
      (a.currentPrice.None? || a.averagePriceLastWeek.None?)
    ensures a.news <= quotes.news(symbol) && |a.news| == if |quotes.news(symbol)| < 2 then |quotes.news(symbol)| else 2
    ensures a.qualitativeAssessment == "Recent news signals potential concerns." <==> NewsFlagged(quotes.news(symbol))
    ensures a.qualitativeAssessment == "Recent news appears positive." <==>
      (!NewsFlagged(quotes.news(symbol)) && quotes.news(symbol) != [])
    ensures a.qualitativeAssessment == "No recent news to analyze." <==> quotes.news(symbol) == []
  {
    var current := quotes.price(symbol);
    var average := AveragePrice(quotes.history(symbol));
    var allNews := quotes.news(symbol);
    StockAnalysis(
      symbol,
      current,
      average,
      TrendMessage(TrendOf(current, average)),
      DisplayNews(allNews),
      NewsMessage(NewsVerdictOf(allNews)))
  }

  /** The loop that builds `stocks_analysis`, one entry per held symbol, in order. */
  method AnalyzeStocks(symbols: seq<string>, quotes: Quotes) returns (analysis: seq<StockAnalysis>)
    ensures |analysis| == |symbols|
    ensures forall i :: 0 <= i < |symbols| ==> analysis[i] == AnalyzeStock(symbols[i], quotes)
  {
    analysis := [];
    for i := 0 to |symbols|
      invariant |analysis| == i
      invariant forall k :: 0 <= k < i ==> analysis[k] == AnalyzeStock(symbols[k], quotes)
    {
      analysis := analysis + [AnalyzeStock(symbols[i], quotes)];
    }
  }

  // ---------------------------------------------------------------------------
  // The recommendation
  // ---------------------------------------------------------------------------

  /**
   * The performance summary of a portfolio, as computed from its transactions,
   * together with the entries the engine adds to it (None until added).
   * `assetsByAsset` holds the held symbols, in the summary's key order, and is
   * None when the summary has no "assets_by_asset" entry.
   */
  class PerformanceData {
    var totalGainLoss: Option<map<string, real>>
    var assetsByAsset: Option<seq<string>>
    var recommendation: Option<string>
    var realizedGain: Option<real>
    var targetReturn: Option<real>
    var stocksAnalysis: Option<seq<StockAnalysis>>

    constructor (totalGainLoss: Option<map<string, real>>, assetsByAsset: Option<seq<string>>)
      ensures this.totalGainLoss == totalGainLoss && this.assetsByAsset == assetsByAsset
      ensures recommendation.None? && realizedGain.None? && targetReturn.None? && stocksAnalysis.None?
    {
      this.totalGainLoss := totalGainLoss;
      this.assetsByAsset := assetsByAsset;
      recommendation := None;
      realizedGain := None;
      targetReturn := None;
      stocksAnalysis := None;
    }

    /** The held symbols, in the summary's order; none when the summary lists no assets. */
    function Symbols(): seq<string>
      reads this
    {
      assetsByAsset.GetOr([])
    }
  }

  /**
   * Adds the overall verdict, the realised gain and target it was drawn from,
   * and one analysis per held symbol to the performance summary.
   */
  method GenerateRecommendation(strategy: Strategy, data: PerformanceData, quotes: Quotes)
    modifies data
    ensures data.totalGainLoss == old(data.totalGainLoss) && data.assetsByAsset == old(data.assetsByAsset)
    ensures data.recommendation ==
      Some(OverallRecommendation(Realized(data.totalGainLoss), strategy.targetReturn, strategy.riskTolerance))
    ensures data.realizedGain == Some(Realized(data.totalGainLoss))
    ensures data.targetReturn == Some(strategy.targetReturn)
    ensures data.stocksAnalysis.Some? && |data.stocksAnalysis.value| == |data.Symbols()|
    ensures forall i :: 0 <= i < |data.Symbols()| ==>
      data.stocksAnalysis.value[i] == AnalyzeStock(data.Symbols()[i], quotes)
  {
    var realized := Realized(data.totalGainLoss);
    var target := strategy.targetReturn;
    data.recommendation := Some(OverallRecommendation(realized, target, strategy.riskTolerance));
    data.realizedGain := Some(realized);
    data.targetReturn := Some(target);
    var analysis := AnalyzeStocks(data.Symbols(), quotes);
    data.stocksAnalysis := Some(analysis);
  }
}
