# Portfolia backend decision logic in Dafny

Portfolia is a personal investment-portfolio tracker. Most of it is a browser
front end plus a CRUD web backend. This project models the four backend pieces
that make decisions:

- **Recommendation engine** (`Recommendations`, `recommendations.dfy`). It
  gives an overall verdict by comparing the portfolio's realised gain with its
  strategy's target return, and then advice chosen by the strategy's risk
  tolerance. For each held symbol it gives:
  - last week's mean closing price;
  - a bullish, bearish or insufficient-data trend;
  - a verdict on recent news headlines, from negative keywords;
  - at most the first two articles.

  The performance summary is a `PerformanceData` object, and
  `GenerateRecommendation` extends it in place. The loop over held symbols is
  `AnalyzeStocks`.
- **Chat assistant** (`Chatbot`, `chatbot.dfy`). The `prompt` endpoint
  lower-cases the prompt and routes on keywords. On market questions it
  reports the 28-day change of the S&P 500, Dow Jones and NASDAQ indexes,
  then an overall good/bad verdict from their mean change. It can also add a
  portfolio help reply, a strategy help reply and a self-description. When
  nothing matches it falls back to an apology. The replies are joined by
  blank lines. `Prompt` assembles the messages step by step and is proved
  equal to the specification function `Replies`. The per-index loop is
  `AnalyzeMarket`, its body `AnalyzeIndex`, and the market part of the reply
  `ReportMarket`.
- **Portfolio currency validation** (`Portfolios`, `portfolio.dfy`). A
  `Portfolio` object defaults to "USD". `Clean` accepts only USD, EUR, CAD
  and GBP. `Save` validates before it writes, so a stored row never has an
  unsupported currency.
- **Transaction cost** (`Transactions`, `transaction.dfy`). `Save` overwrites
  `totalCost` with quantity × unit price before it writes. `ToString` renders
  "<Type> <quantity> <name> at <price>".

Support modules:

- `Wrappers` holds `Option`.
- `Text` handles ASCII case mapping, substring search, `join` and prefix
  facts.
- `Stats` holds sum and mean, with their bounds.

External inputs are parameters:

- The stock lookups (current price, last week's history, news) are a `Quotes`
  value of functions.
- The index lookup is `fetch`, from symbol to an error or a history.
- Number rendering is `fmt`. In the chatbot it stands for two-decimal formatting. In `Transaction.ToString` it stands for the plain string form of a decimal.
- The clock's date windows are folded into those lookups.

Money and prices are exact `real` numbers.

## Model

| member | source | states |
|---|---|---|
| `Recommendations.RiskAdvice` | backend/portfolio/recommendations.py:21-35 | the advice is the high-risk one iff the tolerance is exactly "high", the growth/defensive mix iff exactly "medium", and the dividend advice for every other value |
| `Recommendations.OverallRecommendation` | backend/portfolio/recommendations.py:20-37 | the verdict starts with "Your portfolio is underperforming. " iff realised < target, and then continues with the risk advice; otherwise it is exactly the on-track/rebalance message |
| `Recommendations.Realized` | backend/portfolio/recommendations.py:17 | the realised gain is the "realized" entry of "total_gain_loss" when both exist, and 0 when either is missing |
| `Recommendations.Closes` | backend/portfolio/recommendations.py:52 | every extracted price is the Close value of some record, each Close value present is extracted, and there are no more prices than records |
| `Recommendations.ClosesAppend` | backend/portfolio/recommendations.py:52 | the extraction is a filter: over two runs of records it gives the prices of the first run followed by those of the second, so each price keeps its multiplicity and order |
| `Recommendations.ClosesSingle` | backend/portfolio/recommendations.py:52 | a single record gives its Close value when it has one, and nothing when it has none |
| `Recommendations.AveragePrice` | backend/portfolio/recommendations.py:50-54 | there is no average iff no record has a Close value (this includes an empty history); otherwise it is the arithmetic mean of the extracted Close values |
| `Recommendations.AverageWithinCloses` | backend/portfolio/recommendations.py:50-54 | any lower and upper bound of the Close values also bounds the average |
| `Recommendations.AverageBelow` | backend/portfolio/recommendations.py:54 | the average is strictly below any strict upper bound of the Close values |
| `Recommendations.AverageIgnoresMissingCloses` | backend/portfolio/recommendations.py:52-54 | a record without a Close value, anywhere in the history, does not change the average |
| `Recommendations.TrendOf` | backend/portfolio/recommendations.py:56-62 | Bullish iff both prices are present and current > average (strictly); Bearish iff both are present and current ≤ average; insufficient data iff either is missing |
| `Recommendations.TrendAgainstCloses` | backend/portfolio/recommendations.py:50-60 | a current price above every close of the week gives Bullish; one at or below every close gives Bearish |
| `Recommendations.MentionsAny` | backend/portfolio/recommendations.py:65-67 | the inner `any`: true iff the text contains one of the keywords as a substring |
| `Recommendations.NewsFlagged` | backend/portfolio/recommendations.py:66-69 | the outer `any`: the flag is set iff some article is concerning |
| `Recommendations.ConcerningIff` | backend/portfolio/recommendations.py:65-69 | an article is concerning iff its lower-cased title (missing title = "") contains "downgrade", "warning", "risk" or "loss" |
| `Recommendations.UntitledNotConcerning` | backend/portfolio/recommendations.py:67 | an article without a title never raises the flag |
| `Recommendations.ConcerningIgnoresCase` | backend/portfolio/recommendations.py:67 | a titled article is concerning iff its title spells one of the four negative keywords somewhere, in any mix of cases |
| `Recommendations.NewsVerdictOf` | backend/portfolio/recommendations.py:70-76 | concerns iff flagged; positive iff not flagged and there is at least one article; no news iff the list is empty |
| `Recommendations.DisplayNews` | backend/portfolio/recommendations.py:78 | the news shown is a prefix of the articles, of length min(2, n) |
| `Recommendations.AnalyzeStocks` | backend/portfolio/recommendations.py:43-88 | exactly one analysis per held symbol, in key order; entry i is the analysis of symbol i |
| `Recommendations.AnalyzeStock` | backend/portfolio/recommendations.py:46-87 | an entry names its symbol, its current price and last week's average; it says "Bullish trend observed." iff both are known and the price is above the average, "Bearish trend observed." iff both are known and the price is at or below it, and "Insufficient data to determine trend." iff either is missing; it shows the first min(2, n) articles; it signals concerns iff some headline is flagged, "Recent news appears positive." iff there is news and none is flagged, and "No recent news to analyze." iff there is no news |
| `Recommendations.PerformanceData.constructor` | backend/portfolio/recommendations.py:15 | the summary starts with its serializer fields and none of the entries the engine adds |
| `Recommendations.GenerateRecommendation` | backend/portfolio/recommendations.py:17-90 | the summary gains the verdict for (realised, target, risk tolerance), the realised gain, the target, and one analysis per held symbol in order; its serializer fields are unchanged |
| `Chatbot.Assess` | backend/chatbot/api/views.py:34-52 | an index is unavailable iff the lookup failed; its history is insufficient iff there are fewer than 2 records or the first or last has no "Close" entry; there is no start price iff the first Close is null or 0; the computation fails iff the start is usable and the last Close is null; otherwise it moved by (last − first) / first × 100 |
| `Chatbot.DirectionUpIffRose` | backend/chatbot/api/views.py:43-45 | with a positive start price the index is "up" iff it closed at or above its start; with a negative one, iff it closed at or below |
| `Chatbot.Changes` | backend/chatbot/api/views.py:44 | every collected change comes from an index that moved, and there are at most as many changes as indexes |
| `Chatbot.ChangesAppend` | backend/chatbot/api/views.py:44 | the collection is a filter: over two runs of outcomes it gives the changes of the first run followed by those of the second, so every moved index contributes its change exactly once, in report order |
| `Chatbot.ChangesSingle` | backend/chatbot/api/views.py:44 | a single outcome contributes its change iff it moved, and nothing otherwise |
| `Chatbot.ChangesNonEmptyIff` | backend/chatbot/api/views.py:42-50 | some change is collected iff some index moved: an unavailable index, an insufficient history, a missing start price or a failed computation adds none |
| `Chatbot.MarketLinesLabelled` | backend/chatbot/api/views.py:32-53 | there is one line per index, in the order S&P 500, Dow Jones, NASDAQ, and each line opens with its index's name |
| `Chatbot.AnalyzeIndex` | backend/chatbot/api/views.py:34-52 | the line for one index is its name followed by the text for what its lookup allows (unavailable, short history, no start price, a failed computation, or a move up or down by the absolute change); a change is returned exactly when the index moved, and it is that move |
| `Chatbot.AnalyzeMarket` | backend/chatbot/api/views.py:30-53 | the loop gives exactly the per-index lines and the list of changes that could be computed, in order |
| `Chatbot.ReportMarket` | backend/chatbot/api/views.py:30-60 | the market part of a reply is the joined index lines, followed by the overall verdict when at least one change was computed |
| `Chatbot.OverallLine` | backend/chatbot/api/views.py:57-60 | the overall line always opens with "Overall, the market appears ", which tells it apart from every other message |
| `Chatbot.OverallGoodIff` | backend/chatbot/api/views.py:57-60 | the overall line says "good" iff the mean of the changes is ≥ 0, which holds iff their sum is ≥ 0 |
| `Chatbot.Prompt` | backend/chatbot/api/views.py:14-74 | an invalid payload gives 400 with its errors, before any matching; a valid one gives 200 with the replies to the lower-cased prompt (missing prompt = "") joined by blank lines |
| `Chatbot.Replies` | backend/chatbot/api/views.py:20-72 | a reply always holds at least one message and at most five: the market block, the overall line and the three fixed replies |
| `Chatbot.MarketRoutingIgnoresCase` | backend/chatbot/api/views.py:19-22 | the market branch runs iff the prompt spells "market", "index", "insight" or "analysis" in any mix of cases |
| `Chatbot.MarketBlockIff` | backend/chatbot/api/views.py:22-55 | the reply opens with the joined market block iff the prompt asks about the market |
| `Chatbot.OverallIff` | backend/chatbot/api/views.py:55-60 | on a market question, the overall verdict directly follows the market block iff some index's change could be computed |
| `Chatbot.PortfolioReplyIff` | backend/chatbot/api/views.py:62-63 | the portfolio help reply is present iff the prompt contains both "portfolio" and "manage" |
| `Chatbot.StrategyReplyIff` | backend/chatbot/api/views.py:65-66 | the strategy help reply is present iff the prompt contains both "strategy" and "manage" |
| `Chatbot.IdentityReplyIff` | backend/chatbot/api/views.py:68-69 | the self-description is present iff the prompt contains "what are you" |
| `Chatbot.FallbackIff` | backend/chatbot/api/views.py:71-74 | the reply is the single apology iff no rule matched, and then the response text is exactly the apology |
| `Text.ContainsLowerIff` | backend/chatbot/api/views.py:19 | the lower-cased text contains a lower-case keyword iff the text spells it somewhere in any mix of cases |
| `Portfolios.Portfolio.constructor` | backend/portfolio/models.py:7-13 | a new portfolio has the currency "USD", which passes validation, and has no stored row |
| `Portfolios.Portfolio.Clean` | backend/portfolio/models.py:18-21 | validation passes iff the currency is exactly one of "USD", "EUR", "CAD", "GBP"; a failure is keyed on "currency" with "Unsupported currency."; as a function it changes nothing |
| `Portfolios.Portfolio.Save` | backend/portfolio/models.py:23-25 | the result is the validation outcome; on success the current row is stored, on failure the stored row is unchanged; a row it writes always has a supported currency; it keeps the invariant that no stored row has an unsupported one; only the stored row can change |
| `Portfolios.DefaultCurrencySupported` | backend/portfolio/models.py:13-19 | the default currency is a supported one |
| `Transactions.Transaction.constructor` | backend/transaction/models.py:12-19 | a new transaction holds the given fields and has no stored row |
| `Transactions.Transaction.Save` | backend/transaction/models.py:21-23 | afterwards total cost = quantity × unit price, whatever it was before; it is 0 when either factor is 0; only the total cost and the stored row change, and the stored row carries the new cost |
| `Transactions.LabelsAreCapitalizedCodes` | backend/transaction/models.py:6-10 | each transaction type's display label is its code, capitalised |
| `Transactions.Transaction.ToString` | backend/transaction/models.py:25-26 | for a transaction of a listed type, the string form is that type's display label, a space, the quantity, a space, the name, " at ", and the unit price; for any type it ends with the unit price |

## Left out

- The browser front end, the CRUD views, URL configuration, serializers, admin classes and the strategy model. They only render, route or declare data. The strategy's risk tolerance is a plain string, so an unlisted value takes the "any other" branch.
- The performance serializer is not part of this model. Its output is the input `PerformanceData`. `assetsByAsset` keeps only the held symbols in key order, because the engine reads only the keys.
- The market-data helpers are not part of this model. Their results are the parameters `Quotes` and `fetch`. The 7-day and 28-day windows, computed from the clock, are folded into those lookups.
- HTTP authentication and the prompt serializer's own rules. The validated payload is the input `Payload`.
- Recommendations.GenerateRecommendation: it stores the realised gain and the target as numbers, not as their `str()` text, because decimal rendering is not modelled.
- Chatbot.Prompt: two-decimal rendering is the abstract `fmt` parameter, not real formatting.
- Chatbot.Assess: of the failures the `except` branch catches, only a null last Close after a usable start is modelled. A Close entry is missing, null or a real number. Non-numeric values that would make the arithmetic fail in other ways are not representable.
- Chatbot.Prompt: lower-casing maps only the ASCII letters.
- Recommendations.NewsFlagged: lower-casing maps only the ASCII letters.
- Recommendations.NewsFlagged: a title that is present but null is not representable. The source would fail on it.
- Transactions.Transaction.ToString: capitalising maps only the ASCII letters. The decimals are rendered by the abstract `fmt`.
- Prices and decimals are exact reals. Floating-point rounding, NaN and infinities are not modelled.
- Transactions.Transaction.Save: the exact product is stored. The 28-digit decimal context and the database's rounding to 8 decimal places are not modelled.
- Writing to the database is a `stored` field holding the last saved row. Primary keys, the automatic timestamps, `save` arguments and concurrent writers are not modelled.
- `Portfolio.__str__` only returns the name and is not modelled.
