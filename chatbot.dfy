/**
 * The chat assistant's reply to a prompt: keyword routing on the lower-cased
 * prompt, a 28-day change per market index with an overall verdict, fixed help
 * replies, and a fallback when nothing matched.
 *
 * `fetch` stands for the market-data lookup of an index symbol over the
 * 28 days before the day of the request; `fmt` stands for the two-decimal
 * rendering of a number.
 */
module Chatbot {
  import opened Wrappers
  import opened Text
  import opened Stats

  // ---------------------------------------------------------------------------
  // Request and response
  // ---------------------------------------------------------------------------

  /** The request body after validation; `prompt` is None when it has no "prompt" entry. */
  datatype Payload = Invalid(errors: map<string, seq<string>>) | Valid(prompt: Option<string>)

  datatype Body = Errors(errors: map<string, seq<string>>) | Reply(response: string)

  datatype Response = Response(status: int, body: Body)

  const HttpOk := 200
  const HttpBadRequest := 400

  // ---------------------------------------------------------------------------
  // Market data
  // ---------------------------------------------------------------------------

  /** The "Close" entry of a historical record: missing, present but null, or a price. */
  datatype CloseEntry = Absent | Null | Price(value: real)

  datatype Record = Record(close: CloseEntry)

  /**
   * The result of a market-data lookup: an error, or the historical records
   * (empty when the result has no "historical_data" entry).
   */
  datatype MarketData = FetchError | History(records: seq<Record>)

  /** The indexes reported on, as (name, symbol), in the order they are reported. */
  const Indexes: seq<(string, string)> := [("S&P 500", "^GSPC"), ("Dow Jones", "^DJI"), ("NASDAQ", "^IXIC")]

  /** What a lookup allows to be said about one index. */
  datatype Outcome = Unavailable | InsufficientHistory | NoStartPrice | ComputeError | Moved(change: real)

  /** The percentage change from `start` to `end`. */
  function ChangePct(start: real, end: real): real
    requires start != 0.0
  {
    (end - start) / start * 100.0
  }

  /** There are at least two records and the first and last have a "Close" entry. */
  predicate HasEnds(records: seq<Record>) {
    |records| >= 2 && records[0].close != Absent && records[|records| - 1].close != Absent
  }

  /** The starting close is a price that is not zero (a null or zero one counts as missing). */
  predicate HasStart(records: seq<Record>)
    requires |records| > 0
  {
    records[0].close.Price? && records[0].close.value != 0.0
  }

  /**
   * What the lookup allows to be said about an index. A null closing price
   * after a usable start makes the percentage arithmetic fail.
   */
  function Assess(data: MarketData): (o: Outcome)
    ensures o == Unavailable <==> data.FetchError?
    ensures o == InsufficientHistory <==> data.History? && !HasEnds(data.records)
    ensures o == NoStartPrice <==> data.History? && HasEnds(data.records) && !HasStart(data.records)
    ensures o == ComputeError <==>
      (data.History? && HasEnds(data.records) && HasStart(data.records) && data.records[|data.records| - 1].close == Null)
    ensures o.Moved? <==>
      (data.History? && HasEnds(data.records) && HasStart(data.records) && data.records[|data.records| - 1].close.Price?)
    ensures o.Moved? ==> o.change == ChangePct(data.records[0].close.value, data.records[|data.records| - 1].close.value)
  {
    match data
    case FetchError => Unavailable
    case History(records) =>
      if !HasEnds(records) then InsufficientHistory
      else if !HasStart(records) then NoStartPrice
      else
        match records[|records| - 1].close
        case Price(end) => Moved(ChangePct(records[0].close.value, end))
        case _ => ComputeError
  }

  /**
   * For a positive starting price the index is reported "up" exactly when it
   * closed at or above where it started; for a negative one, exactly when it
   * closed at or below.
   */
  lemma DirectionUpIffRose(start: real, end: real)
    requires start != 0.0
    ensures start > 0.0 ==> (ChangePct(start, end) >= 0.0 <==> end >= start)
    ensures start < 0.0 ==> (ChangePct(start, end) >= 0.0 <==> end <= start)
  {
  }

  function Direction(change: real): string {
    if change >= 0.0 then "up" else "down"
  }

  function Abs(x: real): real {
    if x < 0.0 then -x else x
  }

  /** The analysis line of an index, after its name. */
  function LineTail(o: Outcome, fmt: real -> string): string {
    match o
    case Unavailable => ": Data not available."
    case InsufficientHistory => ": Insufficient historical data."
    case NoStartPrice => " has insufficient data to compute percentage change."
    case ComputeError => ": Error computing percentage change."
    case Moved(c) => " is " + Direction(c) + " " + fmt(Abs(c)) + "% over the last 28 days."
  }

  function Line(name: string, o: Outcome, fmt: real -> string): string {
    name + LineTail(o, fmt)
  }

  /** The outcome for each index, in report order. */
  function Outcomes(fetch: string -> MarketData): (os: seq<Outcome>)
    ensures |os| == |Indexes|
  {
    seq(|Indexes|, i requires 0 <= i < |Indexes| => Assess(fetch(Indexes[i].1)))
  }

  function MarketLines(fetch: string -> MarketData, fmt: real -> string): (lines: seq<string>)
    ensures |lines| == |Indexes|
  {
    seq(|Indexes|, i requires 0 <= i < |Indexes| => Line(Indexes[i].0, Outcomes(fetch)[i], fmt))
  }

  /** The percentage changes that could be computed, in report order. */
  function Changes(os: seq<Outcome>): (cs: seq<real>)
    ensures |cs| <= |os|
    ensures forall c :: c in cs ==> exists i :: 0 <= i < |os| && os[i] == Moved(c)
  {
    if os == [] then []
    else
      var init := os[..|os| - 1];
      var last := os[|os| - 1];
      assert forall i :: 0 <= i < |init| ==> init[i] == os[i];
      Changes(init) + (if last.Moved? then [last.change] else [])
  }

  /** Some change could be computed exactly when some index moved. */
  lemma {:induction false} ChangesNonEmptyIff(os: seq<Outcome>)
    ensures |Changes(os)| > 0 <==> exists i :: 0 <= i < |os| && os[i].Moved?
  {
    if os != [] {
      var init := os[..|os| - 1];
      ChangesNonEmptyIff(init);
      assert forall i :: 0 <= i < |init| ==> init[i] == os[i];
    }
  }

  /**
   * The changes are exactly those of the moved outcomes, each once and in
   * report order: collecting over two runs of outcomes collects over each in turn.
   */
  lemma {:induction false} ChangesAppend(a: seq<Outcome>, b: seq<Outcome>)
    ensures Changes(a + b) == Changes(a) + Changes(b)
  {
    if b != [] {
      var init := b[..|b| - 1];
      assert (a + b)[..|a + b| - 1] == a + init;
      assert (a + b)[|a + b| - 1] == b[|b| - 1];
      ChangesAppend(a, init);
    } else {
      assert a + b == a;
    }
  }

  /** A single outcome contributes its change when it moved, and nothing otherwise. */
  lemma ChangesSingle(o: Outcome)
    ensures Changes([o]) == if o.Moved? then [o.change] else []
  {
    assert [o][..0] == [];
  }

  /** One line per index, in report order, each opening with the index's name. */
  lemma MarketLinesLabelled(fetch: string -> MarketData, fmt: real -> string)
    ensures |MarketLines(fetch, fmt)| == |Indexes|
    ensures forall i :: 0 <= i < |Indexes| ==> Indexes[i].0 <= MarketLines(fetch, fmt)[i]
  {
  }

  /** The loop over the indexes: one line for each, and the changes that could be computed. */
  method AnalyzeMarket(fetch: string -> MarketData, fmt: real -> string) returns (lines: seq<string>, changes: seq<real>)
    ensures lines == MarketLines(fetch, fmt)
    ensures changes == Changes(Outcomes(fetch))
  {
    lines, changes := [], [];
    for i := 0 to |Indexes|
      invariant lines == MarketLines(fetch, fmt)[..i]
      invariant changes == Changes(Outcomes(fetch)[..i])
    {
      var analysis, moved := AnalyzeIndex(Indexes[i].0, fetch(Indexes[i].1), fmt);
      ghost var o := Outcomes(fetch)[i];
      assert o == Assess(fetch(Indexes[i].1));
      ghost var done := Outcomes(fetch)[..i + 1];
      assert done[..i] == Outcomes(fetch)[..i] && done[i] == o;
      if moved.Some? {
        changes := changes + [moved.value];
      }
      assert MarketLines(fetch, fmt)[i] == Line(Indexes[i].0, o, fmt);
      lines := lines + [analysis];
      assert lines == MarketLines(fetch, fmt)[..i + 1];
    }
    assert Outcomes(fetch)[..|Indexes|] == Outcomes(fetch);
  }

  /** The analysis of one index: its line, and its percentage change when one can be computed. */
  method AnalyzeIndex(name: string, data: MarketData, fmt: real -> string) returns (analysis: string, moved: Option<real>)
    ensures analysis == Line(name, Assess(data), fmt)
    ensures moved.Some? <==> Assess(data).Moved?
    ensures moved.Some? ==> Assess(data) == Moved(moved.value)
  {
    moved := None;
    if data.FetchError? {
      assert Assess(data) == Unavailable;
      analysis := name + ": Data not available.";
    } else {
      var hist := data.records;
      if |hist| >= 2 && hist[0].close != Absent && hist[|hist| - 1].close != Absent {
        var startPrice := hist[0].close;
        var endPrice := hist[|hist| - 1].close;
        if startPrice.Price? && startPrice.value != 0.0 {
          if endPrice.Price? {
            var change := (endPrice.value - startPrice.value) / startPrice.value * 100.0;
            assert Assess(data) == Moved(change);
            moved := Some(change);
            var direction := if change >= 0.0 then "up" else "down";
            analysis := name + (" is " + direction + " " + fmt(Abs(change)) + "% over the last 28 days.");
          } else {
            // the arithmetic on a null closing price raises, and the handler reports it
            assert Assess(data) == ComputeError;
            analysis := name + ": Error computing percentage change.";
          }
        } else {
          assert Assess(data) == NoStartPrice;
          analysis := name + " has insufficient data to compute percentage change.";
        }
      } else {
        assert Assess(data) == InsufficientHistory;
        analysis := name + ": Insufficient historical data.";
      }
    }
  }

  // ---------------------------------------------------------------------------
  // Replies
  // ---------------------------------------------------------------------------

  // The longer replies are written in two pieces so that `ReplyStarts` can read
  // their first characters.
  const OverallPrefix := "Overall, the market appears "
  const PortfolioReply := "To manage your portfolio, " + "please go to Portfolio Management."
  const StrategyReply := "To manage your strategy, " + "please go to Strategy Management."
  const IdentityReply := "I am a financial assistant " + "designed to help you with stock market insights and portfolio management."
  const Fallback := "I'm sorry, I don't understand the question."

  /** The verdict on the mean of the computed changes. */
  function OverallLine(changes: seq<real>, fmt: real -> string): (r: string)
    requires |changes| > 0
    ensures OverallPrefix <= r
  {
    var avg := Sum(changes) / |changes| as real;
    var verdict := if avg >= 0.0 then "good" else "bad";
    var rest := " with an average change of " + fmt(avg) + "%.";
    PrefixOfConcat(OverallPrefix + verdict, rest);
    PrefixOfConcat(OverallPrefix, verdict);
    OverallPrefix + verdict + rest
  }

  /** The verdict is "good" exactly when the mean change, equivalently the total change, is not negative. */
  lemma OverallGoodIff(changes: seq<real>, fmt: real -> string)
    requires |changes| > 0
    ensures OverallPrefix + "good" <= OverallLine(changes, fmt) <==> Mean(changes) >= 0.0
    ensures Mean(changes) >= 0.0 <==> Sum(changes) >= 0.0
  {
    MeanSign(changes);
    var verdict := if Mean(changes) >= 0.0 then "good" else "bad";
    var rest := " with an average change of " + fmt(Mean(changes)) + "%.";
    PrefixOfConcat(OverallPrefix + verdict, rest);
    PrefixOfConcat(OverallPrefix, verdict);
    if Mean(changes) < 0.0 {
      assert (OverallPrefix + verdict + rest)[|OverallPrefix|] == 'b';
    }
  }

  predicate AsksMarket(p: string) {
    Contains(p, "market") || Contains(p, "index") || Contains(p, "insight") || Contains(p, "analysis")
  }

  predicate AsksPortfolio(p: string) {
    Contains(p, "portfolio") && Contains(p, "manage")
  }

  predicate AsksStrategy(p: string) {
    Contains(p, "strategy") && Contains(p, "manage")
  }

  predicate AsksIdentity(p: string) {
    Contains(p, "what are you")
  }

  predicate AsksNothing(p: string) {
    !AsksMarket(p) && !AsksPortfolio(p) && !AsksStrategy(p) && !AsksIdentity(p)
  }

  /** The market block: the index lines joined by newlines. */
  function MarketBlock(fetch: string -> MarketData, fmt: real -> string): string {
    Join(MarketLines(fetch, fmt), "\n")
  }

  /** The market block, followed by the overall line when any index moved. */
  function MarketReply(fetch: string -> MarketData, fmt: real -> string): seq<string> {
    var cs := Changes(Outcomes(fetch));
    [MarketBlock(fetch, fmt)] + (if |cs| > 0 then [OverallLine(cs, fmt)] else [])
  }

  function MarketMessages(p: string, fetch: string -> MarketData, fmt: real -> string): seq<string> {
    if AsksMarket(p) then MarketReply(fetch, fmt) else []
  }

  /** The market part of the `prompt` endpoint: analyse the indexes, then add the
      overall line computed from the average change. */
  method ReportMarket(fetch: string -> MarketData, fmt: real -> string) returns (messages: seq<string>)
    ensures messages == MarketReply(fetch, fmt)
  {
    var lines, changes := AnalyzeMarket(fetch, fmt);
    messages := [Join(lines, "\n")];
    if |changes| > 0 {
      messages := messages + [OverallLine(changes, fmt)];
    }
  }

  /**
   * The messages of the reply to a lower-cased prompt, in order: never none,
   * and at most the market block, the overall line and the three fixed replies.
   */
  function Replies(p: string, fetch: string -> MarketData, fmt: real -> string): (r: seq<string>)
    ensures 1 <= |r| <= 5
  {
    var m := MarketMessages(p, fetch, fmt)
      + (if AsksPortfolio(p) then [PortfolioReply] else [])
      + (if AsksStrategy(p) then [StrategyReply] else [])
      + (if AsksIdentity(p) then [IdentityReply] else []);
    if m == [] then [Fallback] else m
  }

  /** The `prompt` endpoint. */
  method Prompt(payload: Payload, fetch: string -> MarketData, fmt: real -> string) returns (r: Response)
    ensures payload.Invalid? ==> r == Response(HttpBadRequest, Errors(payload.errors))
    ensures payload.Valid? ==>
      r == Response(HttpOk, Reply(Join(Replies(Lower(payload.prompt.GetOr("")), fetch, fmt), "\n\n")))
  {
    if payload.Invalid? {
      return Response(HttpBadRequest, Errors(payload.errors));
    }
    var promptText := Lower(payload.prompt.GetOr(""));
    var messages: seq<string> := [];
    if AsksMarket(promptText) {
      messages := ReportMarket(fetch, fmt);
    }
    assert messages == MarketMessages(promptText, fetch, fmt);
    ghost var matched := messages;
    if Contains(promptText, "portfolio") && Contains(promptText, "manage") {
      messages := messages + [PortfolioReply];
    }
    assert messages == matched + (if AsksPortfolio(promptText) then [PortfolioReply] else []);
    matched := messages;
    if Contains(promptText, "strategy") && Contains(promptText, "manage") {
      messages := messages + [StrategyReply];
    }
    assert messages == matched + (if AsksStrategy(promptText) then [StrategyReply] else []);
    matched := messages;
    if Contains(promptText, "what are you") {
      messages := messages + [IdentityReply];
    }
    assert messages == matched + (if AsksIdentity(promptText) then [IdentityReply] else []);
    if messages == [] {
      messages := messages + [Fallback];
    }
    assert messages == Replies(promptText, fetch, fmt);
    r := Response(HttpOk, Reply(Join(messages, "\n\n")));
  }

  // ---------------------------------------------------------------------------
  // Properties of the reply
  // ---------------------------------------------------------------------------

  /** Routing is case-insensitive: the lower-cased prompt asks about the market exactly
      when the prompt spells one of the market keywords in any mix of cases. */
  lemma MarketRoutingIgnoresCase(prompt: string)
    ensures AsksMarket(Lower(prompt)) <==>
      (exists i :: OccursIgnoringCaseAt(prompt, "market", i)) || (exists i :: OccursIgnoringCaseAt(prompt, "index", i))
      || (exists i :: OccursIgnoringCaseAt(prompt, "insight", i)) || (exists i :: OccursIgnoringCaseAt(prompt, "analysis", i))
  {
    assert IsLowerCase("market") && IsLowerCase("index") && IsLowerCase("insight") && IsLowerCase("analysis");
    ContainsLowerIff(prompt, "market");
    ContainsLowerIff(prompt, "index");
    ContainsLowerIff(prompt, "insight");
    ContainsLowerIff(prompt, "analysis");
  }

  /** The market block opens with the first index's name, hence with 'S'. */
  lemma MarketBlockStart(fetch: string -> MarketData, fmt: real -> string)
    ensures |MarketBlock(fetch, fmt)| > 0 && MarketBlock(fetch, fmt)[0] == 'S'
  {
  }

  /**
   * The fixed messages are told apart from the market block (which opens with
   * 'S') and from each other: by first character, and by length where the
   * first characters agree.
   */
  lemma ReplyStarts()
    ensures OverallPrefix[0] == 'O'
    ensures PortfolioReply[0] == 'T' && StrategyReply[0] == 'T' && |PortfolioReply| == 60 && |StrategyReply| == 58
    ensures IdentityReply[0] == 'I' && Fallback[0] == 'I' && |IdentityReply| == 100 && |Fallback| == 43
  {
  }

  /** The market block opens with 'S' and the overall line with 'O'. */
  lemma MessageStarts(fetch: string -> MarketData, fmt: real -> string, cs: seq<real>)
    requires |cs| > 0
    ensures MarketBlock(fetch, fmt)[0] == 'S'
    ensures OverallLine(cs, fmt)[0] == 'O'
  {
    MarketBlockStart(fetch, fmt);
    OverallGoodIff(cs, fmt);
    ReplyStarts();
  }

  /** The fallback is the whole reply exactly when no keyword rule matched. */
  lemma FallbackIff(p: string, fetch: string -> MarketData, fmt: real -> string)
    ensures Replies(p, fetch, fmt) == [Fallback] <==> AsksNothing(p)
    ensures AsksNothing(p) ==> Join(Replies(p, fetch, fmt), "\n\n") == Fallback
  {
    var cs := Changes(Outcomes(fetch));
    ReplyStarts();
    MarketBlockStart(fetch, fmt);
    if |cs| > 0 {
      MessageStarts(fetch, fmt, cs);
    }
  }

  /** The reply opens with the market block exactly when the prompt asks about the market. */
  lemma MarketBlockIff(p: string, fetch: string -> MarketData, fmt: real -> string)
    ensures |Replies(p, fetch, fmt)| > 0
    ensures Replies(p, fetch, fmt)[0] == MarketBlock(fetch, fmt) <==> AsksMarket(p)
  {
    MarketBlockStart(fetch, fmt);
    ReplyStarts();
  }

  /**
   * When the market is asked about, the message after the block is the overall
   * verdict exactly when some index's change could be computed.
   */
  lemma OverallIff(p: string, fetch: string -> MarketData, fmt: real -> string)
    requires AsksMarket(p)
    ensures (|Replies(p, fetch, fmt)| > 1 && OverallPrefix <= Replies(p, fetch, fmt)[1]) <==>
      exists i :: 0 <= i < |Indexes| && Outcomes(fetch)[i].Moved?
  {
    var cs := Changes(Outcomes(fetch));
    ChangesNonEmptyIff(Outcomes(fetch));
    if |cs| > 0 {
      OverallGoodIff(cs, fmt);
    }
    ReplyStarts();
  }

  /** The kinds of message a reply can hold are pairwise different. */
  lemma MessagesDistinct(fetch: string -> MarketData, fmt: real -> string)
    ensures MarketBlock(fetch, fmt) !in {PortfolioReply, StrategyReply, IdentityReply, Fallback}
    ensures |Changes(Outcomes(fetch))| > 0 ==>
      OverallLine(Changes(Outcomes(fetch)), fmt) !in {PortfolioReply, StrategyReply, IdentityReply, Fallback}
    ensures PortfolioReply != StrategyReply && PortfolioReply != IdentityReply && PortfolioReply != Fallback
    ensures StrategyReply != IdentityReply && StrategyReply != Fallback && IdentityReply != Fallback
  {
    ReplyStarts();
    MarketBlockStart(fetch, fmt);
    var cs := Changes(Outcomes(fetch));
    if |cs| > 0 {
      MessageStarts(fetch, fmt, cs);
      var o := OverallLine(cs, fmt);
      assert o[0] != PortfolioReply[0] && o[0] != StrategyReply[0];
      assert o[0] != IdentityReply[0] && o[0] != Fallback[0];
    }
    var m := MarketBlock(fetch, fmt);
    assert m[0] != PortfolioReply[0] && m[0] != StrategyReply[0];
    assert m[0] != IdentityReply[0] && m[0] != Fallback[0];
  }

  /** The portfolio help reply is present exactly when the prompt asks to manage a portfolio. */
  lemma PortfolioReplyIff(p: string, fetch: string -> MarketData, fmt: real -> string)
    ensures PortfolioReply in Replies(p, fetch, fmt) <==> AsksPortfolio(p)
  {
    MessagesDistinct(fetch, fmt);
    var m := MarketMessages(p, fetch, fmt)
      + (if AsksPortfolio(p) then [PortfolioReply] else [])
      + (if AsksStrategy(p) then [StrategyReply] else [])
      + (if AsksIdentity(p) then [IdentityReply] else []);
    assert PortfolioReply !in MarketMessages(p, fetch, fmt);
    assert PortfolioReply in m <==> AsksPortfolio(p);
  }

  /** The strategy help reply is present exactly when the prompt asks to manage a strategy. */
  lemma StrategyReplyIff(p: string, fetch: string -> MarketData, fmt: real -> string)
    ensures StrategyReply in Replies(p, fetch, fmt) <==> AsksStrategy(p)
  {
    MessagesDistinct(fetch, fmt);
    var m := MarketMessages(p, fetch, fmt)
      + (if AsksPortfolio(p) then [PortfolioReply] else [])
      + (if AsksStrategy(p) then [StrategyReply] else [])
      + (if AsksIdentity(p) then [IdentityReply] else []);
    assert StrategyReply !in MarketMessages(p, fetch, fmt);
    assert StrategyReply in m <==> AsksStrategy(p);
  }

  /** The self-description is present exactly when the prompt asks "what are you". */
  lemma IdentityReplyIff(p: string, fetch: string -> MarketData, fmt: real -> string)
    ensures IdentityReply in Replies(p, fetch, fmt) <==> AsksIdentity(p)
  {
    MessagesDistinct(fetch, fmt);
    var m := MarketMessages(p, fetch, fmt)
      + (if AsksPortfolio(p) then [PortfolioReply] else [])
      + (if AsksStrategy(p) then [StrategyReply] else [])
      + (if AsksIdentity(p) then [IdentityReply] else []);
    assert IdentityReply !in MarketMessages(p, fetch, fmt);
    assert IdentityReply in m <==> AsksIdentity(p);
  }
}
