/**
 * The chat screen of the analytics page: which chart a reply is drawn
 * with, the colours of pie slices, and the transcript `handleSend` builds
 * from a query and the analytics service's answer. The four suggested
 * prompts are followed end to end through the classifier and the chart
 * choice.
 */
module AnalyticsScreen {
  import opened Wrappers
  import Strings
  import AnalyticsService

  // ---------------------------------------------------------------------
  // Chart choice: `renderChart`
  // ---------------------------------------------------------------------

  datatype ChartKind = LineChart | PieChart | BarChart

  /** The words that select a line chart. */
  predicate AsksForLine(text: string) {
    Strings.Contains(text, "trend") || Strings.Contains(text, "over time")
  }

  /** The words that select a pie chart, when no line-chart word occurs. */
  predicate AsksForPie(text: string) {
    Strings.Contains(text, "distribution") || Strings.Contains(text, "sources")
  }

  /**
   * The chart `renderChart(data, text)` draws: the tests are case-sensitive
   * substring tests on the message text, and the line test comes first.
   */
  function ChartFor(text: string): (k: ChartKind)
    ensures k == LineChart <==> AsksForLine(text)
    ensures k == PieChart <==> !AsksForLine(text) && AsksForPie(text)
    ensures k == BarChart <==> !AsksForLine(text) && !AsksForPie(text)
  {
    if AsksForLine(text) then LineChart
    else if AsksForPie(text) then PieChart
    else BarChart
  }

  /** Only the text decides the chart: text asking for both a line and a pie gets a line. */
  lemma LineTakesPriority(text: string)
    requires AsksForLine(text) && AsksForPie(text)
    ensures ChartFor(text) == LineChart
  {
  }

  // ---------------------------------------------------------------------
  // Pie slice colours: `COLORS[index % COLORS.length]`
  // ---------------------------------------------------------------------

  const Colors := ["#FF5C28", "#10b981", "#f59e0b", "#ef4444"]

  /** The fill of slice `index`: the palette is cycled, so every index has a colour. */
  function SliceColor(index: nat): (c: string)
    ensures c == Colors[index % |Colors|]
    ensures c in Colors
  {
    Colors[index % |Colors|]
  }

  /** A pie cell: its key (the row's dimension) and its fill. */
  datatype Cell = Cell(key: string, fill: string)

  /** The cells of a pie chart, one per report row. */
  function PieCells(rows: seq<AnalyticsService.Row>): (cells: seq<Cell>)
    ensures |cells| == |rows|
    ensures forall i :: 0 <= i < |rows| ==>
      cells[i].key == rows[i].dimension && cells[i].fill == SliceColor(i)
  {
    seq(|rows|, i requires 0 <= i < |rows| => Cell(rows[i].dimension, SliceColor(i)))
  }

  /** Colours repeat every four slices, and any four consecutive slices have four different colours. */
  lemma SliceColorsCycle(i: nat, j: nat)
    ensures SliceColor(i + 4) == SliceColor(i)
    ensures i < j < i + 4 ==> SliceColor(i) != SliceColor(j)
  {
  }

  // ---------------------------------------------------------------------
  // Messages
  // ---------------------------------------------------------------------

  datatype Role = User | Assistant

  /**
   * A chat message. The identifier and the timestamp are left out; the
   * visualization, always of type 'chart', carries the query result.
   */
  datatype ChatMessage = ChatMessage(
    content: string,
    role: Role,
    visualization: Option<AnalyticsService.QueryResult>)

  const Apology := "Sorry, I encountered an error processing your query. Please try again."

  /** The text of a successful reply: "Here's " + lower-cased title + ":\n" + description. */
  function ReplyText(title: string, description: string): string {
    "Here's " + Strings.ToLower(title) + ":\n" + description
  }

  /** Every word of the lower-cased title and of the description occurs in the reply text. */
  lemma ReplyTextIncludes(title: string, description: string, w: string)
    ensures Strings.Contains(Strings.ToLower(title), w) ==> Strings.Contains(ReplyText(title, description), w)
    ensures Strings.Contains(description, w) ==> Strings.Contains(ReplyText(title, description), w)
  {
    var lead := "Here's " + Strings.ToLower(title);
    Strings.ContainsInConcat("Here's ", Strings.ToLower(title), w);
    Strings.ContainsInConcat(lead, ":\n", w);
    Strings.ContainsInConcat(lead + ":\n", description, w);
  }

  /**
   * A reply whose lower-cased title or description asks for a line chart
   * is drawn as a line chart; one that asks for a pie is drawn as a line
   * or a pie, never as bars.
   */
  lemma ReplyTextChart(title: string, description: string)
    ensures AsksForLine(Strings.ToLower(title)) || AsksForLine(description) ==>
      ChartFor(ReplyText(title, description)) == LineChart
    ensures AsksForPie(Strings.ToLower(title)) || AsksForPie(description) ==>
      ChartFor(ReplyText(title, description)) != BarChart
  {
    ReplyTextIncludes(title, description, "trend");
    ReplyTextIncludes(title, description, "over time");
    ReplyTextIncludes(title, description, "distribution");
    ReplyTextIncludes(title, description, "sources");
  }

  /**
   * The assistant message answering `message`. When the hook has no
   * service yet (`serviceReady` false) or the query is not recognised,
   * the query throws and the answer is the apology without a chart.
   */
  function ReplyTo(serviceReady: bool, message: string): (m: ChatMessage)
    ensures m.role == Assistant
    ensures m.visualization.Some? <==>
      serviceReady && AnalyticsService.ProcessNaturalLanguageQuery(message).Success?
    ensures m.visualization.Some? ==>
      && m.visualization.value == AnalyticsService.ProcessNaturalLanguageQuery(message).value
      && m.content == ReplyText(m.visualization.value.title, m.visualization.value.description)
    ensures m.visualization.None? ==> m.content == Apology
  {
    if !serviceReady then ChatMessage(Apology, Assistant, None)
    else match AnalyticsService.ProcessNaturalLanguageQuery(message)
      case Success(data) => ChatMessage(ReplyText(data.title, data.description), Assistant, Some(data))
      case Failure(_) => ChatMessage(Apology, Assistant, None)
  }

  /** The chart drawn under a message: only messages with a visualization get one. */
  function RenderedChart(m: ChatMessage): (k: Option<ChartKind>)
    ensures k.Some? <==> m.visualization.Some?
    ensures k.Some? ==> k.value == ChartFor(m.content)
  {
    if m.visualization.Some? then Some(ChartFor(m.content)) else None
  }

  /** The messages one send appends: none for blank input, else the user's message and one reply. */
  function Exchange(serviceReady: bool, message: string): (ms: seq<ChatMessage>)
    ensures Strings.IsBlank(message) <==> ms == []
    ensures !Strings.IsBlank(message) ==>
      && |ms| == 2
      && ms[0] == ChatMessage(message, User, None)
      && ms[1] == ReplyTo(serviceReady, message)
  {
    if Strings.IsBlank(message) then []
    else [ChatMessage(message, User, None), ReplyTo(serviceReady, message)]
  }

  /** A send appends nothing exactly when the input is made only of white space. */
  lemma ExchangeIgnoresWhitespace(serviceReady: bool, message: string)
    ensures Exchange(serviceReady, message) == [] <==>
      forall i :: 0 <= i < |message| ==> Strings.IsJsSpace(message[i])
  {
    Strings.BlankIffAllSpace(message);
  }

  /** An assistant message is the apology without a chart or the reply text of its chart's data. */
  predicate WellFormedReply(m: ChatMessage) {
    && m.role == Assistant
    && (m.visualization.None? ==> m.content == Apology)
    && (m.visualization.Some? ==>
          m.content == ReplyText(m.visualization.value.title, m.visualization.value.description))
  }

  /** A user message: non-blank text and no chart. */
  predicate UserTurn(m: ChatMessage) {
    m.role == User && m.visualization.None? && !Strings.IsBlank(m.content)
  }

  /**
   * A transcript built by sends alone: empty, or a transcript followed by
   * one turn, a `UserTurn` and a well-formed reply.
   */
  predicate Transcript(ms: seq<ChatMessage>)
    decreases |ms|
  {
    if |ms| == 0 then true
    else
      && |ms| >= 2
      && Transcript(ms[..|ms| - 2])
      && UserTurn(ms[|ms| - 2])
      && WellFormedReply(ms[|ms| - 1])
  }

  /** A transcript has an even number of messages. */
  lemma {:induction false} TranscriptEven(ms: seq<ChatMessage>)
    requires Transcript(ms)
    ensures |ms| % 2 == 0
    decreases |ms|
  {
    if |ms| > 0 {
      TranscriptEven(ms[..|ms| - 2]);
    }
  }

  /** Message `i` of a transcript is a user turn at an even position and a well-formed reply at an odd one. */
  lemma {:induction false} TranscriptAt(ms: seq<ChatMessage>, i: int)
    requires Transcript(ms) && 0 <= i < |ms|
    ensures i % 2 == 0 ==> UserTurn(ms[i])
    ensures i % 2 == 1 ==> WellFormedReply(ms[i])
    decreases |ms|
  {
    var front := ms[..|ms| - 2];
    TranscriptEven(front);
    if i < |front| {
      TranscriptAt(front, i);
      assert ms[i] == front[i];
    }
  }

  /**
   * In a transcript user and assistant messages alternate, starting with
   * a user message: every even position holds a `UserTurn` and every odd
   * position a well-formed reply.
   */
  lemma TranscriptAlternates(ms: seq<ChatMessage>)
    requires Transcript(ms)
    ensures |ms| % 2 == 0
    ensures forall i :: 0 <= i < |ms| && i % 2 == 0 ==> UserTurn(ms[i])
    ensures forall i :: 0 <= i < |ms| && i % 2 == 1 ==> WellFormedReply(ms[i])
  {
    TranscriptEven(ms);
    forall i | 0 <= i < |ms| {
      TranscriptAt(ms, i);
    }
  }

  /** Appending a user turn and a well-formed reply keeps a transcript a transcript. */
  lemma TranscriptAppendTurn(ms: seq<ChatMessage>, user: ChatMessage, reply: ChatMessage)
    requires Transcript(ms) && UserTurn(user) && WellFormedReply(reply)
    ensures Transcript(ms + [user, reply])
  {
    assert (ms + [user, reply])[..|ms|] == ms;
  }

  /** Appending one send's messages keeps a transcript a transcript. */
  lemma TranscriptGrows(ms: seq<ChatMessage>, serviceReady: bool, message: string)
    requires Transcript(ms)
    ensures Transcript(ms + Exchange(serviceReady, message))
  {
    var ex := Exchange(serviceReady, message);
    if ex == [] {
      assert ms + ex == ms;
    } else {
      assert ex == [ex[0], ex[1]];
      TranscriptAppendTurn(ms, ex[0], ex[1]);
    }
  }

  /** A non-blank send appends the user's turn and its reply, and the transcript stays one. */
  lemma SendAppendsTurn(ms: seq<ChatMessage>, serviceReady: bool, message: string)
    requires Transcript(ms) && !Strings.IsBlank(message)
    ensures ms + [ChatMessage(message, User, None)] + [ReplyTo(serviceReady, message)]
         == ms + Exchange(serviceReady, message)
    ensures Transcript(ms + Exchange(serviceReady, message))
  {
    var user, reply := ChatMessage(message, User, None), ReplyTo(serviceReady, message);
    TranscriptAppendTurn(ms, user, reply);
    AppendTwice(ms, user, reply);
  }

  lemma AppendTwice(ms: seq<ChatMessage>, a: ChatMessage, b: ChatMessage)
    ensures ms + [a] + [b] == ms + [a, b]
  {
  }

  // ---------------------------------------------------------------------
  // The chat component's state
  // ---------------------------------------------------------------------

  /**
   * The state of the `Analytics` component: the transcript, the text in
   * the input box and the loading flag. `serviceReady` says whether the
   * analytics hook has created its service.
   */
  class ChatSession {
    var messages: seq<ChatMessage>
    var input: string
    var loading: bool
    const serviceReady: bool

    predicate Valid()
      reads this
    {
      Transcript(messages)
    }

    constructor(serviceReady: bool)
      ensures this.serviceReady == serviceReady
      ensures messages == [] && input == "" && !loading
      ensures Valid()
    {
      this.serviceReady := serviceReady;
      messages := [];
      input := "";
      loading := false;
    }

    /** The input box's `onChange`. */
    method SetInput(text: string)
      modifies this
      ensures input == text
      ensures messages == old(messages) && loading == old(loading)
    {
      input := text;
    }

    /**
     * `handleSend(message)`: blank input changes nothing; otherwise the
     * user's message is appended, the input box cleared, the reply
     * appended and the loading flag lowered again.
     */
    method HandleSend(message: string)
      requires Valid()
      modifies this
      ensures Valid()
      ensures messages == old(messages) + Exchange(serviceReady, message)
      ensures Exchange(serviceReady, message) == [] ==> input == old(input) && loading == old(loading)
      ensures Exchange(serviceReady, message) != [] ==> input == "" && !loading
    {
      if Strings.IsBlank(message) {
        assert messages + Exchange(serviceReady, message) == messages;
        return;
      }
      var user := ChatMessage(message, User, None);
      var reply := ReplyTo(serviceReady, message);
      SendAppendsTurn(messages, serviceReady, message);
      loading := true;
      messages := messages + [user];
      input := "";
      messages := messages + [reply];
      loading := false;
    }

    /** Enter in the input box, or the send button: `handleSend(input)`. */
    method Submit()
      requires Valid()
      modifies this
      ensures Valid()
      ensures messages == old(messages) + Exchange(serviceReady, old(input))
      ensures Exchange(serviceReady, old(input)) == [] ==> input == old(input) && loading == old(loading)
      ensures Exchange(serviceReady, old(input)) != [] ==> input == "" && !loading
    {
      HandleSend(input);
    }
  }

  // ---------------------------------------------------------------------
  // The suggested prompts, end to end
  // ---------------------------------------------------------------------

  /** The sidebar's suggested queries, each written as two pieces to keep the proofs short. */
  const SuggestedPrompts := [
    "What's the trend in " + "user engagement over the last week?",
    "Show me the " + "traffic sources distribution",
    "Compare " + "conversion rates between devices",
    "What pages have the " + "highest bounce rates?"
  ]

  /** The chart each suggested prompt's reply is drawn with. */
  const ExpectedCharts := [LineChart, PieChart, BarChart, BarChart]

  /** The reply to a query recognised as pattern `k`. */
  function PatternReply(k: nat): (m: ChatMessage)
    requires k < |AnalyticsService.Patterns|
    ensures WellFormedReply(m) && m.visualization.Some?
    ensures m.visualization.value.title == AnalyticsService.Patterns[k].title
  {
    var p := AnalyticsService.Patterns[k];
    var data := AnalyticsService.QueryResult(AnalyticsService.MockData(p.typeName), p.title, p.description);
    ChatMessage(ReplyText(data.title, data.description), Assistant, Some(data))
  }

  /** The suggested prompts, lower-cased. */
  lemma LoweredPrompts(i: nat)
    requires i < |SuggestedPrompts|
    ensures Strings.ToLower(SuggestedPrompts[i]) == LoweredPrompt(i)
  {
    if i == 0 {
      FirstPromptLowered();
    } else if i == 1 {
      SecondPromptLowered();
    } else if i == 2 {
      ThirdPromptLowered();
    } else {
      FourthPromptLowered();
    }
  }

  lemma FirstPromptLowered()
    ensures Strings.ToLower("What's the trend in " + "user engagement over the last week?") == "what's the trend in " + "user engagement over the last week?"
  {
    LowerPieces("What's the trend in ", "what's the trend in ", "user engagement over the last week?");
  }

  lemma SecondPromptLowered()
    ensures Strings.ToLower("Show me the " + "traffic sources distribution") == "show me the " + "traffic sources distribution"
  {
    LowerPieces("Show me the ", "show me the ", "traffic sources distribution");
  }

  lemma ThirdPromptLowered()
    ensures Strings.ToLower("Compare " + "conversion rates between devices") == "compare " + "conversion rates between devices"
  {
    LowerPieces("Compare ", "compare ", "conversion rates between devices");
  }

  lemma FourthPromptLowered()
    ensures Strings.ToLower("What pages have the " + "highest bounce rates?") == "what pages have the " + "highest bounce rates?"
  {
    LowerPieces("What pages have the ", "what pages have the ", "highest bounce rates?");
  }

  function LoweredPrompt(i: nat): string
    requires i < |SuggestedPrompts|
  {
    [ "what's the trend in " + "user engagement over the last week?",
      "show me the " + "traffic sources distribution",
      "compare " + "conversion rates between devices",
      "what pages have the " + "highest bounce rates?" ][i]
  }

  /** Lower-casing a concatenation piece by piece. */
  lemma LowerPieces(a: string, lowA: string, b: string)
    requires Strings.ToLower(a) == lowA
    requires forall i :: 0 <= i < |b| ==> !Strings.IsUpper(b[i])
    ensures Strings.ToLower(a + b) == lowA + b
  {
    Strings.ToLowerAppend(a, b);
  }

  lemma FirstPromptRecognised()
    ensures Strings.Contains("what's the trend in " + "user engagement over the last week?", "user engagement")
  {
    assert Strings.MatchAt("user engagement over the last week?", "user engagement", 0);
    Strings.MatchAfter("what's the trend in ", "user engagement over the last week?", "user engagement", 0);
  }

  lemma SecondPromptRecognised()
    ensures !Strings.Contains("show me the " + "traffic sources distribution", "user engagement")
    ensures Strings.Contains("show me the " + "traffic sources distribution", "traffic sources")
  {
    Strings.NotContainsByMissingChar("show me the " + "traffic sources distribution", "user engagement", 7);
    assert Strings.MatchAt("traffic sources distribution", "traffic sources", 0);
    Strings.MatchAfter("show me the ", "traffic sources distribution", "traffic sources", 0);
  }

  lemma ThirdPromptRecognised()
    ensures !Strings.Contains("compare " + "conversion rates between devices", "user engagement")
    ensures !Strings.Contains("compare " + "conversion rates between devices", "traffic sources")
    ensures Strings.Contains("compare " + "conversion rates between devices", "conversion")
  {
    var s := "compare " + "conversion rates between devices";
    Strings.NotContainsByMissingChar(s, "user engagement", 0);
    Strings.NotContainsByMissingChar(s, "traffic sources", 3);
    assert Strings.MatchAt("conversion rates between devices", "conversion", 0);
    Strings.MatchAfter("compare ", "conversion rates between devices", "conversion", 0);
  }

  /** "conversion" would have to start at the only 'c' of the fourth prompt, which is followed by 'e'. */
  lemma FourthPromptLacksConversion()
    ensures !Strings.Contains("what pages have the " + "highest bounce rates?", "conversion")
  {
    Strings.NotContainsByAnchor("what pages have the " + "highest bounce rates?", "conversion", 0, map[32 := 0]);
  }

  lemma FourthPromptRecognised()
    ensures !Strings.Contains("what pages have the " + "highest bounce rates?", "user engagement")
    ensures !Strings.Contains("what pages have the " + "highest bounce rates?", "traffic sources")
    ensures !Strings.Contains("what pages have the " + "highest bounce rates?", "conversion")
    ensures Strings.Contains("what pages have the " + "highest bounce rates?", "bounce rate")
  {
    var s := "what pages have the " + "highest bounce rates?";
    Strings.NotContainsByMissingChar(s, "user engagement", 11);
    Strings.NotContainsByMissingChar(s, "traffic sources", 3);
    FourthPromptLacksConversion();
    assert Strings.MatchAt("highest bounce rates?", "bounce rate", 8);
    Strings.MatchAfter("what pages have the ", "highest bounce rates?", "bounce rate", 8);
  }

  /** Suggested prompt `i` is recognised as pattern `i`: the four prompts ask four different questions. */
  lemma SuggestedPromptRecognised(i: nat)
    requires i < |SuggestedPrompts|
    ensures AnalyticsService.IsFirstMatch(AnalyticsService.Patterns, Strings.ToLower(SuggestedPrompts[i]), i)
    ensures AnalyticsService.Classify(SuggestedPrompts[i]) == Some(AnalyticsService.Patterns[i])
  {
    LoweredPrompts(i);
    if i == 0 {
      FirstPromptRecognised();
    } else if i == 1 {
      SecondPromptRecognised();
    } else if i == 2 {
      ThirdPromptRecognised();
    } else {
      FourthPromptRecognised();
    }
    AnalyticsService.FirstMatchIs(AnalyticsService.Patterns, Strings.ToLower(SuggestedPrompts[i]), i);
  }

  /** The reply text of pattern `k`, with its title lower-cased. */
  function PatternReplyText(k: nat): string
    requires k < |AnalyticsService.Patterns|
  {
    [ "Here's " + "user engagement over time" + ":\n" + "Average session duration in minutes",
      "Here's " + "traffic sources distribution" + ":\n" + "Sessions by source",
      "Here's " + "conversion rates by device" + ":\n" + "Conversion rate (%)",
      "Here's " + "bounce rates by page" + ":\n" + "Bounce rate (%)" ][k]
  }

  lemma ReplyTexts(k: nat)
    requires k < |AnalyticsService.Patterns|
    ensures ReplyText(AnalyticsService.Patterns[k].title, AnalyticsService.Patterns[k].description)
         == PatternReplyText(k)
  {
    if k == 0 {
      FirstTitleLowered();
    } else if k == 1 {
      SecondTitleLowered();
    } else if k == 2 {
      ThirdTitleLowered();
    } else {
      FourthTitleLowered();
    }
  }

  lemma FirstTitleLowered()
    ensures Strings.ToLower("User Engagement Over Time") == "user engagement over time"
  {
  }

  lemma SecondTitleLowered()
    ensures Strings.ToLower("Traffic Sources Distribution") == "traffic sources distribution"
  {
  }

  lemma ThirdTitleLowered()
    ensures Strings.ToLower("Conversion Rates by Device") == "conversion rates by device"
  {
  }

  lemma FourthTitleLowered()
    ensures Strings.ToLower("Bounce Rates by Page") == "bounce rates by page"
  {
  }

  lemma FirstReplyDrawsLine()
    ensures AsksForLine(PatternReplyText(0))
  {
    var t := "Here's " + "user engagement over time" + ":\n" + "Average session duration in minutes";
    assert Strings.MatchAt(t, "over time", 23);
  }

  /** The only 'd' of the second reply starts "distribution", so "trend" cannot end there. */
  lemma SecondReplyLacksTrend()
    ensures !Strings.Contains("Here's " + "traffic sources distribution" + ":\n" + "Sessions by source", "trend")
  {
    Strings.NotContainsByAnchor("Here's " + "traffic sources distribution" + ":\n" + "Sessions by source", "trend", 4, map[23 := 0]);
  }

  lemma SecondReplyDrawsPie()
    ensures !AsksForLine(PatternReplyText(1))
    ensures AsksForPie(PatternReplyText(1))
  {
    var t := "Here's " + "traffic sources distribution" + ":\n" + "Sessions by source";
    SecondReplyLacksTrend();
    Strings.NotContainsByMissingChar(t, "over time", 1);
    assert Strings.MatchAt(t, "distribution", 23);
  }

  /** The only 'd' of the third reply ends "by device", not "trend". */
  lemma ThirdReplyLacksTrend()
    ensures !Strings.Contains("Here's " + "conversion rates by device" + ":\n" + "Conversion rate (%)", "trend")
  {
    Strings.NotContainsByAnchor("Here's " + "conversion rates by device" + ":\n" + "Conversion rate (%)", "trend", 4, map[27 := 0]);
  }

  lemma ThirdReplyDrawsBars()
    ensures !AsksForLine(PatternReplyText(2))
    ensures !AsksForPie(PatternReplyText(2))
  {
    var t := "Here's " + "conversion rates by device" + ":\n" + "Conversion rate (%)";
    ThirdReplyLacksTrend();
    Strings.NotContainsByMissingChar(t, "over time", 7);
    Strings.NotContainsByMissingChar(t, "distribution", 7);
    Strings.NotContainsByMissingChar(t, "sources", 2);
  }

  /** Both 's' of the fourth reply are followed by something other than 'o'. */
  lemma FourthReplyLacksSources()
    ensures !Strings.Contains("Here's " + "bounce rates by page" + ":\n" + "Bounce rate (%)", "sources")
  {
    Strings.NotContainsByAnchor("Here's " + "bounce rates by page" + ":\n" + "Bounce rate (%)", "sources", 0, map[5 := 1, 18 := 1]);
  }

  lemma FourthReplyDrawsBars()
    ensures !AsksForLine(PatternReplyText(3))
    ensures !AsksForPie(PatternReplyText(3))
  {
    var t := "Here's " + "bounce rates by page" + ":\n" + "Bounce rate (%)";
    Strings.NotContainsByMissingChar(t, "trend", 4);
    Strings.NotContainsByMissingChar(t, "over time", 1);
    Strings.NotContainsByMissingChar(t, "distribution", 0);
    FourthReplyLacksSources();
  }

  /** The reply text of pattern `k` selects the chart `ExpectedCharts[k]`. */
  lemma PatternReplyChart(k: nat)
    requires k < |AnalyticsService.Patterns|
    ensures ChartFor(PatternReply(k).content) == ExpectedCharts[k]
  {
    ReplyTexts(k);
    if k == 0 {
      FirstReplyDrawsLine();
    } else if k == 1 {
      SecondReplyDrawsPie();
    } else if k == 2 {
      ThirdReplyDrawsBars();
    } else {
      FourthReplyDrawsBars();
    }
  }

  /** A string whose first character is not white space is not blank. */
  lemma NotBlankFromFirstChar(s: string)
    requires |s| > 0 && !Strings.IsJsSpace(s[0])
    ensures !Strings.IsBlank(s)
  {
    Strings.BlankIffAllSpace(s);
  }

  /** A ready service answers suggested prompt `i` with the reply of pattern `i`. */
  lemma SuggestedPromptReply(i: nat)
    requires i < |SuggestedPrompts|
    ensures ReplyTo(true, SuggestedPrompts[i]) == PatternReply(i)
  {
    SuggestedPromptRecognised(i);
    AnalyticsService.QueryAnswersFirstMatch(SuggestedPrompts[i], i);
  }

  /**
   * Sending suggested prompt `i` to a ready service appends the prompt and
   * the reply of pattern `i`, drawn as a line, pie, bar and bar chart for
   * the four prompts in order.
   */
  lemma SuggestedPromptEndToEnd(i: nat)
    requires i < |SuggestedPrompts|
    ensures Exchange(true, SuggestedPrompts[i]) ==
      [ChatMessage(SuggestedPrompts[i], User, None), PatternReply(i)]
    ensures RenderedChart(PatternReply(i)) == Some(ExpectedCharts[i])
  {
    var prompt := SuggestedPrompts[i];
    assert prompt[0] in {'W', 'S', 'C'};
    NotBlankFromFirstChar(prompt);
    SuggestedPromptReply(i);
    PatternReplyChart(i);
  }
}
