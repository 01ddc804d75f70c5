/**
 The chat-style client session of static/app.js: two message feeds (Alice's
 and Bob's), the combined log, the chart of the last 20 error-rate samples,
 the message counter with its three statistics lines, and the handlers of the
 four send buttons and of the clear button.

 The network round trip is the boundary of the model: `SendMessage` takes the
 already parsed response, and `HandleSend` takes the service as a function
 from request to response. `toLocaleTimeString()` is the `timeLabel`
 argument; `(x*100).toFixed(2)` is the client's `fixed2` formatter applied to
 `x * 100`. Feeds and the log hold the text or HTML of their entries, newest
 first, as the DOM does after `prepend`.
 */
module Session {
  import opened Wrappers
  import opened Strings
  import opened StepFormatter

  /** How many samples the error-rate chart keeps. */
  const CAPACITY := 20

  datatype Party = Alice | Bob

  function Name(p: Party): string
  {
    match p
    case Alice => "Alice"
    case Bob => "Bob"
  }

  function Counterpart(p: Party): Party
  {
    match p
    case Alice => Bob
    case Bob => Alice
  }

  /** The parsed JSON answer of `POST /api/message`. */
  datatype Response = Response(
    originalMessage: string,
    deliveredMessage: Option<string>,
    totalBits: nat,
    siftedKeyLength: nat,
    aliceKey: seq<string>,
    bobKey: seq<string>,
    qber: real,
    eveDetected: bool,
    steps: Option<seq<Step>>)

  /** The JSON body `{ message, eavesdrop, encrypted, sender }` of a send. */
  datatype Request = Request(message: string, eavesdrop: bool, encrypted: bool, sender: Party)

  /** One completed send: what was sent, the service's answer, and the time it was charted at. */
  datatype Exchange = Exchange(sender: Party, message: string, encrypted: bool, data: Response, timeLabel: string)

  /** `if (data.delivered_message)`: both `null` and the empty string are falsy. */
  predicate Delivered(d: Option<string>)
  {
    d.Some? && d.value != ""
  }

  /** The line the sender sees in their own feed. */
  const YOU := "You"
  const ENCRYPTED_NOTE := " (encrypted)"
  const DECRYPTED_NOTE := " (decrypted)"
  const COLON := ": "
  const CORRUPTED := ": (message corrupted)"

  function OwnLine(encrypted: bool, message: string): string
  {
    YOU + (if encrypted then ENCRYPTED_NOTE else "") + COLON + message
  }

  /** The line the counterpart sees: the delivered text, or the corruption placeholder. */
  function PeerLine(sender: Party, encrypted: bool, delivered: Option<string>): string
  {
    if Delivered(delivered) then
      Name(sender) + (if encrypted then DECRYPTED_NOTE else "") + COLON + delivered.value
    else
      Name(sender) + CORRUPTED
  }

  /** The line an exchange adds to party `p`'s feed. */
  function FeedLine(p: Party, e: Exchange): string
  {
    if e.sender == p then OwnLine(e.encrypted, e.message)
    else PeerLine(e.sender, e.encrypted, e.data.deliveredMessage)
  }

  function QberText(data: Response, fixed2: real -> string): string
  {
    fixed2(data.qber * 100.0)
  }

  const BOLD_OPEN := "<b>"
  const ARROW := " → "
  const BOLD_CLOSE := "</b>"
  const ENCRYPTED_TAG := " [encrypted]"
  const QBER_LABEL := "<br>QBER: "
  const EVE_LABEL := "% — Eve: "
  const DETAILS_OPEN := "<details class=\"mt-2\"><summary>Show detailed steps</summary><div class=\"mt-2\">"
  const DETAILS_CLOSE := "</div></details>"

  /** `logHtml`: direction, encryption marker, message, QBER and Eve verdict. */
  function LogHeadline(e: Exchange, fixed2: real -> string): string
  {
    BOLD_OPEN + Name(e.sender) + ARROW + Name(Counterpart(e.sender)) + BOLD_CLOSE
      + (if e.encrypted then ENCRYPTED_TAG else "") + COLON + e.message
      + QBER_LABEL + QberText(e.data, fixed2) + EVE_LABEL + (if e.data.eveDetected then "Yes" else "No")
  }

  function DetailsBlock(stepsHtml: string): string
  {
    DETAILS_OPEN + stepsHtml + DETAILS_CLOSE
  }

  /**
   The log entry of an exchange: the headline, followed by the collapsible
   trace when the response carries a `steps` field (even an empty one).
   */
  function LogEntry(e: Exchange, fixed2: real -> string): string
  {
    var h := LogHeadline(e, fixed2);
    if e.data.steps.Some? then h + DetailsBlock(StepsHtml(e.data.steps, fixed2)) else h
  }

  /**
   A log entry always starts with its headline; it is longer than the headline
   exactly when the response has `steps`, and the rest is then the details
   block around the rendered trace.
   */
  lemma LogEntryShape(e: Exchange, fixed2: real -> string)
    ensures var h := LogHeadline(e, fixed2); |h| <= |LogEntry(e, fixed2)| && LogEntry(e, fixed2)[..|h|] == h
    ensures |LogEntry(e, fixed2)| > |LogHeadline(e, fixed2)| <==> e.data.steps.Some?
    ensures e.data.steps.Some? ==>
              LogEntry(e, fixed2)[|LogHeadline(e, fixed2)|..] == DetailsBlock(StepsHtml(e.data.steps, fixed2))
  {
    var h := LogHeadline(e, fixed2);
    if e.data.steps.Some? {
      var d := DetailsBlock(StepsHtml(e.data.steps, fixed2));
      assert LogEntry(e, fixed2) == h + d;
      assert |d| > 0;
    }
  }

  /**
   Party `p`'s feed after the exchanges `h` (oldest first): one line per
   exchange, newest first, so the k-th line comes from the k-th newest exchange.
   */
  function FeedView(p: Party, h: seq<Exchange>): (r: seq<string>)
    ensures |r| == |h|
  {
    seq(|h|, k requires 0 <= k < |h| => FeedLine(p, h[|h| - 1 - k]))
  }

  /** The combined log after the exchanges `h`: one entry per exchange, newest first. */
  function LogView(h: seq<Exchange>, fixed2: real -> string): (r: seq<string>)
    ensures |r| == |h|
  {
    seq(|h|, k requires 0 <= k < |h| => LogEntry(h[|h| - 1 - k], fixed2))
  }

  /** The time labels of the exchanges, oldest first. */
  function LabelSeries(h: seq<Exchange>): (r: seq<string>)
    ensures |r| == |h|
  {
    seq(|h|, i requires 0 <= i < |h| => h[i].timeLabel)
  }

  /** The charted QBER percentages of the exchanges, oldest first. */
  function DataSeries(h: seq<Exchange>, fixed2: real -> string): (r: seq<string>)
    ensures |r| == |h|
  {
    seq(|h|, i requires 0 <= i < |h| => QberText(h[i].data, fixed2))
  }

  function NewestFirst(vs: seq<string>): (r: seq<string>)
    ensures |r| == |vs|
    ensures forall i :: 0 <= i < |vs| ==> r[i] == vs[|vs| - 1 - i]
    decreases |vs|
  {
    if vs == [] then [] else [vs[|vs| - 1]] + NewestFirst(vs[..|vs| - 1])
  }

  /** What the chart shows after the samples `vs`: the 20 most recent ones, newest first. */
  function WindowView(vs: seq<string>): (r: seq<string>)
    ensures |r| == if |vs| <= CAPACITY then |vs| else CAPACITY
    ensures forall i :: 0 <= i < |r| ==> r[i] == vs[|vs| - 1 - i]
  {
    var n := NewestFirst(vs);
    if |n| <= CAPACITY then n else n[..CAPACITY]
  }

  /**
   One chart update, `unshift` followed by `pop` when the window overflows:
   the new sample goes in front, the others keep their order, and a full
   window loses exactly its oldest (last) sample.
   */
  function WindowPush(w: seq<string>, x: string): (r: seq<string>)
    ensures |r| == if |w| < CAPACITY then |w| + 1 else |w|
    ensures r[0] == x
    ensures |w| < CAPACITY ==> r == [x] + w
    ensures |w| == CAPACITY ==> r == [x] + w[..CAPACITY - 1]
    ensures |w| <= CAPACITY ==> |r| <= CAPACITY
    ensures r[1..] == w[..|r| - 1]
  {
    var u := [x] + w;
    if |u| > CAPACITY then u[..|u| - 1] else u
  }

  /** Pushing a sample into the window of the earlier samples gives the window of all of them. */
  lemma WindowPushView(vs: seq<string>, x: string)
    ensures WindowPush(WindowView(vs), x) == WindowView(vs + [x])
  {
    var vs' := vs + [x];
    assert vs'[..|vs'| - 1] == vs;
    assert NewestFirst(vs') == [x] + NewestFirst(vs);
  }

  /**
   The chart after the samples `samples` (oldest first), replayed one
   `sendMessage` at a time: each sample goes through `WindowPush`.
   */
  function ChartAfter(samples: seq<string>): (r: seq<string>)
    ensures |r| == if |samples| <= CAPACITY then |samples| else CAPACITY
    decreases |samples|
  {
    if samples == [] then [] else WindowPush(ChartAfter(samples[..|samples| - 1]), samples[|samples| - 1])
  }

  /** Replaying the pushes leaves exactly the 20 most recent samples, newest first. */
  lemma {:induction false} ChartShowsLatest(samples: seq<string>)
    ensures ChartAfter(samples) == WindowView(samples)
    decreases |samples|
  {
    if samples != [] {
      var vs := samples[..|samples| - 1];
      ChartShowsLatest(vs);
      WindowPushView(vs, samples[|samples| - 1]);
      assert vs + [samples[|samples| - 1]] == samples;
    }
  }

  /** One more exchange adds one line in front of each feed and of the log, and one chart sample. */
  lemma ViewsSnoc(h: seq<Exchange>, e: Exchange, fixed2: real -> string)
    ensures FeedView(Alice, h + [e]) == [FeedLine(Alice, e)] + FeedView(Alice, h)
    ensures FeedView(Bob, h + [e]) == [FeedLine(Bob, e)] + FeedView(Bob, h)
    ensures LogView(h + [e], fixed2) == [LogEntry(e, fixed2)] + LogView(h, fixed2)
    ensures ChartAfter(LabelSeries(h + [e])) == WindowPush(ChartAfter(LabelSeries(h)), e.timeLabel)
    ensures ChartAfter(DataSeries(h + [e], fixed2))
         == WindowPush(ChartAfter(DataSeries(h, fixed2)), QberText(e.data, fixed2))
  {
    var h' := h + [e];
    assert h'[..|h'| - 1] == h;
    assert LabelSeries(h')[..|h|] == LabelSeries(h);
    assert DataSeries(h', fixed2)[..|h|] == DataSeries(h, fixed2);
  }

  const EVE_OPEN := "Eve status: <span class=\"font-semibold\">"
  const LAST_OPEN := "Last QBER: <span class=\"font-semibold\">"
  const COUNT_OPEN := "Messages exchanged: <span class=\"font-semibold\">"
  const SPAN_CLOSE := "</span>"
  const PERCENT_SPAN_CLOSE := "%</span>"

  function EveStatHtml(eveDetected: bool): string
  {
    EVE_OPEN + (if eveDetected then "Detected" else "None") + SPAN_CLOSE
  }

  function LastQberHtml(qberText: string): string
  {
    LAST_OPEN + qberText + PERCENT_SPAN_CLOSE
  }

  function CountHtml(n: nat): string
  {
    COUNT_OPEN + NatToDecimal(n) + SPAN_CLOSE
  }

  /** The counter line determines the counter: different counts never display alike. */
  lemma CountHtmlInjective(m: nat, n: nat)
    requires CountHtml(m) == CountHtml(n)
    ensures m == n
  {
    var a, b := CountHtml(m), CountHtml(n);
    assert a[|COUNT_OPEN|..|a| - 7] == NatToDecimal(m);
    assert b[|COUNT_OPEN|..|b| - 7] == NatToDecimal(n);
    NatToDecimalInjective(m, n);
  }

  /** The line the clear button writes is the counter line of the count 0. */
  lemma CountHtmlZero()
    ensures CountHtml(0) == COUNT_OPEN + "0" + SPAN_CLOSE
  {
    assert NatToDecimal(0) == "0";
  }

  /** One of the four send buttons: who sends, and whether the send is marked encrypted. */
  datatype SendButton = AliceSend | AliceSendAnon | BobSend | BobSendAnon

  function ButtonSender(b: SendButton): Party
  {
    if b == AliceSend || b == AliceSendAnon then Alice else Bob
  }

  function ButtonEncrypts(b: SendButton): bool
  {
    b == AliceSendAnon || b == BobSendAnon
  }

  /** The page state the client script owns. */
  class Client {
    /** `(x).toFixed(2)` as used on percentages. */
    const fixed2: real -> string

    var aliceInput: string
    var bobInput: string
    var eavesdrop: bool

    var chartLabels: seq<string>
    var chartData: seq<string>

    var msgCount: nat
    var statEve: string
    var statLast: string
    var statCount: string

    var aliceFeed: seq<string>
    var bobFeed: seq<string>
    var log: seq<string>

    /** The exchanges completed since the page was loaded or last cleared, oldest first. */
    ghost var history: seq<Exchange>

    ghost predicate Valid()
      reads this
      ensures Valid() ==> |aliceFeed| == |bobFeed| == |log| == msgCount
      ensures Valid() ==> |chartLabels| == |chartData| <= CAPACITY
    {
      && msgCount == |history|
      && aliceFeed == FeedView(Alice, history)
      && bobFeed == FeedView(Bob, history)
      && log == LogView(history, fixed2)
      && chartLabels == ChartAfter(LabelSeries(history))
      && chartData == ChartAfter(DataSeries(history, fixed2))
    }

    function Feed(p: Party): seq<string>
      reads this
    {
      match p
      case Alice => aliceFeed
      case Bob => bobFeed
    }

    function Input(p: Party): string
      reads this
    {
      match p
      case Alice => aliceInput
      case Bob => bobInput
    }

    /** The page after `wireUI`: empty inputs, feeds, log and chart, counter at 0. */
    constructor (fixed2: real -> string)
      ensures Valid() && history == []
      ensures this.fixed2 == fixed2
      ensures aliceInput == "" && bobInput == "" && !eavesdrop
      ensures aliceFeed == [] && bobFeed == [] && log == []
      ensures chartLabels == [] && chartData == [] && msgCount == 0
    {
      this.fixed2 := fixed2;
      aliceInput, bobInput, eavesdrop := "", "", false;
      chartLabels, chartData := [], [];
      msgCount := 0;
      statEve, statLast, statCount := "", "", "";
      aliceFeed, bobFeed, log := [], [], [];
      history := [];
    }

    /** The chart update of `sendMessage`: `unshift` both series, `pop` both past 20 labels. */
    method PushChartSample(timeLabel: string, value: string)
      requires |chartLabels| == |chartData|
      modifies this`chartLabels, this`chartData
      ensures chartLabels == WindowPush(old(chartLabels), timeLabel)
      ensures chartData == WindowPush(old(chartData), value)
    {
      chartLabels := [timeLabel] + chartLabels;
      chartData := [value] + chartData;
      if |chartLabels| > CAPACITY {
        chartLabels := chartLabels[..|chartLabels| - 1];
        chartData := chartData[..|chartData| - 1];
      }
    }

    /** `updateStats`: overwrite the Eve and last-QBER lines, count one more message. */
    method UpdateStats(eveDetected: bool, qber: real)
      modifies this`statEve, this`statLast, this`msgCount, this`statCount
      ensures msgCount == old(msgCount) + 1
      ensures statEve == EveStatHtml(eveDetected)
      ensures statLast == LastQberHtml(fixed2(qber * 100.0))
      ensures statCount == CountHtml(msgCount)
    {
      statEve := EveStatHtml(eveDetected);
      statLast := LastQberHtml(fixed2(qber * 100.0));
      msgCount := msgCount + 1;
      statCount := CountHtml(msgCount);
    }

    /** `addLog`: the entry goes in front of the combined log. */
    method AddLog(entry: string)
      modifies this`log
      ensures log == [entry] + old(log)
    {
      log := [entry] + log;
    }

    /** `addAliceMessage`: the line goes in front of Alice's feed. */
    method AddAliceMessage(text: string)
      modifies this`aliceFeed
      ensures aliceFeed == [text] + old(aliceFeed)
    {
      aliceFeed := [text] + aliceFeed;
    }

    /** `addBobMessage`: the line goes in front of Bob's feed. */
    method AddBobMessage(text: string)
      modifies this`bobFeed
      ensures bobFeed == [text] + old(bobFeed)
    {
      bobFeed := [text] + bobFeed;
    }

    /**
     The delivery part of `sendMessage`: the sender's own line goes in front of
     the sender's feed, the delivered text (or the corruption placeholder) in
     front of the counterpart's feed.
     */
    method DeliverLines(e: Exchange)
      modifies this`aliceFeed, this`bobFeed
      ensures aliceFeed == [FeedLine(Alice, e)] + old(aliceFeed)
      ensures bobFeed == [FeedLine(Bob, e)] + old(bobFeed)
    {
      if e.sender == Alice {
        AddAliceMessage(OwnLine(e.encrypted, e.message));
        AddBobMessage(PeerLine(Alice, e.encrypted, e.data.deliveredMessage));
      } else {
        AddBobMessage(OwnLine(e.encrypted, e.message));
        AddAliceMessage(PeerLine(Bob, e.encrypted, e.data.deliveredMessage));
      }
    }

    /** The log part of `sendMessage`: the headline, with the rendered trace when `data.steps` is set. */
    method LogExchange(e: Exchange)
      modifies this`log
      ensures log == [LogEntry(e, fixed2)] + old(log)
    {
      var headline := LogHeadline(e, fixed2);
      if e.data.steps.Some? {
        var stepsHtml := RenderSteps(e.data.steps, fixed2);
        AddLog(headline + DetailsBlock(stepsHtml));
      } else {
        AddLog(headline);
      }
    }

    /**
     What `sendMessage` does once the response has arrived: chart, statistics,
     then one line in each feed and one log entry, in the source's order.
     */
    method ApplyExchange(e: Exchange)
      requires |chartLabels| == |chartData|
      modifies this`chartLabels, this`chartData, this`statEve, this`statLast, this`msgCount, this`statCount
      modifies this`aliceFeed, this`bobFeed, this`log
      ensures chartLabels == WindowPush(old(chartLabels), e.timeLabel)
      ensures chartData == WindowPush(old(chartData), QberText(e.data, fixed2))
      ensures msgCount == old(msgCount) + 1
      ensures statEve == EveStatHtml(e.data.eveDetected)
      ensures statLast == LastQberHtml(QberText(e.data, fixed2))
      ensures statCount == CountHtml(msgCount)
      ensures aliceFeed == [FeedLine(Alice, e)] + old(aliceFeed)
      ensures bobFeed == [FeedLine(Bob, e)] + old(bobFeed)
      ensures log == [LogEntry(e, fixed2)] + old(log)
    {
      PushChartSample(e.timeLabel, QberText(e.data, fixed2));
      UpdateStats(e.data.eveDetected, e.data.qber);
      DeliverLines(e);
      LogExchange(e);
    }

    /**
     `sendMessage` after the response has arrived: the exchange joins the
     history, so every feed, the log and the chart show one more entry, and
     the statistics describe this exchange. Nothing else changes.
     */
    method SendMessage(sender: Party, message: string, encrypted: bool, data: Response, timeLabel: string)
      requires Valid()
      modifies this
      ensures Valid()
      ensures history == old(history) + [Exchange(sender, message, encrypted, data, timeLabel)]
      ensures msgCount == old(msgCount) + 1
      ensures Feed(sender) == [OwnLine(encrypted, message)] + old(Feed(sender))
      ensures Feed(Counterpart(sender))
           == [PeerLine(sender, encrypted, data.deliveredMessage)] + old(Feed(Counterpart(sender)))
      ensures log == [LogEntry(Exchange(sender, message, encrypted, data, timeLabel), fixed2)] + old(log)
      ensures chartLabels == WindowPush(old(chartLabels), timeLabel)
      ensures chartData == WindowPush(old(chartData), QberText(data, fixed2))
      ensures statEve == EveStatHtml(data.eveDetected)
      ensures statLast == LastQberHtml(QberText(data, fixed2))
      ensures statCount == CountHtml(msgCount)
      ensures aliceInput == old(aliceInput) && bobInput == old(bobInput) && eavesdrop == old(eavesdrop)
    {
      var e := Exchange(sender, message, encrypted, data, timeLabel);
      ghost var h := history + [e];
      ViewsSnoc(history, e, fixed2);
      ApplyExchange(e);
      history := h;
    }

    /**
     A click on one of the four send buttons: an empty input returns at once
     and leaves everything as it was; otherwise one request is sent, its
     response applied, and the sender's input emptied.
     */
    method HandleSend(button: SendButton, service: Request -> Response, timeLabel: string)
      returns (sent: Option<Request>)
      requires Valid()
      modifies this
      ensures Valid()
      ensures old(Input(ButtonSender(button))) == "" ==> sent == None && unchanged(this)
      ensures old(Input(ButtonSender(button))) != "" ==>
                && sent == Some(Request(old(Input(ButtonSender(button))), old(eavesdrop),
                                        ButtonEncrypts(button), ButtonSender(button)))
                && history == old(history) + [Exchange(ButtonSender(button), old(Input(ButtonSender(button))),
                                                       ButtonEncrypts(button), service(sent.value), timeLabel)]
                && msgCount == old(msgCount) + 1
                && statEve == EveStatHtml(service(sent.value).eveDetected)
                && statLast == LastQberHtml(QberText(service(sent.value), fixed2))
                && statCount == CountHtml(msgCount)
                && Input(ButtonSender(button)) == ""
                && Input(Counterpart(ButtonSender(button))) == old(Input(Counterpart(ButtonSender(button))))
                && eavesdrop == old(eavesdrop)
    {
      var sender := ButtonSender(button);
      var msg := Input(sender);
      if msg == "" {
        return None;
      }
      var request := Request(msg, eavesdrop, ButtonEncrypts(button), sender);
      sent := Some(request);
      var data := service(request);
      SendMessage(sender, msg, ButtonEncrypts(button), data, timeLabel);
      if sender == Alice {
        aliceInput := "";
      } else {
        bobInput := "";
      }
    }

    /**
     The clear button: empties both feeds, the log and the chart, and resets the
     counter and its line. The Eve-status and last-QBER lines keep their text.
     */
    method Clear()
      modifies this
      ensures Valid() && history == []
      ensures aliceFeed == [] && bobFeed == [] && log == []
      ensures chartLabels == [] && chartData == []
      ensures msgCount == 0 && statCount == COUNT_OPEN + "0" + SPAN_CLOSE
      ensures statEve == old(statEve) && statLast == old(statLast)
      ensures aliceInput == old(aliceInput) && bobInput == old(bobInput) && eavesdrop == old(eavesdrop)
    {
      aliceFeed := [];
      bobFeed := [];
      log := [];
      chartLabels := [];
      chartData := [];
      msgCount := 0;
      statCount := COUNT_OPEN + "0" + SPAN_CLOSE;
      history := [];
      assert LogView(history, fixed2) == [] && FeedView(Alice, history) == [] && FeedView(Bob, history) == [];
    }
  }
}
