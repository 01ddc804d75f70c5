# QuantumHype client session and BB84 sifting, in Dafny

This project models two parts of a small BB84 quantum-key-distribution
demonstrator.

The first is the browser client, `static/app.js`. It is a chat page with two
parties, Alice and Bob. Each send goes to the simulation service, and its
answer updates the page:

- Alice's feed and Bob's feed, newest first;
- the combined log, whose entries may carry the rendered protocol trace;
- a chart of the last 20 error-rate (QBER) samples, newest first;
- a message counter and two statistics lines.

A clear button empties the feeds, the log and the chart and resets the
counter. The page's first form shows a result panel built from a single
response.

The second is the key-sifting and error-estimation step of `bb84` in
`main.py`.

Modules:

- `Wrappers`: `Option`.
- `Strings`:
  - fragment concatenation (`html += …`) and `Array.prototype.join`;
  - decimal rendering of counters, with its round trip;
  - the substring relation `Contains`, used to state what a rendering shows.
- `StepFormatter`: `renderSteps`. It has a closed `Step` datatype for the nine
  known tags and an `Unknown(tag, dump)` case for any other tag. The
  specification function `StepsHtml` is matched by the loop method
  `RenderSteps`.
- `Session`:
  - the class `Client` holds the page state as `seq<string>` fields, plus a
    ghost `history` of the exchanges since the last clear;
  - `Valid()` ties each feed, the log, both chart series and the counter to a
    view of that history;
  - methods model `addLog`/`addAliceMessage`/`addBobMessage`, `updateStats`,
    the chart update, `sendMessage`, the four send buttons and the clear button.
- `SubmitView`: the status selection and the result panel of the first form's
  submit handler.
- `Sifting`:
  - the sifting loop, the mismatch count and the QBER of `main.py`;
  - a model of that loop as the surrounding code feeds it, with the
    measurement results possibly missing (see Findings).

Formatting the client does not define itself is left uninterpreted:

- `(x*100).toFixed(2)` is a formatter `fixed2: real -> string`, applied to
  `x * 100`.
- `new Date().toLocaleTimeString()` is a `timeLabel` argument.
- `JSON.stringify(s)` of an unknown step is the step's `dump` field.

Values that the service sends and the client only interpolates are carried as
their display text. These are bits, bases, byte values, characters and error
counts.

The network round trip is the boundary of the model:

- `SendMessage` receives the parsed response;
- `HandleSend` receives the service as a function from request to response.

JavaScript truthiness is written out:

- `delivered_message` is falsy when it is absent or `""` (`Session.Delivered`);
- `data.steps` is truthy whenever present, even when it is an empty list.

## Model

| member | source | states |
|---|---|---|
| Sifting.AgreeingIndices | main.py:63-64 | the agreeing indices are increasing and below `num_bits`; they are exactly the positions where Alice's and Bob's bases agree |
| Sifting.SiftedIsRestriction | main.py:63-66 | each sifted key has one entry per agreeing index; its k-th entry is the input at the k-th agreeing index, in index order |
| Sifting.Mismatches | main.py:69 | the mismatch count is at most the length of each key |
| Sifting.NoMismatchesIffEqual | main.py:69 | two keys of equal length have zero mismatches if and only if they are equal |
| Sifting.Qber | main.py:70 | the QBER is 0 for an empty sifted key; otherwise it is errors divided by the length; it lies in [0, 1] and is 0 exactly when there are no errors |
| Sifting.Sifted | main.py:63-66 | definition of a sifted key; see `Sifting.SiftedIsRestriction` |
| Sifting.SiftedBobAsWritten | main.py:61-66 | definition of Bob's sifted key with possibly missing results, `None` for the IndexError; see `Sifting.EmptyResultsFailSifting` and `Sifting.FullResultsSiftCorrectly` |
| Sifting.SiftAndEstimate | main.py:60-70 | the loop returns Alice's bits and Bob's results restricted to the agreeing positions; both keys have the same length, at most `num_bits`; errors is their mismatch count and the QBER is as in `Qber` |
| Sifting.NoDisturbanceNoErrors | main.py:69-70 | if Bob's result equals Alice's bit at every agreeing position, the sifted keys are equal and no error is counted |
| Sifting.DisturbanceIsCounted | main.py:69-70 | one agreeing position where Bob's result differs from Alice's bit makes the error count positive |
| Sifting.EmptyResultsFailSifting | main.py:61-66 | with the empty `results` that the script produces, sifting fails once any pair of bases agrees |
| Sifting.FullResultsSiftCorrectly | main.py:61-66 | with a result for every qubit, the loop as written never fails and yields `Sifted` of the results |
| StepFormatter.StepHtml | static/app.js:95-131 | definition: the nine templates and the generic block; see `StepFormatter.ReconstructionFallback`, `StepFormatter.ReconstructionShowsEntry`, `StepFormatter.UnknownStepShowsTagAndDump` |
| StepFormatter.WellFormed | static/app.js:95-131 | definition: an `Unknown` step never carries one of the nine known tags; see `StepFormatter.TagSelectsBranch` |
| StepFormatter.TagSelectsBranch | static/app.js:95-131 | for a well-formed step the tag is a known one exactly when the step is not rendered generically |
| StepFormatter.Fragments | static/app.js:94-132 | the blocks the loop appends: exactly one per step, in input order |
| StepFormatter.StepsHtml | static/app.js:92 | an absent or empty trace renders as "" |
| StepFormatter.RenderSteps | static/app.js:91-134 | the accumulating loop returns `StepsHtml` of its input |
| StepFormatter.StepsHtmlAt | static/app.js:93-133 | the rendering of a trace is the rendering of the steps before step k, then step k's block, then the rest |
| StepFormatter.StepsHtmlNonEmpty | static/app.js:92-133 | a trace with at least one step never renders as "" |
| StepFormatter.ReconstructionFallback | static/app.js:119-128 | a reconstruction step renders the "Not enough bits" block if and only if its list is missing or empty |
| StepFormatter.ReconItemShowsValueAndChar | static/app.js:123 | one byte's list item shows `value=` with the value and `char='…'` with the character |
| StepFormatter.ReconstructionShowsEntry | static/app.js:120-125 | a non-empty reconstruction block contains every entry's list item, with its value and its character |
| StepFormatter.UnknownStepShowsTagAndDump | static/app.js:129-130 | a step with any other tag renders as the bold tag followed by its field dump |
| Strings.Join | static/app.js:98 | definition of `join(sep)`; see `Strings.JoinEmptySeparator` |
| Strings.NatToDecimal | static/app.js:66 | the text is non-empty decimal digits with no leading zero except for 0; see `Strings.DecimalRoundTrip` |
| Strings.JoinEmptySeparator | static/app.js:123 | `bits.join('')` is the plain concatenation of the bits |
| Strings.DecimalRoundTrip | static/app.js:66 | the decimal text of the counter reads back as the counter |
| Session.OwnLine | static/app.js:154 | definition of the sender's own line (also app.js:167); see `Session.Client.DeliverLines` |
| Session.PeerLine | static/app.js:155-159 | definition of the counterpart's line, delivered text or corruption placeholder (also app.js:168-172); see `Session.Client.DeliverLines` |
| Session.FeedLine | static/app.js:153-172 | definition of the line an exchange adds to one party's feed; see `Session.ViewsSnoc` and `Session.Client.SendMessage` |
| Session.LogHeadline | static/app.js:160 | definition of `logHtml` (also app.js:173); see `Session.LogEntryShape` |
| Session.LogEntry | static/app.js:160-165 | definition of the log entry, with the details block when `steps` is set; see `Session.LogEntryShape` |
| Session.EveStatHtml | static/app.js:63 | definition of the Eve-status line; see `Session.Client.UpdateStats` |
| Session.LastQberHtml | static/app.js:64 | definition of the last-QBER line; see `Session.Client.UpdateStats` |
| Session.CountHtml | static/app.js:66 | definition of the counter line; see `Session.CountHtmlInjective` and `Session.CountHtmlZero` |
| Session.WindowView | static/app.js:145-147 | the chart after some samples holds the last 20 of them (all of them when fewer), newest first |
| Session.WindowPush | static/app.js:145-147 | one update puts the new sample first; the window grows by one below 20 and keeps its length at 20; the other samples keep their order; a full window loses exactly its oldest sample |
| Session.WindowPushView | static/app.js:145-147 | pushing a sample into the window of the earlier samples gives the window of all the samples |
| Session.ChartAfter | static/app.js:145-147 | replaying the updates never holds more than 20 samples |
| Session.ChartShowsLatest | static/app.js:145-147 | replaying the updates one send at a time leaves exactly the 20 most recent samples, newest first |
| Session.LogEntryShape | static/app.js:160-165 | a log entry starts with its headline; it is longer than the headline if and only if the response has `steps`; the rest is then the details block around the rendered trace |
| Session.ViewsSnoc | static/app.js:150-179 | one more exchange puts one line in front of each feed and one entry in front of the log, and pushes one sample into each chart series |
| Session.CountHtmlInjective | static/app.js:66 | different counts never produce the same counter line |
| Session.CountHtmlZero | static/app.js:221 | the line the clear button writes is the counter line for 0 |
| Session.Client.Valid | static/app.js:144-179 | the invariant: the counter is the number of sends since the last clear; each feed, the log and both chart series are the views of those sends |
| Session.Client.constructor | static/app.js:36-38 | the page starts with empty feeds, log and chart, the counter at 0 and an empty history |
| Session.Client.PushChartSample | static/app.js:145-147 | `unshift` into both series, then `pop` both past 20 labels, is `WindowPush` on each series |
| Session.Client.UpdateStats | static/app.js:62-67 | the counter goes up by exactly one; the Eve line, the last-QBER line and the counter line show this response and the new count |
| Session.Client.AddLog | static/app.js:69-75 | the entry goes in front of the log, and the rest is unchanged |
| Session.Client.AddAliceMessage | static/app.js:77-82 | the line goes in front of Alice's feed, and the rest is unchanged |
| Session.Client.AddBobMessage | static/app.js:83-88 | the line goes in front of Bob's feed, and the rest is unchanged |
| Session.Client.DeliverLines | static/app.js:153-172 | the sender's feed gets its "You" line; the counterpart's feed gets the delivered line, or the corruption placeholder when nothing was delivered |
| Session.Client.LogExchange | static/app.js:160-178 | the log gets exactly one new entry in front, the `LogEntry` of the exchange |
| Session.Client.ApplyExchange | static/app.js:144-179 | chart, statistics, both feeds and the log each change by exactly one step of the send, in the source's order |
| Session.Client.SendMessage | static/app.js:136-180 | keeps `Valid()` and extends the history by the exchange; the counter goes up by one; the sender's feed gets its own line and the counterpart's feed the delivered line; the log gets one entry and the chart one sample; the inputs are unchanged |
| Session.Client.HandleSend | static/app.js:185-212 | an empty input returns at once and changes nothing; otherwise exactly one request goes out with the input, the Eve toggle, the button's encryption flag and its sender; the history grows by its exchange, the counter by one, the three statistics lines describe its response, and only the sender's input is emptied |
| Session.Client.Clear | static/app.js:213-222 | both feeds, the log and the chart are emptied; the counter is 0 and its line shows 0; the Eve and last-QBER lines and the inputs are unchanged; `Valid()` holds with an empty history |
| SubmitView.EveStatusHtml | static/app.js:15-17 | definition of `eveStatus`; see `SubmitView.EveStatusShowsVerdict` |
| SubmitView.DeliveryStatusHtml | static/app.js:18-20 | definition of `deliveryStatus`; see `SubmitView.DeliveryStatusSecureIff` |
| SubmitView.BobReceivedHtml | static/app.js:25 | definition of Bob's line with its fallback; see `SubmitView.BobReceivedFallback` |
| SubmitView.ResultHtml | static/app.js:21-32 | definition of the panel; see `SubmitView.ResultShowsStatuses` |
| SubmitView.EveStatusShowsVerdict | static/app.js:15-17 | the red alert is shown if and only if Eve was detected; either verdict shows the QBER percentage |
| SubmitView.DeliveryStatusSecureIff | static/app.js:18-20 | "delivered securely" is shown if and only if the delivered message is exactly the original message |
| SubmitView.BobReceivedFallback | static/app.js:25 | Bob's line shows the delivered text when it is truthy and the fallback otherwise; a secure delivery of an empty message therefore shows the fallback |
| SubmitView.ResultShowsStatuses | static/app.js:21-32 | the panel shows both verdicts, "Alice sent:" followed by the original message, and "Bob received:" followed by Bob's line |

## Left out

- DOM mechanics (`getElementById`, `createElement`, `innerHTML`, `textContent`, `prepend`). A feed, the log and a statistics line are the sequence or text they display.
- `fetch`, `resp.json()` and `async`/`await`. Overlapping requests and input edits made while a request is pending are not modelled; a send is applied atomically.
- The Chart.js object, `initChart` and `qberChart.update()`. Only the label and data series are kept. The global `qberData` is declared but never used, so it is not modelled.
- `toFixed(2)`, `toLocaleTimeString()` and `JSON.stringify` are uninterpreted: a formatter, an argument and a field respectively.
- Numbers sent by the service (bits, byte values, error counts) are carried as their display text. JavaScript's `String(number)` is modelled only for non-negative integers below 10^21, by `Strings.NatToDecimal`. The QBER is a `real`; the log lines, the statistics line, the chart series and the trace show the text the uninterpreted `fixed2` makes of it.
- The initial statistics texts, input values and Eve toggle come from index.html, which is not part of this model. `Session.Client.constructor` starts the statistics texts and both inputs as "" and the toggle as off.
- The submit handler's "Sending message..." placeholder and its reading of the form fields. `SubmitView` describes only the panel built from the response.
- The simulation service is a parameter of `HandleSend`. Its answers are inputs, not computed.
- Malformed responses: `Response` and `Step` cannot hold a record that misses a field its tag calls for; an `Unknown` value that carries a known tag (ruled out by `StepFormatter.WellFormed`) is rendered generically, and the rendering lemmas cover it too. A known step tag without its fields (say `bob_bases` without `bases`) makes `renderSteps` throw at app.js:112. That happens after the chart, statistics and feeds were updated at app.js:145-159, so the update is partial and the input is not cleared at app.js:190. The model does not represent that outcome.
- Strings.NatToDecimal, Session.Client.UpdateStats: counters and rendered integers are JavaScript doubles, but the model uses unbounded naturals. It assumes fewer than 2^53 sends; past that, `msgCount += 1` (app.js:65) no longer changes the value, so `msgCount == old(msgCount) + 1` and `Valid()`'s `msgCount == |history|` would fail. It also assumes values below 10^21; from there on, `String(n)` (app.js:66, and the index and bit counts at app.js:102 and app.js:27-28) switches to exponent notation.
- Session.Client.HandleSend: the service is a total function. A rejected `fetch` or a failing `resp.json()` (app.js:138-143) changes no state and leaves the input uncleared (app.js:189-190). The model cannot express that outcome.
- Sifting.Qber: the QBER is an exact rational, not Python's floating-point `errors / len` (main.py:70). In floating point, `q * siftedLength == errors` does not always hold exactly.
- `main.py`:
  - the random draws and the Qiskit circuits, the simulator and Eve's measurements are not modelled; Alice's bits, both parties' bases and Bob's results are inputs;
  - also left out: the `print` calls, the two module-level runs and the Flask app pasted inside the preparation loop.
- Session.Client.Clear: the feature is described as resetting the statistics, but the code (static/app.js:213-221) resets only the counter line. The model follows the code: the Eve-status and last-QBER lines keep their text.

## Findings

| source | as written | input that shows it | evidently intended | confidence | as-written member | corrected member |
|---|---|---|---|---|---|---|
| main.py:61-66 | the preparation loop never appends to `qubits`, because the Flask app is pasted into its body at main.py:18-31; the measurement loop over `zip(qubits, bob_bases)` therefore leaves `results` empty, and `results[i]` raises IndexError at the first agreeing position | a call of `bb84` that reaches step 5 (the module-level runs at main.py:79-85 when the file is imported; run as a script, the Flask server started at main.py:30-31 blocks first unless no Alice basis is 1) with `alice_bases[i] == bob_bases[i]` for some `i`, e.g. `alice_bases = [0]`, `bob_bases = [0]` | one measurement result per qubit, so sifting reads `results[i]` for every `i < num_bits` | high, not executed | Sifting.EmptyResultsFailSifting | Sifting.FullResultsSiftCorrectly |
