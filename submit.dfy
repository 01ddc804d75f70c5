/**
 The result panel of the page's first form (the submit handler registered on
 `DOMContentLoaded` in static/app.js): once the service has answered, the
 panel shows the Eve verdict, the delivery verdict, what Alice sent and what
 Bob received, and the BB84 figures. It is rebuilt from the response alone.
 */
module SubmitView {
  import opened Wrappers
  import opened Strings
  import opened Session

  // The verdict literals are split after the colour only so that proofs can name its first character.
  const STYLE_COLOR := "<span style=\"color:"
  const BOLD := "font-weight:bold;\">"
  const EVE_ALERT := STYLE_COLOR + "red;" + BOLD + "Eavesdropping Detected! (QBER: "
  const EVE_CLEAR := STYLE_COLOR + "green;" + BOLD + "No Eavesdropping Detected (QBER: "
  const QBER_CLOSE := "%)</span>"
  const DELIVERED_SECURELY := STYLE_COLOR + "green;" + BOLD + "Message delivered securely to Bob!</span>"
  const DELIVERY_FAILED := STYLE_COLOR + "orange;" + BOLD + "Message corrupted or incomplete.</span>"
  const NOT_RECONSTRUCTED := "<i>(not enough bits to reconstruct)</i>"

  /** `eveStatus`: the red alert when Eve was detected, the green all-clear otherwise, both with the QBER. */
  function EveStatusHtml(data: Response, fixed2: real -> string): string
  {
    (if data.eveDetected then EVE_ALERT else EVE_CLEAR) + fixed2(data.qber * 100.0) + QBER_CLOSE
  }

  /** `deliveryStatus`: chosen by the strict comparison `delivered_message === original_message`. */
  function DeliveryStatusHtml(data: Response): string
  {
    if data.deliveredMessage == Some(data.originalMessage) then DELIVERED_SECURELY else DELIVERY_FAILED
  }

  /** `data.delivered_message || '<i>…</i>'`: the fallback replaces a missing or empty message. */
  function BobReceivedHtml(data: Response): string
  {
    if Delivered(data.deliveredMessage) then data.deliveredMessage.value else NOT_RECONSTRUCTED
  }

  const INDENT := "            "
  const DETAIL_INDENT := "                "
  const STATUS_DIV := "<div style=\"margin-bottom:10px;\">"

  /** A verdict line of the panel: the verdict in its own `<div>`. */
  function StatusLine(status: string): string
  {
    INDENT + STATUS_DIV + status + "</div>\n"
  }

  /** A labelled line of the panel: the bold label, the value, then a line break. */
  function LabelledLine(indent: string, caption: string, value: string): string
  {
    indent + (caption + value) + "<br>\n"
  }

  /** The lines of the panel's template literal, in order. */
  function ResultParts(data: Response, fixed2: real -> string): seq<string>
  {
    [ "\n",
      StatusLine(EveStatusHtml(data, fixed2)),
      StatusLine(DeliveryStatusHtml(data)),
      LabelledLine(INDENT, "<b>Alice sent:</b> ", data.originalMessage),
      LabelledLine(INDENT, "<b>Bob received:</b> ", BobReceivedHtml(data)),
      INDENT + "<details style=\"margin-top:10px;\"><summary>Show BB84 Details</summary>\n",
      LabelledLine(DETAIL_INDENT, "<b>Total bits sent:</b> ", NatToDecimal(data.totalBits)),
      LabelledLine(DETAIL_INDENT, "<b>Sifted key length:</b> ", NatToDecimal(data.siftedKeyLength)),
      LabelledLine(DETAIL_INDENT, "<b>Final shared key (Alice):</b> ", Join(data.aliceKey, " ")),
      LabelledLine(DETAIL_INDENT, "<b>Final shared key (Bob):</b> ", Join(data.bobKey, " ")),
      INDENT + "</details>\n",
      "        " ]
  }

  /** The panel's HTML after the response has arrived. */
  function ResultHtml(data: Response, fixed2: real -> string): string
  {
    Concat(ResultParts(data, fixed2))
  }

  /**
   The Eve verdict starts with the red alert exactly when the response says
   Eve was detected, and either verdict shows the QBER percentage.
   */
  lemma EveStatusShowsVerdict(data: Response, fixed2: real -> string)
    ensures var r := EveStatusHtml(data, fixed2);
      |EVE_ALERT| <= |r| && r[..|EVE_ALERT|] == EVE_ALERT <==> data.eveDetected
    ensures Contains(EveStatusHtml(data, fixed2), fixed2(data.qber * 100.0) + QBER_CLOSE)
  {
    var r := EveStatusHtml(data, fixed2);
    var q := fixed2(data.qber * 100.0) + QBER_CLOSE;
    var n := |STYLE_COLOR|;
    if data.eveDetected {
      assert r == EVE_ALERT + q;
      ContainsInfix(EVE_ALERT, q, "");
      assert EVE_ALERT + q + "" == r;
    } else {
      assert r == EVE_CLEAR + q;
      assert r[n] == EVE_CLEAR[n] == (STYLE_COLOR + "green;")[n] == 'g';
      assert EVE_ALERT[n] == (STYLE_COLOR + "red;")[n] == 'r';
      ContainsInfix(EVE_CLEAR, q, "");
      assert EVE_CLEAR + q + "" == r;
    }
  }

  /** "Delivered securely" is shown exactly when the delivered text is the original text. */
  lemma DeliveryStatusSecureIff(data: Response)
    ensures DeliveryStatusHtml(data) == DELIVERED_SECURELY <==> data.deliveredMessage == Some(data.originalMessage)
  {
    var n := |STYLE_COLOR|;
    assert DELIVERED_SECURELY[n] == (STYLE_COLOR + "green;")[n] == 'g';
    assert DELIVERY_FAILED[n] == (STYLE_COLOR + "orange;")[n] == 'o';
  }

  /**
   Bob's line shows the delivered text when there is one, the fallback
   otherwise; a secure delivery of a non-empty message therefore shows the
   original, while a secure delivery of the empty message shows the fallback.
   */
  lemma BobReceivedFallback(data: Response)
    ensures BobReceivedHtml(data) == NOT_RECONSTRUCTED <==> !Delivered(data.deliveredMessage) || data.deliveredMessage.value == NOT_RECONSTRUCTED
    ensures Delivered(data.deliveredMessage) ==> BobReceivedHtml(data) == data.deliveredMessage.value
    ensures DeliveryStatusHtml(data) == DELIVERED_SECURELY && data.originalMessage != "" ==>
              BobReceivedHtml(data) == data.originalMessage
    ensures DeliveryStatusHtml(data) == DELIVERED_SECURELY && data.originalMessage == "" ==>
              BobReceivedHtml(data) == NOT_RECONSTRUCTED
  {
    DeliveryStatusSecureIff(data);
  }

  /** The panel shows both verdicts, the sent text and Bob's line, each after its label. */
  lemma ResultShowsStatuses(data: Response, fixed2: real -> string)
    ensures Contains(ResultHtml(data, fixed2), EveStatusHtml(data, fixed2))
    ensures Contains(ResultHtml(data, fixed2), DeliveryStatusHtml(data))
    ensures Contains(ResultHtml(data, fixed2), "<b>Alice sent:</b> " + data.originalMessage)
    ensures Contains(ResultHtml(data, fixed2), "<b>Bob received:</b> " + BobReceivedHtml(data))
  {
    var parts := ResultParts(data, fixed2);
    var html := Concat(parts);
    var eve, delivery := EveStatusHtml(data, fixed2), DeliveryStatusHtml(data);
    var sent := "<b>Alice sent:</b> " + data.originalMessage;
    var received := "<b>Bob received:</b> " + BobReceivedHtml(data);
    ConcatContainsPart(parts, 1);
    ContainsInfix(INDENT + STATUS_DIV, eve, "</div>\n");
    ContainsTransitive(html, parts[1], eve);
    ConcatContainsPart(parts, 2);
    ContainsInfix(INDENT + STATUS_DIV, delivery, "</div>\n");
    ContainsTransitive(html, parts[2], delivery);
    ConcatContainsPart(parts, 3);
    ContainsInfix(INDENT, sent, "<br>\n");
    ContainsTransitive(html, parts[3], sent);
    ConcatContainsPart(parts, 4);
    ContainsInfix(INDENT, received, "<br>\n");
    ContainsTransitive(html, parts[4], received);
  }
}
