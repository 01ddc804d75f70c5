/**
 The protocol-trace formatter of the client (`renderSteps`): each tagged step
 record returned by the simulation service becomes one `<div>` block of HTML,
 in the order the steps were given.

 Values the service sends and the client only interpolates (bits, basis
 names, states, byte values, characters, error counts) are carried as their
 display text. `(x*100).toFixed(2)` is the formatter parameter `fixed2`,
 applied to `x * 100`; `JSON.stringify(s)` of an unrecognised step is the
 `dump` field of `Unknown`.
 */
module StepFormatter {
  import opened Wrappers
  import opened Strings

  datatype Prepared = Prepared(bit: string, basis: string, state: string)

  datatype EveAction = EveAction(index: string, eveBasis: string, eveResult: string, resentState: string)

  datatype ReconByte = ReconByte(byteIndex: string, bits: seq<string>, value: string, ch: string)

  /** One step record of the trace; `Unknown` stands for any tag other than the nine below. */
  datatype Step =
    | TextToBits(text: string, bitString: string)
    | AliceBases(bases: seq<string>)
    | AlicePrepare(prepared: seq<Prepared>)
    | EveActions(actions: seq<EveAction>)
    | BobBases(bases: seq<string>)
    | BobResults(results: seq<string>)
    | Sifting(siftedIndices: seq<string>, aliceSifted: seq<string>, bobSifted: seq<string>)
    | Qber(errors: string, qber: real, eveDetected: bool)
    | Reconstruction(reconstruction: Option<seq<ReconByte>>)
    | Unknown(tag: string, dump: string)

  /** The `step` field of the record. */
  function Tag(s: Step): string
  {
    match s
    case TextToBits(_, _) => "text_to_bits"
    case AliceBases(_) => "alice_bases"
    case AlicePrepare(_) => "alice_prepare"
    case EveActions(_) => "eve_actions"
    case BobBases(_) => "bob_bases"
    case BobResults(_) => "bob_results"
    case Sifting(_, _, _) => "sifting"
    case Qber(_, _, _) => "qber"
    case Reconstruction(_) => "reconstruction"
    case Unknown(tag, _) => tag
  }

  /** The tags `renderSteps` has a template for. */
  const KNOWN_TAGS := {"text_to_bits", "alice_bases", "alice_prepare", "eve_actions", "bob_bases",
                       "bob_results", "sifting", "qber", "reconstruction"}

  /** A record as the service can send it: an `Unknown` step never carries one of the known tags. */
  predicate WellFormed(s: Step)
  {
    s.Unknown? ==> s.tag !in KNOWN_TAGS
  }

  /**
   For a well-formed step the tag alone selects the branch: the generic
   rendering is used exactly when the tag is not one of the nine known ones.
   */
  lemma TagSelectsBranch(s: Step)
    requires WellFormed(s)
    ensures Tag(s) in KNOWN_TAGS <==> !s.Unknown?
  {
  }

  const LIST_OPEN := "<ul class=\"list-disc pl-6\">"
  const RECON_HEAD := "<div><b>Reconstruction</b>:"
  // Split only so that proofs can name the character right after RECON_HEAD.
  const NOT_ENOUGH_BITS := RECON_HEAD + " Not enough bits" + " to reconstruct message</div>"

  /** JavaScript's rendering of a boolean in a template literal. */
  function BoolText(b: bool): string
  {
    if b then "true" else "false"
  }

  function PreparedItem(i: nat, p: Prepared): string
  {
    "<li>#" + NatToDecimal(i) + ": bit=" + p.bit + ", basis=" + p.basis + ", state=" + p.state + "</li>"
  }

  function EveItem(a: EveAction): string
  {
    "<li>#" + a.index + ": eve_basis=" + a.eveBasis + ", eve_result=" + a.eveResult
      + ", resent=" + a.resentState + "</li>"
  }

  function ReconItem(r: ReconByte): string
  {
    "<li>byte#" + r.byteIndex + ": bits=[" + Join(r.bits, "") + "], " + ("value=" + r.value)
      + ", " + ("char='" + r.ch + "'") + "</li>"
  }

  /** The list items of `prepared.forEach((p, i) => …)`, one per prepared qubit. */
  function PreparedItems(ps: seq<Prepared>): seq<string>
  {
    seq(|ps|, i requires 0 <= i < |ps| => PreparedItem(i, ps[i]))
  }

  function EveItems(as_: seq<EveAction>): seq<string>
  {
    seq(|as_|, i requires 0 <= i < |as_| => EveItem(as_[i]))
  }

  function ReconItems(rs: seq<ReconByte>): seq<string>
  {
    seq(|rs|, i requires 0 <= i < |rs| => ReconItem(rs[i]))
  }

  /** The block of a `reconstruction` step: the list of bytes, or the fallback line. */
  function ReconstructionHtml(entries: Option<seq<ReconByte>>): string
  {
    if entries.Some? && |entries.value| > 0 then
      RECON_HEAD + LIST_OPEN + Concat(ReconItems(entries.value)) + "</ul></div>"
    else
      NOT_ENOUGH_BITS
  }

  /** The block of one step; the branch is chosen by the step's tag. */
  function StepHtml(s: Step, fixed2: real -> string): string
  {
    match s
    case TextToBits(text, bitString) =>
      "<div><b>Text → Bits</b>: \"" + text + "\" → <code>" + bitString + "</code></div>"
    case AliceBases(bases) =>
      "<div><b>Alice bases</b>: [" + Join(bases, ", ") + "]</div>"
    case AlicePrepare(prepared) =>
      "<div><b>Alice prepared states</b>:" + LIST_OPEN + Concat(PreparedItems(prepared)) + "</ul></div>"
    case EveActions(actions) =>
      "<div><b>Eve actions</b>:" + LIST_OPEN + Concat(EveItems(actions)) + "</ul></div>"
    case BobBases(bases) =>
      "<div><b>Bob bases</b>: [" + Join(bases, ", ") + "]</div>"
    case BobResults(results) =>
      "<div><b>Bob measurement results</b>: [" + Join(results, ", ") + "]</div>"
    case Sifting(indices, aliceSifted, bobSifted) =>
      "<div><b>Sifting</b>: indices kept [" + Join(indices, ", ") + "], Alice sifted=["
        + Join(aliceSifted, ", ") + "], Bob sifted=[" + Join(bobSifted, ", ") + "]</div>"
    case Qber(errors, qber, eveDetected) =>
      "<div><b>QBER</b>: errors=" + errors + ", qber=" + fixed2(qber * 100.0) + "% — eve_detected="
        + BoolText(eveDetected) + "</div>"
    case Reconstruction(entries) => ReconstructionHtml(entries)
    case Unknown(tag, dump) =>
      "<div>" + ("<b>" + tag + "</b>: " + dump) + "</div>"
  }

  /** The blocks of the steps, one per step, in input order. */
  function Fragments(steps: seq<Step>, fixed2: real -> string): (r: seq<string>)
    ensures |r| == |steps|
  {
    seq(|steps|, i requires 0 <= i < |steps| => StepHtml(steps[i], fixed2))
  }

  /** What `renderSteps` returns: "" for an absent or empty trace, else all blocks in order. */
  function StepsHtml(steps: Option<seq<Step>>, fixed2: real -> string): (r: string)
    ensures steps.None? || steps.value == [] ==> r == ""
  {
    match steps
    case None => ""
    case Some(ss) => Concat(Fragments(ss, fixed2))
  }

  /** `renderSteps`: the `for … of` loop accumulating one block per step into `html`. */
  method RenderSteps(steps: Option<seq<Step>>, fixed2: real -> string) returns (html: string)
    ensures html == StepsHtml(steps, fixed2)
  {
    if steps.None? || |steps.value| == 0 {
      return "";
    }
    var ss := steps.value;
    html := "";
    for i := 0 to |ss|
      invariant html == Concat(Fragments(ss[..i], fixed2))
    {
      assert Fragments(ss[..i + 1], fixed2) == Fragments(ss[..i], fixed2) + [StepHtml(ss[i], fixed2)];
      ConcatSnoc(Fragments(ss[..i], fixed2), StepHtml(ss[i], fixed2));
      html := html + StepHtml(ss[i], fixed2);
    }
    assert ss[..|ss|] == ss;
  }

  /**
   Exactly one block per step, in input order: the rendering of a trace is the
   rendering of the steps before step k, then step k's block, then the rest.
   */
  lemma StepsHtmlAt(ss: seq<Step>, k: nat, fixed2: real -> string)
    requires k < |ss|
    ensures StepsHtml(Some(ss), fixed2)
         == StepsHtml(Some(ss[..k]), fixed2) + StepHtml(ss[k], fixed2) + StepsHtml(Some(ss[k + 1..]), fixed2)
  {
    var fs := Fragments(ss, fixed2);
    ConcatSplit(fs, k);
    assert fs[..k] == Fragments(ss[..k], fixed2);
    assert fs[k + 1..] == Fragments(ss[k + 1..], fixed2);
  }

  /** A trace with at least one step never renders as "". */
  lemma StepsHtmlNonEmpty(ss: seq<Step>, fixed2: real -> string)
    requires ss != []
    ensures StepsHtml(Some(ss), fixed2) != ""
  {
    StepsHtmlAt(ss, 0, fixed2);
    assert |StepHtml(ss[0], fixed2)| > 0;
  }

  /** The fallback block is shown exactly when the reconstruction list is missing or empty. */
  lemma ReconstructionFallback(entries: Option<seq<ReconByte>>, fixed2: real -> string)
    ensures StepHtml(Reconstruction(entries), fixed2) == NOT_ENOUGH_BITS
        <==> entries.None? || entries.value == []
  {
    if entries.Some? && entries.value != [] {
      var r := ReconstructionHtml(entries);
      var n := |RECON_HEAD|;
      assert r[n] == LIST_OPEN[0] == '<';
      assert NOT_ENOUGH_BITS[n] == " Not enough bits"[0] == ' ';
    }
  }

  /** One list item shows the byte's value and its character. */
  lemma ReconItemShowsValueAndChar(e: ReconByte)
    ensures Contains(ReconItem(e), "value=" + e.value)
    ensures Contains(ReconItem(e), "char='" + e.ch + "'")
  {
    var head := "<li>byte#" + e.byteIndex + ": bits=[" + Join(e.bits, "") + "], ";
    var v := "value=" + e.value;
    var c := "char='" + e.ch + "'";
    ContainsInfix(head, v, ", ");
    ContainsExtended(head + v + ", ", v, c);
    ContainsExtended(head + v + ", " + c, v, "</li>");
    ContainsInfix(head + v + ", ", c, "</li>");
  }

  /**
   A non-empty reconstruction list renders every entry as a list item carrying
   its `value=` and its `char='…'`.
   */
  lemma ReconstructionShowsEntry(rs: seq<ReconByte>, k: nat, fixed2: real -> string)
    requires k < |rs|
    ensures Contains(StepHtml(Reconstruction(Some(rs)), fixed2), ReconItem(rs[k]))
    ensures Contains(StepHtml(Reconstruction(Some(rs)), fixed2), "value=" + rs[k].value)
    ensures Contains(StepHtml(Reconstruction(Some(rs)), fixed2), "char='" + rs[k].ch + "'")
  {
    var items := ReconItems(rs);
    var block := Concat(items);
    ConcatContainsPart(items, k);
    ReconItemShowsValueAndChar(rs[k]);
    ContainsTransitive(block, items[k], "value=" + rs[k].value);
    ContainsTransitive(block, items[k], "char='" + rs[k].ch + "'");
    var head, tail := RECON_HEAD + LIST_OPEN, "</ul></div>";
    ContainsWithin(head, block, tail, ReconItem(rs[k]));
    ContainsWithin(head, block, tail, "value=" + rs[k].value);
    ContainsWithin(head, block, tail, "char='" + rs[k].ch + "'");
  }

  /** A step with an unrecognised tag shows that tag in bold followed by its field dump. */
  lemma UnknownStepShowsTagAndDump(tag: string, dump: string, fixed2: real -> string)
    ensures Contains(StepHtml(Unknown(tag, dump), fixed2), "<b>" + tag + "</b>: " + dump)
    ensures Tag(Unknown(tag, dump)) == tag
  {
    ContainsInfix("<div>", "<b>" + tag + "</b>: " + dump, "</div>");
  }
}
