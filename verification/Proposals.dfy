/** What the model proposes and the trusted context it is judged in. */
module Proposals {
  import opened Values
  import opened Profiles
  import opened FieldValues

  datatype Priority = Low | Normal | High | Urgent | Critical

  datatype ToolCall = ToolCall(name: string, arguments: map<string, Value>)

  /** A schema-valid proposal; its tool-call list holds at most one call. */
  datatype Proposal = Proposal(
    intakeType: Option<string>,
    fields: seq<ProposalValue>,
    missing: seq<string>,
    priority: Priority,
    overrideAttempt: bool,
    rationale: string,
    toolCall: Option<ToolCall>,
    confidence: real)

  /** The trusted attachment: its text, or an extraction failure. */
  datatype Attachment = Attachment(kind: string, targetIntakeType: string, text: Option<string>, unreadable: bool)

  datatype Source = Source(channel: string, subject: string, body: string, attachment: Option<Attachment>)

  datatype Runtime = Runtime(rules: Rules, profile: Profile, source: Option<Source>, risk: bool)

  function EvidenceFor(rt: Runtime): Evidence {
    Evidence(
      rt.profile.fields,
      if rt.source.Some? then rt.source.value.body else "",
      if rt.source.Some? && rt.source.value.attachment.Some? then rt.source.value.attachment.value.text else None)
  }

  /** The proposal's fields the server itself could validate. */
  function Accepted(rt: Runtime, p: Proposal): Validated {
    Resolve(rt.rules, EvidenceFor(rt), p.fields)
  }

  /** The text of the message body or of its attachment, as the runtime received them. */
  function TrustedText(rt: Runtime, src: FieldSource): Option<string> {
    if src == Document then
      if rt.source.Some? && rt.source.value.attachment.Some? then rt.source.value.attachment.value.text else None
    else if rt.source.Some? then Some(rt.source.value.body) else Some("")
  }

  /** The item gives the profile's field `name` a value of its type, on the word of the runtime's own text: the text
      contains the excerpt, or the body stands alone and there is none. */
  predicate Backed(rt: Runtime, item: ProposalValue, name: string, src: FieldSource) {
    && item.name == name && name in rt.profile.fields
    && !Blank(rt.rules, item.value) && Admits(rt.rules, rt.profile.fields[name], item.value)
    && item.source != Some(if src == Body then Document else Body)
    && TrustedText(rt, src).Some?
    && (if item.excerpt.Some? then Contains(TrustedText(rt, src).value, item.excerpt.value)
        else src == Body && TrustedText(rt, Document).None?)
  }

  lemma BackedExactly(rt: Runtime, item: ProposalValue, name: string, src: FieldSource)
    ensures Backed(rt, item, name, src) <==> Usable(rt.rules, EvidenceFor(rt), item, name, src)
  {
    assert src == Body || src == Document;
    assert item.source.Some? ==> item.source.value == Body || item.source.value == Document;
  }

  /** Which fields the server accepts of a proposal, and which it names invalid, told from the runtime alone. */
  lemma AcceptedExactly(rt: Runtime, p: Proposal, name: string)
    ensures name in Accepted(rt, p).values <==> exists item <- p.fields, src: FieldSource :: Backed(rt, item, name, src)
    ensures name in Accepted(rt, p).values ==>
      exists item <- p.fields, src: FieldSource ::
        Backed(rt, item, name, src) && item.value == Accepted(rt, p).values[name]
        && (src == Document ==> forall other <- p.fields :: !Backed(rt, other, name, Body))
    ensures name in Accepted(rt, p).invalid
       <==> && name in rt.profile.fields
            && exists item <- p.fields :: (
                 item.name == name && !Blank(rt.rules, item.value)
                 && forall src: FieldSource :: !Backed(rt, item, name, src))
  {
    forall item, src: FieldSource
      ensures Backed(rt, item, name, src) <==> Usable(rt.rules, EvidenceFor(rt), item, name, src)
    {
      BackedExactly(rt, item, name, src);
    }
    ResolvesExactly(rt.rules, EvidenceFor(rt), p.fields, name);
    if name in Accepted(rt, p).values {
      AcceptedValueHasProvenance(rt.rules, EvidenceFor(rt), p.fields, name);
    }
  }

  function CanonCall(c: ToolCall): ToolCall {
    ToolCall(c.name, map k | k in c.arguments :: Canon(c.arguments[k]))
  }

  /** Python's equality of tool calls. */
  predicate SameCall(a: ToolCall, b: ToolCall) { CanonCall(a) == CanonCall(b) }

  /** Two calls count as the same exactly when they name the same tool and give equal values to the same arguments. */
  lemma SameCallsExactly(a: ToolCall, b: ToolCall)
    ensures SameCall(a, b)
       <==> && a.name == b.name && a.arguments.Keys == b.arguments.Keys
            && forall k <- a.arguments :: k in b.arguments && EqualValues(a.arguments[k], b.arguments[k])
  {
    forall k | k in a.arguments && k in b.arguments
      ensures Canon(a.arguments[k]) == Canon(b.arguments[k]) <==> EqualValues(a.arguments[k], b.arguments[k])
    {
      CanonAgrees(a.arguments[k], b.arguments[k]);
    }
    assert CanonCall(a).arguments.Keys == a.arguments.Keys && CanonCall(b).arguments.Keys == b.arguments.Keys;
    if SameCall(a, b) {
      assert forall k <- a.arguments :: CanonCall(a).arguments[k] == CanonCall(b).arguments[k];
    }
  }
}
