/** Agent messages and their conversion for the provider (app/providers/openai_compatible.py). */
module Transcript {
  import opened Values
  import opened Proposals
  import opened Gate

  datatype Role = System | User | Assistant | Tool

  datatype Message = Message(
    role: Role,
    content: Option<string>,
    proposal: Option<Proposal>,
    toolCall: Option<ToolCall>,
    toolResult: Option<ToolData>)

  function UserText(text: string): Message { Message(User, Some(text), None, None, None) }

  function AssistantTurn(p: Proposal): Message { Message(Assistant, Some(p.rationale), Some(p), p.toolCall, None) }

  function ToolTurn(call: ToolCall, data: ToolData): Message { Message(Tool, None, None, Some(call), Some(data)) }

  datatype Text = Plain(text: string) | Rendered(data: Option<ToolData>)

  /** Call identifiers are rendered from the message index. */
  datatype ProviderMessage =
    | SystemPart(text: string)
    | UserPart(content: Text)
    | AssistantPart(text: string, callId: Option<nat>, call: Option<ToolCall>)
    | ToolPart(toolCallId: nat, content: Text)

  datatype Pending = Pending(id: nat, call: ToolCall)

  datatype Conversion = Refused | Converted(parts: seq<ProviderMessage>, pending: Option<Pending>)

  /** One loop iteration of `_provider_messages`. */
  function ConvertNext(parts: seq<ProviderMessage>, pending: Option<Pending>, index: nat, m: Message): Conversion {
    if pending.Some? && m.role != Tool then Refused
    else match m.role
      case System => Converted(parts + [SystemPart(OrEmpty(m.content))], pending)
      case User =>
        var content :=
          if m.content.None? && m.toolResult.Some? then Rendered(m.toolResult) else Plain(OrEmpty(m.content));
        Converted(parts + [UserPart(content)], pending)
      case Assistant =>
        var text := if m.content.None? && m.proposal.Some? then m.proposal.value.rationale else OrEmpty(m.content);
        if m.toolCall.Some? then
          Converted(parts + [AssistantPart(text, Some(index), m.toolCall)], Some(Pending(index, m.toolCall.value)))
        else Converted(parts + [AssistantPart(text, None, None)], pending)
      case Tool =>
        if m.toolCall.None? || pending.None? || !SameCall(m.toolCall.value, pending.value.call) then Refused
        else Converted(parts + [ToolPart(pending.value.id, Rendered(m.toolResult))], None)
  }

  function Convert(ms: seq<Message>): Conversion {
    if ms == [] then Converted([], None)
    else
      var n := |ms| - 1;
      match Convert(ms[..n])
      case Refused => Refused
      case Converted(parts, pending) => ConvertNext(parts, pending, n, ms[n])
  }

  lemma ConvertAppended(ms: seq<Message>, m: Message)
    ensures Convert(ms + [m]) == match Convert(ms)
      case Refused => Refused
      case Converted(parts, pending) => ConvertNext(parts, pending, |ms|, m)
  {
    assert (ms + [m])[..|ms|] == ms;
  }

  lemma {:induction false} RefusedStays(ms: seq<Message>, i: nat)
    requires i <= |ms| && Convert(ms[..i]).Refused?
    ensures Convert(ms).Refused?
    decreases |ms| - i
  {
    if i == |ms| {
      assert ms[..i] == ms;
    } else {
      assert ms[..i + 1] == ms[..i] + [ms[i]];
      ConvertAppended(ms[..i], ms[i]);
      RefusedStays(ms, i + 1);
    }
  }

  /** `_provider_messages`: None stands for the raised ValueError. */
  method ProviderMessages(ms: seq<Message>) returns (parts: Option<seq<ProviderMessage>>)
    ensures parts == match Convert(ms) case Refused => None case Converted(ps, _) => Some(ps)
  {
    var out: seq<ProviderMessage> := [];
    var pendingId: Option<nat> := None;
    var pendingCall: Option<ToolCall> := None;
    for index := 0 to |ms|
      invariant pendingId.Some? <==> pendingCall.Some?
      invariant Convert(ms[..index])
        == Converted(out, if pendingId.Some? then Some(Pending(pendingId.value, pendingCall.value)) else None)
    {
      var m := ms[index];
      assert ms[..index + 1] == ms[..index] + [m];
      ConvertAppended(ms[..index], m);
      if pendingId.Some? && m.role != Tool {
        RefusedStays(ms, index + 1);
        return None;
      }
      match m.role {
        case System =>
          out := out + [SystemPart(OrEmpty(m.content))];
        case User =>
          var content := Plain(OrEmpty(m.content));
          if m.content.None? && m.toolResult.Some? {
            content := Rendered(m.toolResult);
          }
          out := out + [UserPart(content)];
        case Assistant =>
          var text := OrEmpty(m.content);
          if m.content.None? && m.proposal.Some? {
            text := m.proposal.value.rationale;
          }
          var part := AssistantPart(text, None, None);
          if m.toolCall.Some? {
            pendingId, pendingCall := Some(index), m.toolCall;
            part := AssistantPart(text, pendingId, pendingCall);
          }
          out := out + [part];
        case Tool =>
          if m.toolCall.None? || pendingId.None? || !SameCall(m.toolCall.value, pendingCall.value) {
            RefusedStays(ms, index + 1);
            return None;
          }
          out := out + [ToolPart(pendingId.value, Rendered(m.toolResult))];
          pendingId, pendingCall := None, None;
      }
    }
    assert ms[..|ms|] == ms;
    parts := Some(out);
  }

  // ---------------------------------------------------------------- well-formed provider transcripts

  predicate IsCall(part: ProviderMessage) { part.AssistantPart? && part.callId.Some? }

  /** Every call is identified by its position, and a tool part answers the call right before it. */
  predicate WellFormed(parts: seq<ProviderMessage>) {
    && (forall i :: 0 <= i < |parts| && IsCall(parts[i]) ==> parts[i].callId == Some(i))
    && (forall i :: 0 <= i < |parts| && parts[i].ToolPart?
          ==> i > 0 && IsCall(parts[i - 1]) && parts[i - 1].callId == Some(parts[i].toolCallId))
  }

  predicate PendingIsLast(parts: seq<ProviderMessage>, pending: Option<Pending>) {
    pending.Some? <==> parts != [] && IsCall(parts[|parts| - 1])
  }

  predicate PendingMatches(parts: seq<ProviderMessage>, pending: Option<Pending>) {
    pending.Some? ==>
      parts != [] && IsCall(parts[|parts| - 1]) && parts[|parts| - 1].callId == Some(pending.value.id)
  }

  lemma AppendedIsWellFormed(parts: seq<ProviderMessage>, part: ProviderMessage)
    requires WellFormed(parts)
    requires IsCall(part) ==> part.callId == Some(|parts|)
    requires part.ToolPart? ==>
      parts != [] && IsCall(parts[|parts| - 1]) && parts[|parts| - 1].callId == Some(part.toolCallId)
    ensures WellFormed(parts + [part])
  {
  }

  lemma NextIsWellFormed(parts: seq<ProviderMessage>, pending: Option<Pending>, m: Message)
    requires WellFormed(parts) && PendingIsLast(parts, pending) && PendingMatches(parts, pending)
    requires ConvertNext(parts, pending, |parts|, m).Converted?
    ensures var r := ConvertNext(parts, pending, |parts|, m);
      && |r.parts| == |parts| + 1 && r.parts[..|parts|] == parts
      && WellFormed(r.parts) && PendingIsLast(r.parts, r.pending) && PendingMatches(r.parts, r.pending)
      && (parts != [] && IsCall(parts[|parts| - 1]) ==> r.parts[|parts|].ToolPart?)
  {
    var r := ConvertNext(parts, pending, |parts|, m);
    assert r.parts == parts + [r.parts[|parts|]];
    AppendedIsWellFormed(parts, r.parts[|parts|]);
  }

  lemma {:induction false} ConversionIsWellFormed(ms: seq<Message>)
    requires Convert(ms).Converted?
    ensures var r := Convert(ms);
      && |r.parts| == |ms| && WellFormed(r.parts)
      && PendingIsLast(r.parts, r.pending) && PendingMatches(r.parts, r.pending)
  {
    if ms != [] {
      var before := Convert(ms[..|ms| - 1]);
      ConversionIsWellFormed(ms[..|ms| - 1]);
      NextIsWellFormed(before.parts, before.pending, ms[|ms| - 1]);
    }
  }

  /** In every converted transcript ids are distinct, tools answer the call just before them, and every call but the
      last is answered. */
  lemma {:induction false} ConvertedTranscripts(ms: seq<Message>)
    requires Convert(ms).Converted?
    ensures var parts := Convert(ms).parts;
      && |parts| == |ms|
      && (forall i, j ::
            0 <= i < j < |parts| && IsCall(parts[i]) && IsCall(parts[j]) ==> parts[i].callId != parts[j].callId)
      && (forall i :: 0 <= i < |parts| && parts[i].ToolPart?
            ==> i > 0 && IsCall(parts[i - 1]) && parts[i - 1].callId == Some(parts[i].toolCallId))
      && (forall i :: 0 <= i < |parts| - 1 && IsCall(parts[i]) ==> parts[i + 1].ToolPart?)
  {
    ConversionIsWellFormed(ms);
    if ms != [] {
      var before := Convert(ms[..|ms| - 1]);
      ConvertedTranscripts(ms[..|ms| - 1]);
      ConversionIsWellFormed(ms[..|ms| - 1]);
      NextIsWellFormed(before.parts, before.pending, ms[|ms| - 1]);
      assert forall i :: 0 <= i < |before.parts| ==> Convert(ms).parts[i] == before.parts[i];
    }
  }

  predicate Opening(m: Message) { m.role == System || m.role == User }

  /** Complete: converts, and no call is left waiting for its answer. */
  predicate Complete(ms: seq<Message>) {
    Convert(ms).Converted? && Convert(ms).pending.None?
  }

  lemma {:induction false} OpeningsAreComplete(ms: seq<Message>)
    requires forall m <- ms :: Opening(m)
    ensures Complete(ms)
  {
    if ms != [] {
      OpeningsAreComplete(ms[..|ms| - 1]);
      assert Opening(ms[|ms| - 1]);
    }
  }

  /** A completed turn keeps a transcript complete; so does the schema-repair message. */
  lemma TurnKeepsComplete(ms: seq<Message>, p: Proposal, data: ToolData)
    requires Complete(ms) && p.toolCall.Some?
    ensures Complete(ms + [AssistantTurn(p)] + [ToolTurn(p.toolCall.value, data)])
  {
    ConvertAppended(ms, AssistantTurn(p));
    ConvertAppended(ms + [AssistantTurn(p)], ToolTurn(p.toolCall.value, data));
  }

  lemma RepairKeepsComplete(ms: seq<Message>, feedback: string)
    requires Complete(ms)
    ensures Complete(ms + [UserText(feedback)])
  {
    ConvertAppended(ms, UserText(feedback));
  }

  // ---------------------------------------------------------------- which transcripts convert, and to what

  predicate Asks(m: Message) { m.role == Assistant && m.toolCall.Some? }

  /** A tool message answers the call right before it, and nothing else may come after a call. */
  predicate MayFollow(previous: Option<Message>, m: Message) {
    if m.role == Tool then
      && previous.Some? && Asks(previous.value)
      && m.toolCall.Some? && SameCall(m.toolCall.value, previous.value.toolCall.value)
    else previous.Some? ==> !Asks(previous.value)
  }

  function Previous(ms: seq<Message>, i: nat): Option<Message>
    requires i <= |ms|
  {
    if i == 0 then None else Some(ms[i - 1])
  }

  /** What the provider is shown of message number `i`: its own words, rendered data where it has none, and for a call
      and its answer the same position as their identifier. */
  predicate Renders(m: Message, i: nat, part: ProviderMessage) {
    match m.role
    case System => part == SystemPart(if m.content.Some? then m.content.value else "")
    case User =>
      part == UserPart(if m.content.Some? then Plain(m.content.value)
                       else if m.toolResult.Some? then Rendered(m.toolResult) else Plain(""))
    case Assistant =>
      part == AssistantPart(if m.content.Some? then m.content.value
                            else if m.proposal.Some? then m.proposal.value.rationale else "",
                            if m.toolCall.Some? then Some(i) else None, m.toolCall)
    case Tool => i > 0 && part == ToolPart(i - 1, Rendered(m.toolResult))
  }

  /** Where the loop stands after these messages. */
  predicate Standing(ms: seq<Message>, parts: seq<ProviderMessage>, pending: Option<Pending>) {
    && |parts| == |ms| && (forall i :: 0 <= i < |ms| ==> Renders(ms[i], i, parts[i]))
    && pending == if ms != [] && Asks(ms[|ms| - 1])
                  then Some(Pending(|ms| - 1, ms[|ms| - 1].toolCall.value)) else None
  }

  lemma NextStands(ms: seq<Message>, parts: seq<ProviderMessage>, pending: Option<Pending>, m: Message)
    requires Standing(ms, parts, pending)
    ensures var r := ConvertNext(parts, pending, |ms|, m);
      && (r.Converted? <==> MayFollow(Previous(ms, |ms|), m))
      && (r.Converted? ==> Standing(ms + [m], r.parts, r.pending))
  {
    var r := ConvertNext(parts, pending, |ms|, m);
    if r.Converted? {
      assert r.parts == parts + [r.parts[|ms|]] && Renders(m, |ms|, r.parts[|ms|]);
      assert forall i :: 0 <= i < |ms| ==> (ms + [m])[i] == ms[i] && r.parts[i] == parts[i];
    }
  }

  predicate Paired(ms: seq<Message>) { forall i :: 0 <= i < |ms| ==> MayFollow(Previous(ms, i), ms[i]) }

  lemma PairedAppended(ms: seq<Message>, m: Message)
    ensures Paired(ms + [m]) <==> Paired(ms) && MayFollow(Previous(ms, |ms|), m)
  {
    var more := ms + [m];
    assert more[|ms|] == m && Previous(more, |ms|) == Previous(ms, |ms|);
    assert forall i :: 0 <= i < |ms| ==> more[i] == ms[i] && Previous(more, i) == Previous(ms, i);
  }

  /** A transcript converts exactly when every message may follow the one before it; then each message becomes one
      part, in order, that says what the message says. */
  lemma {:induction false} ConvertsExactly(ms: seq<Message>)
    ensures Convert(ms).Converted? <==> Paired(ms)
    ensures Convert(ms).Converted? ==> Standing(ms, Convert(ms).parts, Convert(ms).pending)
  {
    if ms != [] {
      var before, m := ms[..|ms| - 1], ms[|ms| - 1];
      ConvertsExactly(before);
      assert ms == before + [m];
      PairedAppended(before, m);
      ConvertAppended(before, m);
      if Convert(before).Converted? {
        NextStands(before, Convert(before).parts, Convert(before).pending, m);
      }
    }
  }
}
