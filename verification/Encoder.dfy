/** How upstream events become numbered events for the client (gateway.rs). */
module ResponseEncoder {
  import opened Durable
  import opened Texts

  const MAX_COMPLETION_BODY_BYTES := 8 * 1024 * 1024
  const MAX_OUTPUT_TOKENS := 32768
  const U64_MAX := 0xffff_ffff_ffff_ffff

  datatype Event =
    | ReasoningDelta(reasoning: string)
    | TextDelta(text: string)
    | ToolCallDelta(index: nat, callId: Option<string>, name: Option<string>, arguments: string)
    | Usage(prompt: nat, completion: nat)
    | Finished(reason: Option<string>)
    | Done

  /** What an upstream stream still holds; `None` is a transport error. A stream that ends
      without `Done` counts as failed too. */
  type Stream = seq<Option<Event>>

  /** Events for the client, numbered: progress, or one of the three endings. */
  datatype Kind = Progress | Completed | Incomplete | Failed

  datatype Public = Public(kind: Kind, sequence: nat)

  datatype Tool = Tool(callId: string, name: string, arguments: string)

  datatype Encoder = Encoder(
    reasoning: Option<string>,
    text: Option<string>,
    tools: map<nat, Tool>,
    usage: (nat, nat),
    outputBytes: nat,
    finishReason: Option<string>,
    sequence: nat,
    pending: seq<Public>)

  function Numbered(kind: Kind, from: nat, n: nat): (s: seq<Public>)
    ensures |s| == n && forall i | 0 <= i < n :: s[i] == Public(kind, from + i)
  {
    seq(n, (i: nat) => Public(kind, from + i))
  }

  function Push(e: Encoder, kind: Kind, n: nat): Encoder {
    e.(pending := e.pending + Numbered(kind, e.sequence, n), sequence := e.sequence + n)
  }

  function NewEncoder(): Encoder {
    Push(Encoder(None, None, map[], (0, 0), 0, None, 0, []), Progress, 2)
  }

  function OrEmpty(s: Option<string>): string {
    if s.Some? then s.value else ""
  }

  predicate Blank(s: string) {
    forall c | c in s :: IsSpace(c)
  }

  /** `reasoning_only_stop`. */
  predicate ReasoningOnly(e: Encoder) {
    e.finishReason == Some("stop") && !Blank(OrEmpty(e.reasoning)) && Blank(OrEmpty(e.text)) && e.tools == map[]
  }

  /** `accept`; a refusal leaves the encoder as it was. `json` says which arguments parse. */
  function Accept(e: Encoder, event: Event, custom: set<string>, json: string -> bool): Option<Encoder> {
    match event
    case ReasoningDelta(text) =>
      if e.outputBytes + Utf8(text) > MAX_COMPLETION_BODY_BYTES then None
      else Some(Push(e.(reasoning := Some(OrEmpty(e.reasoning) + text), outputBytes := e.outputBytes + Utf8(text)),
                     Progress, if e.reasoning.None? then 3 else 1))
    case TextDelta(text) =>
      if e.outputBytes + Utf8(text) > MAX_COMPLETION_BODY_BYTES then None
      else Some(Push(e.(text := Some(OrEmpty(e.text) + text), outputBytes := e.outputBytes + Utf8(text)),
                     Progress, if e.text.None? then 3 else 1))
    case ToolCallDelta(index, callId, name, arguments) =>
      if e.outputBytes + Utf8(arguments) > MAX_COMPLETION_BODY_BYTES then None
      else
        var was := if index in e.tools then e.tools[index] else Tool("", "", "");
        var tool := Tool(if callId.Some? then callId.value else was.callId,
                         if name.Some? then name.value else was.name, was.arguments + arguments);
        Some(Push(e.(tools := e.tools[index := tool], outputBytes := e.outputBytes + Utf8(arguments)), Progress,
                  (if index in e.tools then 0 else 1) + (if tool.name !in custom && arguments != "" then 1 else 0)))
    case Usage(prompt, completion) =>
      Some(e.(usage := (prompt, completion)))
    case Finished(reason) =>
      Some(e.(finishReason := reason))
    case Done =>
      if exists i | i in e.tools :: e.tools[i].callId == "" || e.tools[i].name == "" || !json(e.tools[i].arguments)
      then None
      else if ReasoningOnly(e) then None
        else
          var closed := Push(e, Progress,
                             (if e.reasoning.Some? then 3 else 0) + (if e.text.Some? then 3 else 0) + 2 * |e.tools|);
          Some(Push(closed, if e.finishReason == Some("length") then Incomplete else Completed, 1))
  }

  /** The request as far as the continuation depends on it. */
  datatype Body = Unparsable | Parsed(continuing: bool, maxTokens: Option<nat>, listsMessages: bool)

  /** `reasoning_only_recovery_request`; `fits` says whether the longer body is within limits. */
  function RecoveryRequest(e: Encoder, body: Body, fits: bool): (r: Option<Body>)
    ensures r.Some? ==> ReasoningOnly(e) && body.Parsed? && !body.continuing && e.usage.0 > 0 && e.usage.1 > 0
    ensures r.Some? ==>
              r.value.Parsed? && r.value.continuing && r.value.maxTokens.Some? && r.value.maxTokens.value > 0 &&
              e.usage.1 + r.value.maxTokens.value == Budget(body)
  {
    if !ReasoningOnly(e) || e.usage.0 == 0 || e.usage.1 == 0 then None
    else if !body.Parsed? || body.continuing then None
    else if Budget(body) <= e.usage.1 || !body.listsMessages || !fits then None
    else Some(body.(continuing := true, maxTokens := Some(Budget(body) - e.usage.1)))
  }

  function Budget(body: Body): nat
    requires body.Parsed?
  {
    if body.maxTokens.Some? then body.maxTokens.value else MAX_OUTPUT_TOKENS
  }

  function SaturatingAdd(a: nat, b: nat): nat {
    if a + b > U64_MAX then U64_MAX else a + b
  }

  function Combined(a: (nat, nat), b: (nat, nat)): (nat, nat) {
    (SaturatingAdd(a.0, b.0), SaturatingAdd(a.1, b.1))
  }

  function UsageOrDefault(u: Option<(nat, nat)>): (nat, nat) {
    if u.Some? then u.value else (0, 0)
  }

  predicate Representable(event: Option<Event>) {
    event.Some? && event.value.Usage? ==> event.value.prompt <= U64_MAX && event.value.completion <= U64_MAX
  }

  predicate RepresentableStream(s: Stream) {
    forall x | x in s :: Representable(x)
  }

  // ---- What the client sees ----

  predicate InOrder(s: seq<Public>) {
    forall i | 0 <= i < |s| :: s[i].sequence == i
  }

  predicate OnlyProgress(s: seq<Public>) {
    forall p | p in s :: p.kind == Progress
  }

  /** Progress, then a single ending. */
  predicate Ended(s: seq<Public>, ending: Kind) {
    |s| > 0 && ending != Progress && s[|s| - 1].kind == ending && OnlyProgress(s[..|s| - 1])
  }

  /** Nothing but numbered progress so far. */
  predicate Continuing(sent: seq<Public>, e: Encoder) {
    InOrder(sent + e.pending) && e.sequence == |sent + e.pending| && OnlyProgress(sent + e.pending) &&
    e.outputBytes <= MAX_COMPLETION_BODY_BYTES
  }

  /** What an accepted event may change: the numbering continues, only `Done` adds an ending,
      and that comes last. */
  predicate Continued(sent: seq<Public>, e: Encoder, event: Event, next: Encoder) {
    InOrder(sent + next.pending) && next.sequence == |sent + next.pending| &&
    next.outputBytes <= MAX_COMPLETION_BODY_BYTES &&
    (next.usage == if event.Usage? then (event.prompt, event.completion) else e.usage) &&
    (next.finishReason == if event.Finished? then event.reason else e.finishReason) &&
    if event.Done? then
      Ended(sent + next.pending, if e.finishReason == Some("length") then Incomplete else Completed)
    else
      OnlyProgress(sent + next.pending)
  }

  lemma AcceptedContinues(sent: seq<Public>, e: Encoder, event: Event, custom: set<string>, json: string -> bool)
    requires Continuing(sent, e) && Accept(e, event, custom, json).Some?
    ensures Continued(sent, e, event, Accept(e, event, custom, json).value)
  {
    var next := Accept(e, event, custom, json).value;
    if event.Done? {
      var n := (if e.reasoning.Some? then 3 else 0) + (if e.text.Some? then 3 else 0) + 2 * |e.tools|;
      var kind := if e.finishReason == Some("length") then Incomplete else Completed;
      PushContinues(sent, e, Progress, n);
      PushContinues(sent, Push(e, Progress, n), kind, 1);
    } else {
      var n: nat := |next.pending| - |e.pending|;
      var base := next.(pending := e.pending, sequence := e.sequence);
      assert next == Push(base, Progress, n) by {
        assert next.pending == e.pending + Numbered(Progress, e.sequence, n);
      }
      PushContinues(sent, base, Progress, n);
    }
  }

  /** Offer an event to the encoder. */
  method Offer(e: Encoder, event: Event, custom: set<string>, json: string -> bool, ghost sent: seq<Public>)
    returns (next: Option<Encoder>)
    requires Continuing(sent, e)
    ensures next.Some? ==> Continued(sent, e, event, next.value)
    ensures next == Accept(e, event, custom, json)
  {
    next := Accept(e, event, custom, json);
    if next.Some? {
      AcceptedContinues(sent, e, event, custom, json);
    }
  }

  lemma PushContinues(sent: seq<Public>, e: Encoder, kind: Kind, n: nat)
    requires InOrder(sent + e.pending) && e.sequence == |sent + e.pending| && OnlyProgress(sent + e.pending)
    ensures var next := Push(e, kind, n);
            InOrder(sent + next.pending) && next.sequence == |sent + next.pending| &&
            (kind == Progress ==> OnlyProgress(sent + next.pending)) &&
            (kind != Progress && n == 1 ==> Ended(sent + next.pending, kind))
  {
    var next := Push(e, kind, n);
    var all := sent + next.pending;
    assert all == sent + e.pending + Numbered(kind, e.sequence, n);
    if n == 1 {
      assert all[..|all| - 1] == sent + e.pending;
    }
  }
}
