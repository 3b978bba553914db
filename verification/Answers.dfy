/** When a response succeeds, said of what the upstream sent (agent.rs, gateway.rs). */
module Answers {
  import opened Durable
  import opened Texts
  import opened ResponseEncoder

  // ---- What the upstream said ----

  /** The events before the first `Done`, if the stream gets there. */
  function Answer(s: Stream): Option<seq<Event>> {
    if s == [] || s[0].None? then None
    else if s[0].value.Done? then Some([])
    else After([s[0].value], Answer(s[1..]))
  }

  function After(said: seq<Event>, rest: Option<seq<Event>>): Option<seq<Event>> {
    if rest.Some? then Some(said + rest.value) else None
  }

  function Reasoning(said: seq<Event>): string {
    if said == [] then ""
    else
      var last := said[|said| - 1];
      Reasoning(said[..|said| - 1]) + if last.ReasoningDelta? then last.reasoning else ""
  }

  function Text(said: seq<Event>): string {
    if said == [] then ""
    else
      var last := said[|said| - 1];
      Text(said[..|said| - 1]) + if last.TextDelta? then last.text else ""
  }

  /** The bytes of reasoning, text and arguments. */
  function Bytes(said: seq<Event>): nat {
    if said == [] then 0
    else
      var last := said[|said| - 1];
      Bytes(said[..|said| - 1]) +
      match last
      case ReasoningDelta(text) => Utf8(text)
      case TextDelta(text) => Utf8(text)
      case ToolCallDelta(_, _, _, arguments) => Utf8(arguments)
      case _ => 0
  }

  /** The last reason given for the end. */
  function Reason(said: seq<Event>): Option<string> {
    if said == [] then None
    else
      var last := said[|said| - 1];
      if last.Finished? then last.reason else Reason(said[..|said| - 1])
  }

  /** The last usage reported. */
  function Used(said: seq<Event>): Option<(nat, nat)> {
    if said == [] then None
    else
      var last := said[|said| - 1];
      if last.Usage? then Some((last.prompt, last.completion)) else Used(said[..|said| - 1])
  }

  predicate Calls(said: seq<Event>, tool: nat) {
    exists e | e in said :: e.ToolCallDelta? && e.index == tool
  }

  /** The last id and the last name given for a tool call, and all its arguments. */
  function CallOf(said: seq<Event>, tool: nat): Tool {
    if said == [] then Tool("", "", "")
    else
      var last, was := said[|said| - 1], CallOf(said[..|said| - 1], tool);
      if last.ToolCallDelta? && last.index == tool then
        Tool(if last.callId.Some? then last.callId.value else was.callId,
             if last.name.Some? then last.name.value else was.name, was.arguments + last.arguments)
      else was
  }

  // ---- When that is an answer ----

  /** A generation that stopped inside its reasoning. */
  predicate Actionless(said: seq<Event>) {
    Reason(said) == Some("stop") && !Blank(Reasoning(said)) && Blank(Text(said)) &&
    forall e | e in said :: !e.ToolCallDelta?
  }

  predicate Complete(tool: Tool, json: string -> bool) {
    tool.callId != "" && tool.name != "" && json(tool.arguments)
  }

  /** Within the limit, every tool call complete, and something to act on. */
  predicate Acceptable(said: seq<Event>, json: string -> bool) {
    Bytes(said) <= MAX_COMPLETION_BODY_BYTES && !Actionless(said) &&
    forall e | e in said && e.ToolCallDelta? :: Complete(CallOf(said, e.index), json)
  }

  /** The request, and what the streams will bring; `second` is what opening another gives. */
  datatype Exchange = Exchange(first: Stream, second: Option<Stream>, body: Body, fits: bool, json: string -> bool)

  /** The first stream stopped inside its reasoning, and the request leaves room to go on. */
  predicate Continues(x: Exchange) {
    var said := Answer(x.first);
    said.Some? && Bytes(said.value) <= MAX_COMPLETION_BODY_BYTES && Actionless(said.value) &&
    Used(said.value).Some? && Used(said.value).value.0 > 0 && Used(said.value).value.1 > 0 &&
    x.body.Parsed? && !x.body.continuing && x.body.listsMessages && x.fits &&
    Used(said.value).value.1 < (if x.body.maxTokens.Some? then x.body.maxTokens.value else 32768)
  }

  /** What the whole exchange says, if it gets to its end and accounts for its continuation. */
  function Whole(x: Exchange): Option<seq<Event>> {
    if !Continues(x) then Answer(x.first)
    else if x.second.None? then None
    else
      var more := Answer(x.second.value);
      if more.Some? && Used(more.value).Some? then Some(Answer(x.first).value + more.value) else None
  }

  /** The usage of an exchange that was answered: of both streams if there were two. */
  function Bill(x: Exchange): (nat, nat) {
    var first := if Answer(x.first).Some? then UsageOrDefault(Used(Answer(x.first).value)) else (0, 0);
    if Continues(x) && x.second.Some? && Answer(x.second.value).Some? then
      Combined(first, UsageOrDefault(Used(Answer(x.second.value).value)))
    else first
  }

  predicate Succeeds(x: Exchange) {
    Whole(x).Some? && Acceptable(Whole(x).value, x.json)
  }

  // ---- The encoder has heard this ----

  ghost predicate Encodes(e: Encoder, said: seq<Event>) {
    OrEmpty(e.reasoning) == Reasoning(said) && OrEmpty(e.text) == Text(said) && e.outputBytes == Bytes(said) &&
    e.finishReason == Reason(said) && e.outputBytes <= MAX_COMPLETION_BODY_BYTES &&
    (forall tool: nat :: tool in e.tools <==> Calls(said, tool)) &&
    (forall tool | tool in e.tools :: e.tools[tool] == CallOf(said, tool))
  }

  /** Numbers and events for the client do not matter. */
  lemma EncodesPopped(e: Encoder, f: Encoder, said: seq<Event>)
    requires Encodes(e, said) && f == e.(pending := f.pending, sequence := f.sequence, usage := f.usage)
    ensures Encodes(f, said)
  {
  }

  lemma CallsGrow(said: seq<Event>, event: Event, tool: nat)
    ensures Calls(said + [event], tool) <==> Calls(said, tool) || (event.ToolCallDelta? && event.index == tool)
  {
    var all := said + [event];
    assert all[|said|] == event;
    if Calls(said, tool) {
      var e :| e in said && e.ToolCallDelta? && e.index == tool;
      assert e in all;
    }
  }

  lemma {:induction false} UncalledIsEmpty(said: seq<Event>, tool: nat)
    requires !Calls(said, tool)
    ensures CallOf(said, tool) == Tool("", "", "")
  {
    if said != [] {
      var rest, last := said[..|said| - 1], said[|said| - 1];
      assert said == rest + [last];
      CallsGrow(rest, last, tool);
      UncalledIsEmpty(rest, tool);
    }
  }

  /** A tool call delta is rejected exactly if it is too long. */
  lemma EncodesCall(e: Encoder, said: seq<Event>, event: Event, custom: set<string>, json: string -> bool)
    requires Encodes(e, said) && event.ToolCallDelta?
    ensures var next := Accept(e, event, custom, json);
            if next.Some? then Encodes(next.value, said + [event])
            else Bytes(said + [event]) > MAX_COMPLETION_BODY_BYTES
  {
    var all := said + [event];
    assert all[..|all| - 1] == said;
    var next := Accept(e, event, custom, json);
    if event.index !in e.tools {
      UncalledIsEmpty(said, event.index);
    }
    if next.Some? {
      forall tool: nat
        ensures tool in next.value.tools <==> Calls(all, tool)
      {
        CallsGrow(said, event, tool);
      }
    }
  }

  /** So is any other event but the end. */
  lemma EncodesMore(e: Encoder, said: seq<Event>, event: Event, custom: set<string>, json: string -> bool)
    requires Encodes(e, said) && !event.Done? && !event.Usage?
    ensures var next := Accept(e, event, custom, json);
            if next.Some? then Encodes(next.value, said + [event]) && next.value.usage == e.usage
            else Bytes(said + [event]) > MAX_COMPLETION_BODY_BYTES
  {
    if event.ToolCallDelta? {
      EncodesCall(e, said, event, custom, json);
    } else {
      EncodesOther(e, said, event);
    }
  }

  lemma EncodesOther(e: Encoder, said: seq<Event>, event: Event)
    requires Encodes(e, said) && !event.ToolCallDelta?
    ensures var all := said + [event];
            Reasoning(all) == Reasoning(said) + (if event.ReasoningDelta? then event.reasoning else "") &&
            Text(all) == Text(said) + (if event.TextDelta? then event.text else "") &&
            Reason(all) == (if event.Finished? then event.reason else Reason(said)) &&
            (forall tool: nat :: tool in e.tools <==> Calls(all, tool)) &&
            (forall tool | tool in e.tools :: e.tools[tool] == CallOf(all, tool))
    ensures Bytes(said + [event]) ==
            Bytes(said) + if event.ReasoningDelta? then Utf8(event.reasoning)
                          else if event.TextDelta? then Utf8(event.text) else 0
  {
    var all := said + [event];
    assert all[..|all| - 1] == said;
    forall tool: nat
      ensures tool in e.tools <==> Calls(all, tool)
    {
      CallsGrow(said, event, tool);
    }
  }

  lemma EncodesUsage(e: Encoder, said: seq<Event>, event: Event, f: Encoder)
    requires Encodes(e, said) && event.Usage? && f == e.(usage := f.usage)
    ensures Encodes(f, said + [event])
  {
    EncodesOther(e, said, event);
  }

  lemma ReasoningOnlyIff(e: Encoder, said: seq<Event>)
    requires Encodes(e, said)
    ensures ReasoningOnly(e) <==> Actionless(said)
  {
    if e.tools == map[] {
      forall x | x in said
        ensures !x.ToolCallDelta?
      {
        assert x.ToolCallDelta? ==> Calls(said, x.index);
      }
    } else {
      var tool :| tool in e.tools;
      assert Calls(said, tool);
    }
  }

  /** The end is accepted exactly if what was said is acceptable. */
  lemma DoneIff(e: Encoder, said: seq<Event>, custom: set<string>, json: string -> bool)
    requires Encodes(e, said)
    ensures Accept(e, Event.Done, custom, json).Some? <==> Acceptable(said, json)
  {
    ReasoningOnlyIff(e, said);
    if x :| x in said && x.ToolCallDelta? && !Complete(CallOf(said, x.index), json) {
      assert Calls(said, x.index) && x.index in e.tools;
    }
    forall tool | tool in e.tools
      ensures e.tools[tool] == CallOf(said, tool) && exists x | x in said :: x.ToolCallDelta? && x.index == tool
    {
      assert Calls(said, tool);
    }
  }

  lemma {:induction false} BytesAdd(a: seq<Event>, b: seq<Event>)
    ensures Bytes(a + b) == Bytes(a) + Bytes(b)
  {
    if b == [] {
      assert a + b == a;
    } else {
      BytesAdd(a, b[..|b| - 1]);
      assert (a + b)[..|a + b| - 1] == a + b[..|b| - 1];
    }
  }

  // ---- How far the loop has come ----

  /** The loop has taken `said` from the first stream and `more` from the second; `upstream` is
      what the present one still holds, `attempt` the last usage it reported, and `prior` that
      of the stream before. */
  ghost predicate Follows(x: Exchange, said: seq<Event>, more: seq<Event>, upstream: Stream, e: Encoder,
                          recovered: bool, prior: (nat, nat), attempt: Option<(nat, nat)>)
  {
    Encodes(e, said + more) &&
    if !recovered then
      more == [] && Answer(x.first) == After(said, Answer(upstream)) && attempt == Used(said) &&
      e.usage == UsageOrDefault(attempt)
    else
      Answer(x.first) == Some(said) && Continues(x) && x.second.Some? && Used(said) == Some(prior) &&
      Answer(x.second.value) == After(more, Answer(upstream)) && attempt == Used(more) &&
      (attempt.Some? ==> e.usage == Combined(prior, attempt.value))
  }

  /** The loop has ended as it should. */
  predicate Judged(x: Exchange, recovered: bool, succeeded: bool) {
    (succeeded <==> Succeeds(x)) && (recovered <==> Continues(x))
  }

  /** And the document holds what was said. */
  ghost predicate Concluded(x: Exchange, recovered: bool, succeeded: bool, e: Encoder) {
    Judged(x, recovered, succeeded) && (succeeded ==> Encodes(e, Whole(x).value) && e.usage == Bill(x))
  }

  lemma StartFollows(x: Exchange)
    ensures Follows(x, [], [], x.first, NewEncoder(), false, (0, 0), None)
  {
    var nothing: seq<Event> := [];
    assert nothing + nothing == nothing;
    if Answer(x.first).Some? {
      assert nothing + Answer(x.first).value == Answer(x.first).value;
    }
  }

  /** An error, or an end without `Done`. */
  lemma BrokenIsJudged(x: Exchange, said: seq<Event>, more: seq<Event>, upstream: Stream, e: Encoder,
                       recovered: bool, prior: (nat, nat), attempt: Option<(nat, nat)>)
    requires Follows(x, said, more, upstream, e, recovered, prior, attempt) && Answer(upstream).None?
    ensures Judged(x, recovered, false)
  {
  }

  lemma AfterJoins(a: seq<Event>, b: seq<Event>, rest: Option<seq<Event>>)
    ensures After(a, After(b, rest)) == After(a + b, rest)
  {
    if rest.Some? {
      assert a + (b + rest.value) == a + b + rest.value;
    }
  }

  lemma UsedGrows(said: seq<Event>, event: Event)
    ensures Used(said + [event]) == if event.Usage? then Some((event.prompt, event.completion)) else Used(said)
  {
    assert (said + [event])[..|said|] == said;
  }

  /** One more event of the present stream, heard by the encoder. */
  lemma HearingFollows(x: Exchange, said: seq<Event>, more: seq<Event>, upstream: Stream, e: Encoder,
                       recovered: bool, prior: (nat, nat), attempt: Option<(nat, nat)>, event: Event, next: Encoder)
    requires Follows(x, said, more, upstream, e, recovered, prior, attempt)
    requires upstream != [] && upstream[0] == Some(event) && !event.Done?
    requires Encodes(next, said + more + [event])
    requires next.usage ==
             if !event.Usage? then e.usage
             else if recovered then Combined(prior, (event.prompt, event.completion))
             else (event.prompt, event.completion)
    ensures var now := if event.Usage? then Some((event.prompt, event.completion)) else attempt;
            if recovered then Follows(x, said, more + [event], upstream[1..], next, true, prior, now)
            else Follows(x, said + [event], more, upstream[1..], next, false, prior, now)
  {
    if recovered {
      AfterJoins(more, [event], Answer(upstream[1..]));
      UsedGrows(more, event);
      assert said + more + [event] == said + (more + [event]);
    } else {
      AfterJoins(said, [event], Answer(upstream[1..]));
      UsedGrows(said, event);
      assert said + more + [event] == said + [event] + more;
    }
  }

  lemma TooLongAtFirst(x: Exchange, said: seq<Event>, rest: Option<seq<Event>>)
    requires Answer(x.first) == After(said, rest) && Bytes(said) > MAX_COMPLETION_BODY_BYTES
    ensures Judged(x, false, false)
  {
    if rest.Some? {
      BytesAdd(said, rest.value);
    }
  }

  lemma TooLongAtLast(x: Exchange, said: seq<Event>, more: seq<Event>, rest: Option<seq<Event>>)
    requires Answer(x.first) == Some(said) && Continues(x) && x.second.Some?
    requires Answer(x.second.value) == After(more, rest) && Bytes(said + more) > MAX_COMPLETION_BODY_BYTES
    ensures Judged(x, true, false)
  {
    if rest.Some? {
      BytesAdd(said + more, rest.value);
      assert said + (more + rest.value) == said + more + rest.value;
    }
  }

  /** One more event that exceeds the limit. */
  lemma TooLongIsJudged(x: Exchange, said: seq<Event>, more: seq<Event>, upstream: Stream, e: Encoder,
                        recovered: bool, prior: (nat, nat), attempt: Option<(nat, nat)>, event: Event)
    requires Follows(x, said, more, upstream, e, recovered, prior, attempt)
    requires upstream != [] && upstream[0] == Some(event) && !event.Done?
    requires Bytes(said + more + [event]) > MAX_COMPLETION_BODY_BYTES
    ensures Judged(x, recovered, false)
  {
    var rest := Answer(upstream[1..]);
    if recovered {
      AfterJoins(more, [event], rest);
      assert said + more + [event] == said + (more + [event]);
      TooLongAtLast(x, said, more + [event], rest);
    } else {
      AfterJoins(said, [event], rest);
      assert said + more + [event] == said + [event];
      TooLongAtFirst(x, said + [event], rest);
    }
  }

  /** What becomes of one more event that is neither usage nor the end. */
  lemma EventFollows(x: Exchange, said: seq<Event>, more: seq<Event>, upstream: Stream, e: Encoder,
                     recovered: bool, prior: (nat, nat), attempt: Option<(nat, nat)>, event: Event,
                     custom: set<string>)
    requires Follows(x, said, more, upstream, e, recovered, prior, attempt)
    requires upstream != [] && upstream[0] == Some(event) && !event.Done? && !event.Usage?
    ensures var next := Accept(e, event, custom, x.json);
            if next.None? then Judged(x, recovered, false)
            else if recovered then Follows(x, said, more + [event], upstream[1..], next.value, true, prior, attempt)
            else Follows(x, said + [event], more, upstream[1..], next.value, false, prior, attempt)
  {
    EncodesMore(e, said + more, event, custom, x.json);
    var next := Accept(e, event, custom, x.json);
    if next.None? {
      TooLongIsJudged(x, said, more, upstream, e, recovered, prior, attempt, event);
    } else {
      HearingFollows(x, said, more, upstream, e, recovered, prior, attempt, event, next.value);
    }
  }

  lemma AnswerAtDone(x: Exchange, said: seq<Event>, more: seq<Event>, upstream: Stream, e: Encoder,
                     recovered: bool, prior: (nat, nat), attempt: Option<(nat, nat)>)
    requires Follows(x, said, more, upstream, e, recovered, prior, attempt)
    requires upstream != [] && upstream[0] == Some(Event.Done)
    ensures !recovered ==> Answer(x.first) == Some(said) && said + more == said
    ensures recovered ==> Answer(x.second.value) == Some(more)
  {
    assert said + [] == said && more + [] == more;
  }

  /** A continuation is requested exactly if the exchange continues. */
  lemma RequestIff(x: Exchange, said: seq<Event>, more: seq<Event>, upstream: Stream, e: Encoder,
                   prior: (nat, nat), attempt: Option<(nat, nat)>)
    requires Follows(x, said, more, upstream, e, false, prior, attempt)
    requires upstream != [] && upstream[0] == Some(Event.Done)
    ensures RecoveryRequest(e, x.body, x.fits).Some? <==> Continues(x)
    ensures Continues(x) && x.second.Some? ==>
              Follows(x, said, [], x.second.value, e, true, UsageOrDefault(attempt), None)
    ensures Continues(x) && x.second.None? ==> Judged(x, true, false)
  {
    AnswerAtDone(x, said, more, upstream, e, false, prior, attempt);
    ReasoningOnlyIff(e, said);
    assert said + [] == said;
    if x.second.Some? && Answer(x.second.value).Some? {
      assert [] + Answer(x.second.value).value == Answer(x.second.value).value;
    }
  }

  /** The end of the last stream decides. */
  lemma DoneIsJudged(x: Exchange, said: seq<Event>, more: seq<Event>, upstream: Stream, e: Encoder,
                     recovered: bool, prior: (nat, nat), attempt: Option<(nat, nat)>, custom: set<string>)
    requires Follows(x, said, more, upstream, e, recovered, prior, attempt)
    requires upstream != [] && upstream[0] == Some(Event.Done)
    requires !recovered ==> !Continues(x)
    ensures var succeeded := (recovered ==> attempt.Some?) && Accept(e, Event.Done, custom, x.json).Some?;
            Judged(x, recovered, succeeded) && (succeeded ==> Whole(x) == Some(said + more) && e.usage == Bill(x))
  {
    AnswerAtDone(x, said, more, upstream, e, recovered, prior, attempt);
    DoneIff(e, said + more, custom, x.json);
    if recovered {
      assert Whole(x) == if attempt.Some? then Some(said + more) else None;
    } else {
      assert Whole(x) == Some(said + more);
    }
  }
}
