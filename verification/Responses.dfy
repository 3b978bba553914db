/** One logical response over one or two upstream generations (agent.rs). */
module Responses {
  import opened Durable
  import opened ResponseEncoder
  import opened Answers

  /** What the accounting is told. */
  datatype Note = Observed(event: Event) | Interrupted | ResponseFailed

  function Count(notes: seq<Note>, n: Note): nat {
    multiset(notes)[n]
  }

  /** The last usage in the notes. */
  function LastUsage(notes: seq<Note>): Option<(nat, nat)> {
    if notes == [] then None
    else
      var last := notes[|notes| - 1];
      if last.Observed? && last.event.Usage? then Some((last.event.prompt, last.event.completion))
      else LastUsage(notes[..|notes| - 1])
  }

  lemma NoteAdds(notes: seq<Note>, n: Note)
    ensures Count(notes + [n], ResponseFailed) == Count(notes, ResponseFailed) + (if n == ResponseFailed then 1 else 0)
    ensures Count(notes + [n], Observed(Event.Done)) ==
            Count(notes, Observed(Event.Done)) + (if n == Observed(Event.Done) then 1 else 0)
    ensures LastUsage(notes + [n]) ==
            if n.Observed? && n.event.Usage? then Some((n.event.prompt, n.event.completion)) else LastUsage(notes)
  {
    assert (notes + [n])[..|notes|] == notes;
  }

  lemma UsageIsAccepted(e: Encoder, total: (nat, nat), custom: set<string>, json: string -> bool)
    ensures Accept(e, Usage(total.0, total.1), custom, json) == Some(e.(usage := total))
  {
  }

  // ---- The generation ----

  class Generation {
    const custom: set<string>
    const json: string -> bool
    const body: Body
    const fits: bool
    /** What opening a second stream would give: a stream, or an error. */
    const second: Option<Stream>
    ghost const first: Stream

    var upstream: Option<Stream>
    var encoder: Encoder
    var priorUsage: (nat, nat)
    var attemptUsage: Option<(nat, nat)>
    var recovered: bool
    var terminal: bool
    var succeeded: bool

    /** The observer's record. */
    var notes: seq<Note>

    /** Events delivered, streams opened, and the last usage each stream reported. */
    ghost var sent: seq<Public>
    ghost var streams: nat
    ghost var firstUsage: Option<(nat, nat)>
    ghost var secondUsage: Option<(nat, nat)>

    /** Events taken from the first and from the second stream. */
    ghost var said: seq<Event>
    ghost var more: seq<Event>

    ghost function Asked(): Exchange {
      Exchange(first, second, body, fits, json)
    }

    /** The loop is where the streams have brought it, or has ended as they demand. */
    ghost predicate Following()
      reads this
    {
      if upstream.None? then Concluded(Asked(), recovered, succeeded, encoder)
      else Follows(Asked(), said, more, upstream.value, encoder, recovered, priorUsage, attemptUsage)
    }

    ghost predicate Delivering()
      reads this
    {
      InOrder(sent + encoder.pending) && encoder.sequence == |sent + encoder.pending| &&
      if !terminal then OnlyProgress(sent + encoder.pending)
      else if succeeded then
        Ended(sent + encoder.pending, if encoder.finishReason == Some("length") then Incomplete else Completed)
      else Ended(sent + encoder.pending, Failed)
    }

    ghost predicate Reporting()
      reads this
    {
      Count(notes, Observed(Event.Done)) == (if succeeded then 1 else 0) &&
      Count(notes, ResponseFailed) == (if terminal && !succeeded then 1 else 0)
    }

    ghost predicate Accounting()
      reads this
    {
      (!recovered ==> priorUsage == (0, 0) && attemptUsage == firstUsage && secondUsage.None?) &&
      (recovered ==> firstUsage == Some(priorUsage) && attemptUsage == secondUsage) &&
      (attemptUsage.Some? ==>
         attemptUsage.value.0 <= U64_MAX && attemptUsage.value.1 <= U64_MAX &&
         encoder.usage == Combined(priorUsage, attemptUsage.value) && LastUsage(notes) == Some(encoder.usage)) &&
      (attemptUsage.None? && !recovered ==> encoder.usage == (0, 0)) &&
      (recovered && succeeded ==> attemptUsage.Some?)
    }

    ghost predicate Valid()
      reads this
    {
      (terminal <==> upstream.None?) && (succeeded ==> terminal) &&
      (upstream.Some? ==> RepresentableStream(upstream.value)) &&
      (second.Some? ==> RepresentableStream(second.value)) &&
      streams == (if recovered then 2 else 1) && encoder.outputBytes <= MAX_COMPLETION_BODY_BYTES &&
      Delivering() && Reporting() && Accounting()
    }

    constructor (custom: set<string>, json: string -> bool, body: Body, fits: bool, first: Stream,
                 second: Option<Stream>)
      requires RepresentableStream(first) && (second.Some? ==> RepresentableStream(second.value))
      ensures Valid() && Following() && !terminal && !recovered && sent == [] && streams == 1
      ensures this.custom == custom && this.json == json && this.body == body && this.fits == fits
      ensures this.first == first && this.second == second
    {
      this.custom, this.json, this.body, this.fits, this.second := custom, json, body, fits, second;
      this.first, said, more := first, [], [];
      upstream, encoder := Some(first), NewEncoder();
      priorUsage, attemptUsage, recovered, terminal, succeeded := (0, 0), None, false, false, false;
      notes, sent, streams, firstUsage, secondUsage := [], [], 1, None, None;
      new;
      assert sent + encoder.pending == Numbered(Progress, 0, 2);
      StartFollows(Asked());
    }

    /** Upstream events that can still come. */
    ghost function Left(): nat
      reads this
    {
      if upstream.None? then 0
      else 1 + |upstream.value| + if recovered then 0 else 1 + if second.Some? then |second.value| else 0
    }

    /** `fail`. */
    method Fail()
      requires Valid() && !terminal
      modifies this
      ensures Valid() && terminal && !succeeded && recovered == old(recovered) && sent == old(sent)
      ensures said == old(said) && more == old(more) && attemptUsage == old(attemptUsage)
      ensures priorUsage == old(priorUsage)
    {
      NoteAdds(notes, ResponseFailed);
      notes := notes + [ResponseFailed];
      PushContinues(sent, encoder, Failed, 1);
      encoder := Push(encoder, Failed, 1);
      terminal := true;
      upstream := None;
    }

    /** `next`: the next event for the client, or nothing once the ending was delivered. */
    method Next() returns (event: Option<Public>)
      requires Valid() && Following()
      modifies this
      ensures Valid() && Following() && (old(recovered) ==> recovered)
      ensures event.None? ==> terminal && encoder.pending == [] && sent == old(sent)
      ensures event.Some? ==> sent == old(sent) + [event.value]
      ensures Left() < old(Left()) || (Left() == old(Left()) && |encoder.pending| <= old(|encoder.pending|))
      ensures event.Some? && Left() == old(Left()) ==> |encoder.pending| < old(|encoder.pending|)
    {
      while true
        invariant Valid() && Following() && sent == old(sent) && (old(recovered) ==> recovered)
        invariant Left() < old(Left()) || (Left() == old(Left()) && encoder == old(encoder))
        decreases Left()
      {
        if encoder.pending != [] {
          var popped := Pop();
          return Some(popped);
        }
        if terminal {
          return None;
        }
        Turn();
      }
    }

    /** `pop`. */
    method Pop() returns (event: Public)
      requires Valid() && Following() && encoder.pending != []
      modifies this`encoder, this`sent
      ensures Valid() && Following() && sent == old(sent) + [event] && Left() == old(Left())
      ensures encoder == old(encoder).(pending := old(encoder).pending[1..])
    {
      event := encoder.pending[0];
      ghost var e, all := encoder, sent + encoder.pending;
      sent := sent + [event];
      encoder := encoder.(pending := encoder.pending[1..]);
      assert sent + encoder.pending == all;
      if upstream.Some? {
        EncodesPopped(e, encoder, said + more);
      } else if succeeded {
        EncodesPopped(e, encoder, Whole(Asked()).value);
      }
    }

    /** One turn of the loop: take an upstream event and deal with it. */
    method Turn()
      requires Valid() && Following() && !terminal
      modifies this
      ensures Valid() && Following() && sent == old(sent) && (old(recovered) ==> recovered) && Left() < old(Left())
    {
      var stream := upstream.value;
      if stream == [] || stream[0].None? {
        BrokenIsJudged(Asked(), said, more, stream, encoder, recovered, priorUsage, attemptUsage);
        Break();
        return;
      }
      assert stream[0] in stream;
      var event := stream[0].value;
      match event {
        case Done => TurnAtDone();
        case Usage(_, _) => HearUsage(event);
        case _ => Hear(event);
      }
    }

    /** The upstream failed, or ended without `Done`. */
    method Break()
      requires Valid() && !terminal
      modifies this
      ensures Valid() && terminal && !succeeded && recovered == old(recovered) && sent == old(sent)
    {
      NoteAdds(notes, Interrupted);
      notes := notes + [Interrupted];
      Fail();
    }

    /** The present stream is done. */
    method TurnAtDone()
      requires Valid() && Following() && !terminal
      requires upstream.value != [] && upstream.value[0] == Some(Event.Done)
      modifies this
      ensures Valid() && Following() && sent == old(sent) && (old(recovered) ==> recovered) && Left() < old(Left())
    {
      ghost var x, s, e := Asked(), upstream.value, encoder;
      Advance();
      if !recovered {
        RequestIff(x, said, more, s, e, priorUsage, attemptUsage);
        var continuation := RecoveryRequest(encoder, body, fits);
        if continuation.Some? {
          more := [];
          Continue();
          return;
        }
      }
      DoneIsJudged(x, said, more, s, e, recovered, priorUsage, attemptUsage, custom);
      if recovered && attemptUsage.None? {
        Fail();
        return;
      }
      Finish();
      if succeeded {
        EncodesPopped(e, encoder, said + more);
      }
    }

    /** The stream reports its usage. */
    method HearUsage(event: Event)
      requires Valid() && Following() && !terminal && event.Usage?
      requires upstream.value != [] && upstream.value[0] == Some(event)
      modifies this
      ensures Valid() && Following() && sent == old(sent) && recovered == old(recovered) && Left() < old(Left())
    {
      ghost var x, s, e, attempt := Asked(), upstream.value, encoder, attemptUsage;
      Advance();
      RelayUsage(event.prompt, event.completion);
      EncodesUsage(e, said + more, event, encoder);
      HearingFollows(x, said, more, s, e, recovered, priorUsage, attempt, event, encoder);
      Keep(event);
    }

    /** Any other event. */
    method Hear(event: Event)
      requires Valid() && Following() && !terminal && !event.Done? && !event.Usage?
      requires upstream.value != [] && upstream.value[0] == Some(event)
      modifies this
      ensures Valid() && Following() && sent == old(sent) && recovered == old(recovered) && Left() < old(Left())
    {
      EventFollows(Asked(), said, more, upstream.value, encoder, recovered, priorUsage, attemptUsage, event, custom);
      Advance();
      Relay(event);
      if !terminal {
        Keep(event);
      }
    }

    /** Take the first event off the stream. */
    method Advance()
      requires Valid() && !terminal && upstream.value != []
      modifies this`upstream
      ensures Valid() && !terminal && upstream == Some(old(upstream.value)[1..]) && Left() < old(Left())
      ensures Representable(old(upstream.value)[0])
    {
      assert upstream.value[0] in upstream.value;
      assert forall y | y in upstream.value[1..] :: y in upstream.value;
      upstream := Some(upstream.value[1..]);
    }

    ghost method Keep(event: Event)
      requires Valid()
      modifies this`said, this`more
      ensures Valid() && said == (if recovered then old(said) else old(said) + [event])
      ensures more == (if recovered then old(more) + [event] else old(more))
      ensures Left() == old(Left())
    {
      if recovered {
        more := more + [event];
      } else {
        said := said + [event];
      }
    }

    /** Open the continuation of a generation that stopped inside its reasoning. */
    method Continue()
      requires Valid() && !terminal && !recovered && RecoveryRequest(encoder, body, fits).Some?
      modifies this
      ensures Valid() && sent == old(sent) && recovered && Left() < old(Left())
      ensures said == old(said) && more == old(more) && !succeeded
      ensures if second.None? then terminal
              else !terminal && upstream == second && encoder == old(encoder) && attemptUsage.None? &&
                   priorUsage == UsageOrDefault(old(attemptUsage))
    {
      recovered := true;
      priorUsage := UsageOrDefault(attemptUsage);
      attemptUsage := None;
      streams := 2;
      if second.Some? {
        upstream := second;
      } else {
        upstream := Some([]);
        Fail();
      }
    }

    /** Usage is reported together with that of the earlier attempt. */
    method RelayUsage(prompt: nat, completion: nat)
      requires Valid() && !terminal && prompt <= U64_MAX && completion <= U64_MAX
      modifies this
      ensures Valid() && sent == old(sent) && recovered == old(recovered) && Left() == old(Left())
      ensures said == old(said) && more == old(more) && upstream == old(upstream)
      ensures encoder == old(encoder).(usage := encoder.usage) && attemptUsage == Some((prompt, completion))
      ensures priorUsage == old(priorUsage)
      ensures encoder.usage == if recovered then Combined(priorUsage, (prompt, completion)) else (prompt, completion)
    {
      var total := Combined(priorUsage, (prompt, completion));
      var event := Usage(total.0, total.1);
      NoteAdds(notes, Observed(event));
      UsageIsAccepted(encoder, total, custom, json);
      attemptUsage, notes, encoder :=
        Some((prompt, completion)), notes + [Observed(event)], Accept(encoder, event, custom, json).value;
      firstUsage, secondUsage :=
        if recovered then firstUsage else attemptUsage, if recovered then attemptUsage else secondUsage;
    }

    /** Pass any other event on. */
    method Relay(event: Event)
      requires Valid() && !terminal && !event.Done? && !event.Usage?
      modifies this
      ensures Valid() && sent == old(sent) && recovered == old(recovered) && Left() <= old(Left())
      ensures said == old(said) && more == old(more) && attemptUsage == old(attemptUsage) && !succeeded
      ensures priorUsage == old(priorUsage)
      ensures var next := Accept(old(encoder), event, custom, json);
              if next.None? then terminal else !terminal && encoder == next.value && upstream == old(upstream)
    {
      NoteAdds(notes, Observed(event));
      notes := notes + [Observed(event)];
      var accepted := Offer(encoder, event, custom, json, sent);
      if accepted.None? {
        Fail();
      } else {
        encoder := accepted.value;
      }
    }

    /** The upstream is done: only a valid answer counts as success. */
    method Finish()
      requires Valid() && !terminal && (recovered ==> attemptUsage.Some?)
      modifies this
      ensures Valid() && sent == old(sent) && terminal && recovered == old(recovered)
      ensures said == old(said) && more == old(more)
      ensures succeeded <==> Accept(old(encoder), Event.Done, custom, json).Some?
      ensures succeeded ==> encoder == old(encoder).(pending := encoder.pending, sequence := encoder.sequence)
    {
      var accepted := Offer(encoder, Event.Done, custom, json, sent);
      if accepted.None? {
        Fail();
      } else {
        Succeed(accepted.value);
      }
    }

    method Succeed(final: Encoder)
      requires Valid() && !terminal && (recovered ==> attemptUsage.Some?)
      requires Continued(sent, encoder, Event.Done, final)
      modifies this
      ensures Valid() && sent == old(sent) && terminal && succeeded && recovered == old(recovered)
      ensures encoder == final && said == old(said) && more == old(more)
    {
      encoder := final;
      NoteAdds(notes, Observed(Event.Done));
      notes := notes + [Observed(Event.Done)];
      terminal := true;
      succeeded := true;
      upstream := None;
    }
  }

  /** The whole response, as `responses_json` drains it. For every upstream behaviour: at most
      two streams, consecutive numbers, a single ending and that last; success and failure are
      reported once and never both; and a recovered success accounts for both attempts. */
  method Drain(g: Generation) returns (events: seq<Public>)
    requires g.Valid() && g.Following() && g.sent == []
    modifies g
    ensures var x := Exchange(g.first, g.second, g.body, g.fits, g.json);
            (g.succeeded <==> Succeeds(x)) && (g.recovered <==> Continues(x)) &&
            (g.succeeded ==> Encodes(g.encoder, Whole(x).value) && g.encoder.usage == Bill(x))
    ensures g.Valid() && g.terminal && g.upstream.None? && g.streams <= 2
    ensures events == g.sent && InOrder(events)
    ensures g.succeeded ==> Ended(events, if g.encoder.finishReason == Some("length") then Incomplete else Completed)
    ensures !g.succeeded ==> Ended(events, Failed)
    ensures Count(g.notes, Observed(Event.Done)) == (if g.succeeded then 1 else 0)
    ensures Count(g.notes, ResponseFailed) == (if g.succeeded then 0 else 1)
    ensures g.succeeded && g.recovered ==>
              g.firstUsage.Some? && g.secondUsage.Some? &&
              LastUsage(g.notes) == Some(Combined(g.firstUsage.value, g.secondUsage.value)) &&
              g.encoder.usage == Combined(g.firstUsage.value, g.secondUsage.value)
    ensures g.succeeded && !g.recovered && g.firstUsage.Some? ==> LastUsage(g.notes) == g.firstUsage
  {
    events := [];
    while true
      invariant g.Valid() && g.Following() && events == g.sent
      decreases g.Left(), |g.encoder.pending|
    {
      var event := g.Next();
      if event.None? {
        assert g.sent + g.encoder.pending == g.sent;
        return;
      }
      events := events + [event.value];
    }
  }
}
