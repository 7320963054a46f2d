// The streaming task of the proxy: upstream chunks in, transformed events out.
module StreamPipeline {
  import opened Text
  import opened SseFraming

  const MAX_SSE_PENDING_BYTES: nat := 2 * 1024 * 1024

  /** What one transformer call leaves behind: the mutated context and the output, None on error. */
  datatype Transformed<+C> = Transformed(ctx: C, out: Option<Bytes>)

  /** The parts of the stream whose source is elsewhere: the transformer, the finalizers of the two
      OpenAI-to-Claude converters and the test for an SSE prelude. */
  datatype Stage<!C> = Stage(
    name: string,
    transform: (C, Bytes) -> Transformed<C>,
    convertFinalizer: C -> (C, Bytes),
    looksLikeSse: Bytes -> bool)
  {
    predicate RequiresSseEventBuffer() {
      !(name == "cc_claude" || name == "cx_chat_openai" || name == "cx_resp_openai2")
    }

    function Finalize(ctx: C): (C, Bytes) {
      if name == "cc_openai" || name == "cc_openai2" then convertFinalizer(ctx) else (ctx, [])
    }
  }

  datatype FaultKind = ProbeFailed | Overflow | TransformFailed | ReadFailed

  /** One message on the downstream channel. `Final` marks bytes written by a finalizer. */
  datatype Item = Data(bytes: Bytes) | Final(bytes: Bytes) | Fault(kind: FaultKind)

  datatype Ending = Eof | ReadError

  /** `room` is how many more sends succeed before the client goes away. */
  datatype Task<+C> = Task(
    pending: Bytes, ctx: C, failed: bool, closed: bool, probe: bool, sent: seq<Item>, room: nat)
  {
    predicate Running() { !failed && !closed }

    function Send(item: Item): Task<C> {
      if room == 0 then this.(closed := true) else this.(sent := sent + [item], room := room - 1)
    }

    /** The result of sending an error item is ignored. */
    function SendFault(kind: FaultKind): Task<C> {
      if room == 0 then this else this.(sent := sent + [Fault(kind)], room := room - 1)
    }
  }

  function SendAll<C>(t: Task<C>, outs: seq<Bytes>): Task<C>
    decreases |outs|
  {
    if outs == [] || t.closed then t else SendAll(t.Send(Data(outs[0])), outs[1..])
  }

  function Fail<C>(p: Stage<C>, t: Task<C>, kind: FaultKind): Task<C> {
    var (ctx, bytes) := p.Finalize(t.ctx);
    var u := t.(failed := true, ctx := ctx);
    if bytes != [] then u.Send(Final(bytes)) else u.SendFault(kind)
  }

  datatype Drained<+C> = Drained(pending: Bytes, ctx: C, outs: seq<Bytes>, ok: bool)

  /** Pop and transform events until none is complete or one fails. */
  function Drain<C>(p: Stage<C>, pending: Bytes, ctx: C): Drained<C>
    decreases |pending|
  {
    var end := FirstEnd(pending, 0);
    if end == 0 then Drained(pending, ctx, [], true)
    else
      var t := p.transform(ctx, pending[..end]);
      if t.out.None? then Drained(pending[end..], t.ctx, [], false)
      else
        var rest := Drain(p, pending[end..], t.ctx);
        if t.out.value == [] then rest else rest.(outs := [t.out.value] + rest.outs)
  }

  function Process<C>(p: Stage<C>, t: Task<C>, chunk: Bytes): Task<C> {
    if !p.RequiresSseEventBuffer() then SendAll(t, [chunk])
    else
      var pending := t.pending + chunk;
      if |pending| > MAX_SSE_PENDING_BYTES then Fail(p, t.(pending := pending), Overflow)
      else
        var d := Drain(p, pending, t.ctx);
        var t := t.(pending := d.pending, ctx := d.ctx);
        if d.ok then SendAll(t, d.outs) else Fail(p, t, TransformFailed)
  }

  function OnChunk<C>(p: Stage<C>, t: Task<C>, chunk: Bytes): Task<C> {
    if t.probe && !p.looksLikeSse(chunk) then t.(probe := false, failed := true).SendFault(ProbeFailed)
    else Process(p, t.(probe := false), chunk)
  }

  function Tail<C>(p: Stage<C>, t: Task<C>): Task<C> {
    if !p.RequiresSseEventBuffer() || t.pending == [] then t
    else
      var r := p.transform(t.ctx, t.pending);
      var t := t.(pending := [], ctx := r.ctx);
      if r.out.None? then Fail(p, t, TransformFailed)
      else if r.out.value == [] then t else t.Send(Data(r.out.value))
  }

  function AtEofFinalizer<C>(p: Stage<C>, t: Task<C>): Task<C> {
    var (ctx, bytes) := p.Finalize(t.ctx);
    if bytes == [] then t.(ctx := ctx) else t.(ctx := ctx).Send(Final(bytes))
  }

  function AtEnd<C>(p: Stage<C>, t: Task<C>, ending: Ending): Task<C> {
    match ending
    case ReadError => Fail(p, t, ReadFailed)
    case Eof =>
      var t := Tail(p, t);
      if t.closed then t else AtEofFinalizer(p, t)
  }

  /** The whole stream. Chunks that arrive after a break are never read. */
  function Run<C>(p: Stage<C>, t: Task<C>, chunks: seq<Bytes>, ending: Ending): (r: Task<C>)
    ensures r.Running() ==> t.Running()
    decreases |chunks|
  {
    if !t.Running() then t
    else if chunks == [] then AtEnd(p, t, ending)
    else Run(p, OnChunk(p, t, chunks[0]), chunks[1..], ending)
  }

  function Start<C>(ctx: C, probe: bool, room: nat): Task<C> {
    Task([], ctx, false, false, probe, [], room)
  }

  // ----- the imperative stream loop -----

  class StreamTask<C> {
    const stage: Stage<C>
    var pending: Bytes
    var ctx: C
    var failed: bool
    var closed: bool
    var probe: bool
    var sent: seq<Item>
    var room: nat

    constructor (stage: Stage<C>, ctx: C, probe: bool, room: nat)
      ensures State() == Start(ctx, probe, room) && this.stage == stage
    {
      this.stage := stage;
      this.pending, this.ctx, this.failed, this.closed := [], ctx, false, false;
      this.probe, this.sent, this.room := probe, [], room;
    }

    ghost function State(): Task<C>
      reads this
    {
      Task(pending, ctx, failed, closed, probe, sent, room)
    }

    method SendItem(item: Item) returns (ok: bool)
      modifies this`sent, this`room
      ensures ok == (old(room) != 0)
      ensures sent == (if ok then old(sent) + [item] else old(sent))
      ensures room == (if ok then old(room) - 1 else 0)
    {
      ok := room != 0;
      if ok { sent, room := sent + [item], room - 1; }
    }

    method FailWith(kind: FaultKind)
      modifies this
      ensures State() == Fail(stage, old(State()), kind)
    {
      failed := true;
      var (next, bytes) := stage.Finalize(ctx);
      ctx := next;
      if bytes != [] {
        var ok := SendItem(Final(bytes));
        if !ok { closed := true; }
      } else {
        var _ := SendItem(Fault(kind));
      }
    }

    /** Cut the first complete event off the pending buffer. */
    method PopSseEvent() returns (event: Option<Bytes>)
      modifies this`pending
      ensures event.None? ==> NoDelimiter(pending) && pending == old(pending)
      ensures event.Some? ==> IsEvent(event.value) && event.value + pending == old(pending)
      ensures event.None? <==> FirstEnd(old(pending), 0) == 0
      ensures event.Some? ==> |event.value| == FirstEnd(old(pending), 0)
    {
      var d := FindSseDelimiter(pending);
      if d.NotFound? {
        FirstEndNone(pending, 0);
        return None;
      }
      FirstEndUnique(pending, 0, d.start, d.len);
      EventIsFirstCut(pending);
      var cut := d.start + d.len;
      event := Some(pending[..cut]);
      pending := pending[cut..];
    }

    method DrainEvents() returns (outs: seq<Bytes>, ok: bool)
      modifies this`pending, this`ctx
      ensures Drained(pending, ctx, outs, ok) == Drain(stage, old(pending), old(ctx))
    {
      outs, ok := [], true;
      ghost var whole := Drain(stage, pending, ctx);
      while true
        invariant ok
        invariant var rest := Drain(stage, pending, ctx); whole == rest.(outs := outs + rest.outs)
        decreases |pending|
      {
        ghost var before := pending;
        var event := PopSseEvent();
        if event.None? {
          assert outs + [] == outs;
          return;
        }
        assert before[..|event.value|] == event.value && before[|event.value|..] == pending;
        var r := stage.transform(ctx, event.value);
        ctx := r.ctx;
        if r.out.None? {
          ok := false;
          assert outs + [] == outs;
          return;
        }
        if r.out.value != [] {
          ghost var rest := Drain(stage, pending, ctx);
          assert outs + ([r.out.value] + rest.outs) == outs + [r.out.value] + rest.outs;
          outs := outs + [r.out.value];
        }
      }
    }

    method SendOutgoing(outs: seq<Bytes>)
      requires !closed
      modifies this`sent, this`room, this`closed
      ensures State() == SendAll(old(State()), outs)
    {
      ghost var whole := SendAll(State(), outs);
      var i := 0;
      while i < |outs|
        invariant 0 <= i <= |outs| && !closed
        invariant pending == old(pending) && ctx == old(ctx)
        invariant SendAll(State(), outs[i..]) == whole
      {
        var ok := SendItem(Data(outs[i]));
        if !ok {
          closed := true;
          return;
        }
        assert outs[i..][1..] == outs[i + 1..];
        i := i + 1;
      }
    }

    method ConsumeChunk(chunk: Bytes)
      requires !failed && !closed
      modifies this
      ensures State() == OnChunk(stage, old(State()), chunk)
    {
      if probe {
        probe := false;
        if !stage.looksLikeSse(chunk) {
          failed := true;
          var _ := SendItem(Fault(ProbeFailed));
          return;
        }
      }
      var outs := [chunk];
      if stage.RequiresSseEventBuffer() {
        pending := pending + chunk;
        if |pending| > MAX_SSE_PENDING_BYTES {
          FailWith(Overflow);
          return;
        }
        var ok;
        outs, ok := DrainEvents();
        if !ok {
          FailWith(TransformFailed);
          return;
        }
      }
      SendOutgoing(outs);
    }

    method FinishAtEof()
      requires !failed && !closed
      modifies this
      ensures State() == AtEnd(stage, old(State()), Eof)
    {
      if stage.RequiresSseEventBuffer() && pending != [] {
        var tail := pending;
        pending := [];
        var r := stage.transform(ctx, tail);
        ctx := r.ctx;
        if r.out.None? {
          FailWith(TransformFailed);
        } else if r.out.value != [] {
          var ok := SendItem(Data(r.out.value));
          if !ok { closed := true; }
        }
      }
      if !closed {
        var (next, bytes) := stage.Finalize(ctx);
        ctx := next;
        if bytes != [] {
          var ok := SendItem(Final(bytes));
          if !ok { closed := true; }
        }
      }
    }

    method Stream(chunks: seq<Bytes>, ending: Ending)
      requires !failed && !closed
      modifies this
      ensures State() == Run(stage, old(State()), chunks, ending)
    {
      ghost var whole := Run(stage, State(), chunks, ending);
      var i := 0;
      while i < |chunks|
        invariant 0 <= i <= |chunks| && !failed && !closed
        invariant Run(stage, State(), chunks[i..], ending) == whole
      {
        ConsumeChunk(chunks[i]);
        assert chunks[i..][1..] == chunks[i + 1..];
        i := i + 1;
        if failed || closed { return; }
      }
      if ending.Eof? { FinishAtEof(); } else { FailWith(ReadFailed); }
    }
  }
}
