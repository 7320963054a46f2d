// What the streaming task delivers, for every chunking and every way a run can end.
module StreamTheorems {
  import opened SseFraming
  import opened StreamPipeline

  // ----- the reference: one pass over the whole byte string -----

  datatype Folded<+C> = Folded(ctx: C, out: Bytes, ok: bool)

  /** Transform events in order, stopping at the first one that fails. */
  function Fold<C>(p: Stage<C>, ctx: C, events: seq<Bytes>): Folded<C> {
    if events == [] then Folded(ctx, [], true)
    else
      var t := p.transform(ctx, events[0]);
      if t.out.None? then Folded(t.ctx, [], false)
      else
        var rest := Fold(p, t.ctx, events[1..]);
        rest.(out := t.out.value + rest.out)
  }

  /** The events of a finished stream: the complete ones, then a non-empty tail. */
  function WholeEvents(b: Bytes): seq<Bytes> {
    var f := Split(b);
    if f.tail == [] then f.events else f.events + [f.tail]
  }

  /** What the transformer makes of the whole stream, up to its first failing event. */
  function Promise<C>(p: Stage<C>, ctx: C, whole: Bytes): Folded<C> {
    if p.RequiresSseEventBuffer() then Fold(p, ctx, WholeEvents(whole)) else Folded(ctx, whole, true)
  }

  /** Bytes the client received that were not written by a finalizer. */
  function DataBytes(items: seq<Item>): Bytes {
    if items == [] then []
    else DataBytes(items[..|items| - 1]) + (if items[|items| - 1].Data? then items[|items| - 1].bytes else [])
  }

  /** Every byte the client received. */
  function Delivered(items: seq<Item>): Bytes {
    if items == [] then []
    else Delivered(items[..|items| - 1]) + (if items[|items| - 1].Fault? then [] else items[|items| - 1].bytes)
  }

  ghost predicate AllData(items: seq<Item>) {
    forall i :: 0 <= i < |items| ==> items[i].Data?
  }

  /** Finalizer output and error items come only after all transformed data. */
  ghost predicate DataFirst(items: seq<Item>) {
    forall i, j :: 0 <= i < j < |items| && items[j].Data? ==> items[i].Data?
  }

  // ----- small facts -----

  lemma {:induction false} FoldAppend<C>(p: Stage<C>, ctx: C, a: seq<Bytes>, b: seq<Bytes>)
    ensures var fa := Fold(p, ctx, a); var fb := Fold(p, fa.ctx, b);
            Fold(p, ctx, a + b) == if fa.ok then fb.(out := fa.out + fb.out) else fa
    decreases |a|
  {
    if a == [] {
      assert a + b == b;
    } else {
      assert (a + b)[1..] == a[1..] + b;
      var t := p.transform(ctx, a[0]);
      if t.out.Some? {
        FoldAppend(p, t.ctx, a[1..], b);
      }
    }
  }

  lemma {:induction false} FlattenCons(x: Bytes, rest: seq<Bytes>)
    ensures Flatten([x] + rest) == x + Flatten(rest)
  {
    assert ([x] + rest)[1..] == rest;
  }

  /** Popping one event at a time does what folding over the batch split does. */
  lemma {:induction false} DrainIsFold<C>(p: Stage<C>, pending: Bytes, ctx: C)
    ensures var d := Drain(p, pending, ctx); var f := Fold(p, ctx, Split(pending).events);
            d.ok == f.ok && d.ctx == f.ctx && Flatten(d.outs) == f.out &&
            (d.ok ==> d.pending == Split(pending).tail)
    decreases |pending|
  {
    var end := FirstEnd(pending, 0);
    if end != 0 {
      var t := p.transform(ctx, pending[..end]);
      assert Split(pending).events[1..] == Split(pending[end..]).events;
      if t.out.Some? {
        DrainIsFold(p, pending[end..], t.ctx);
        FlattenCons(t.out.value, Drain(p, pending[end..], t.ctx).outs);
      }
    }
  }

  lemma SentOne(items: seq<Item>, item: Item)
    ensures DataBytes(items + [item]) == DataBytes(items) + (if item.Data? then item.bytes else [])
    ensures Delivered(items + [item]) == Delivered(items) + (if item.Fault? then [] else item.bytes)
  {
    assert (items + [item])[..|items|] == items;
  }

  lemma {:induction false} AllDataDelivered(items: seq<Item>)
    requires AllData(items)
    ensures Delivered(items) == DataBytes(items)
  {
    if items != [] { AllDataDelivered(items[..|items| - 1]); }
  }

  lemma {:induction false} SendAllKeeps<C>(t: Task<C>, outs: seq<Bytes>)
    requires AllData(t.sent)
    ensures var u := SendAll(t, outs);
            u == t.(sent := u.sent, room := u.room, closed := u.closed) && AllData(u.sent)
    decreases |outs|
  {
    if outs != [] && !t.closed { SendAllKeeps(t.Send(Data(outs[0])), outs[1..]); }
  }

  lemma {:induction false} SendAllSends<C>(t: Task<C>, outs: seq<Bytes>)
    ensures var u := SendAll(t, outs); var all := DataBytes(t.sent) + Flatten(outs);
            DataBytes(u.sent) <= all && (!u.closed ==> DataBytes(u.sent) == all)
    decreases |outs|
  {
    hide DataBytes;
    if outs != [] && !t.closed {
      var v := t.Send(Data(outs[0]));
      if v.closed {
        assert SendAll(v, outs[1..]) == v && v.sent == t.sent;
      } else {
        SentOne(t.sent, Data(outs[0]));
        SendAllSends(v, outs[1..]);
        assert DataBytes(t.sent) + Flatten(outs) == DataBytes(v.sent) + Flatten(outs[1..]);
      }
    }
  }

  lemma DataFirstKept(items: seq<Item>, item: Item)
    requires DataFirst(items) && (item.Data? ==> AllData(items))
    ensures DataFirst(items + [item])
  {
  }

  lemma FailAppendsNoData<C>(p: Stage<C>, t: Task<C>, kind: FaultKind)
    requires DataFirst(t.sent)
    ensures var u := Fail(p, t, kind);
            u.failed && DataFirst(u.sent) && DataBytes(u.sent) == DataBytes(t.sent)
  {
    var bytes := p.Finalize(t.ctx).1;
    var item := if bytes != [] then Final(bytes) else Fault(kind);
    SentOne(t.sent, item);
    DataFirstKept(t.sent, item);
    assert Fail(p, t, kind).sent == (if t.room == 0 then t.sent else t.sent + [item]);
  }

  // ----- the invariant between chunks -----

  /** State of a stream that is still running after receiving `recv`. */
  ghost predicate Between<C>(p: Stage<C>, ctx: C, t: Task<C>, recv: Bytes) {
    t.Running() && AllData(t.sent) &&
    if p.RequiresSseEventBuffer() then
      var f := Fold(p, ctx, Split(recv).events);
      t.pending == Split(recv).tail && |t.pending| <= MAX_SSE_PENDING_BYTES &&
      f.ok && t.ctx == f.ctx && DataBytes(t.sent) == f.out
    else
      t.pending == [] && t.ctx == ctx && DataBytes(t.sent) == recv
  }

  /** The data sent is a prefix of the promise for any continuation of the stream. */
  ghost predicate Safe<C>(p: Stage<C>, ctx: C, t: Task<C>, whole: Bytes) {
    DataFirst(t.sent) && DataBytes(t.sent) <= Promise(p, ctx, whole).out
  }

  lemma WholeEventsResume(recv: Bytes, more: Bytes)
    ensures WholeEvents(recv + more) == Split(recv).events + WholeEvents(Split(recv).tail + more)
  {
    SplitResumes(recv, more);
  }

  lemma BufferedChunk<C>(p: Stage<C>, ctx: C, t: Task<C>, recv: Bytes, chunk: Bytes)
    requires p.RequiresSseEventBuffer() && Between(p, ctx, t, recv)
    ensures var f := Fold(p, ctx, Split(recv + chunk).events);
            var d := Drain(p, t.pending + chunk, t.ctx);
            f.ok == d.ok && f.ctx == d.ctx && f.out == DataBytes(t.sent) + Flatten(d.outs) &&
            (d.ok ==> d.pending == Split(recv + chunk).tail)
  {
    SplitResumes(recv, chunk);
    var second := Split(t.pending + chunk);
    FoldAppend(p, ctx, Split(recv).events, second.events);
    DrainIsFold(p, t.pending + chunk, t.ctx);
  }

  lemma {:induction false} DrainShrinks<C>(p: Stage<C>, pending: Bytes, ctx: C)
    ensures |Drain(p, pending, ctx).pending| <= |pending|
    decreases |pending|
  {
    var end := FirstEnd(pending, 0);
    if end != 0 { DrainShrinks(p, pending[end..], p.transform(ctx, pending[..end]).ctx); }
  }

  /** What a running task owes the client for the bytes received so far. */
  function Owed<C>(p: Stage<C>, ctx: C, recv: Bytes): Bytes {
    if p.RequiresSseEventBuffer() then Fold(p, ctx, Split(recv).events).out else recv
  }

  lemma OwedIsPromised<C>(p: Stage<C>, ctx: C, recv: Bytes, more: Bytes)
    ensures Owed(p, ctx, recv) <= Promise(p, ctx, recv + more).out
    ensures p.RequiresSseEventBuffer() && Promise(p, ctx, recv + more).ok ==> Fold(p, ctx, Split(recv).events).ok
  {
    if p.RequiresSseEventBuffer() {
      WholeEventsResume(recv, more);
      FoldAppend(p, ctx, Split(recv).events, WholeEvents(Split(recv).tail + more));
    }
  }

  lemma BufferedStep<C>(p: Stage<C>, ctx: C, t: Task<C>, recv: Bytes, chunk: Bytes, goal: Bytes)
    requires p.RequiresSseEventBuffer() && Between(p, ctx, t, recv)
    requires DataBytes(t.sent) <= goal && Owed(p, ctx, recv + chunk) <= goal
    ensures var u := Process(p, t, chunk);
            if u.Running() then Between(p, ctx, u, recv + chunk)
            else DataFirst(u.sent) && DataBytes(u.sent) <= goal
  {
    if |t.pending + chunk| > MAX_SSE_PENDING_BYTES {
      FailAppendsNoData(p, t.(pending := t.pending + chunk), Overflow);
    } else {
      BufferedChunk(p, ctx, t, recv, chunk);
      var d := Drain(p, t.pending + chunk, t.ctx);
      var v := t.(pending := d.pending, ctx := d.ctx);
      if d.ok {
        DrainShrinks(p, t.pending + chunk, t.ctx);
        SendAllKeeps(v, d.outs);
        SendAllSends(v, d.outs);
      } else {
        FailAppendsNoData(p, v, TransformFailed);
      }
    }
  }

  lemma PassthroughStep<C>(p: Stage<C>, ctx: C, t: Task<C>, recv: Bytes, chunk: Bytes, goal: Bytes)
    requires !p.RequiresSseEventBuffer() && Between(p, ctx, t, recv) && recv + chunk <= goal
    ensures var u := Process(p, t, chunk);
            if u.Running() then Between(p, ctx, u, recv + chunk)
            else DataFirst(u.sent) && DataBytes(u.sent) <= goal
  {
    SendAllKeeps(t, [chunk]);
    SendAllSends(t, [chunk]);
    FlattenCons(chunk, []);
    assert [chunk] + [] == [chunk];
  }

  /** One chunk: either the stream still runs and the invariant holds for the longer prefix, or it has
      stopped and sent no more than it owed. */
  lemma ChunkStep<C>(p: Stage<C>, ctx: C, t: Task<C>, recv: Bytes, chunk: Bytes, goal: Bytes)
    requires Between(p, ctx, t, recv) && DataBytes(t.sent) <= goal && Owed(p, ctx, recv + chunk) <= goal
    ensures var u := OnChunk(p, t, chunk);
            if u.Running() then Between(p, ctx, u, recv + chunk)
            else DataFirst(u.sent) && DataBytes(u.sent) <= goal
  {
    if t.probe && !p.looksLikeSse(chunk) {
      SentOne(t.sent, Fault(ProbeFailed));
      DataFirstKept(t.sent, Fault(ProbeFailed));
    } else if p.RequiresSseEventBuffer() {
      BufferedStep(p, ctx, t.(probe := false), recv, chunk, goal);
    } else {
      PassthroughStep(p, ctx, t.(probe := false), recv, chunk, goal);
    }
  }

  lemma RunningStep<C>(p: Stage<C>, ctx: C, t: Task<C>, recv: Bytes, chunk: Bytes)
    requires Between(p, ctx, t, recv) && OnChunk(p, t, chunk).Running()
    ensures Between(p, ctx, OnChunk(p, t, chunk), recv + chunk)
  {
    OwedIsPromised(p, ctx, recv, chunk);
    OwedIsPromised(p, ctx, recv + chunk, []);
    assert recv + chunk + [] == recv + chunk;
    ChunkStep(p, ctx, t, recv, chunk, Promise(p, ctx, recv + chunk).out);
  }

  /** Only the two converters from OpenAI to Claude have something to add when a stream ends. */
  function Closing<C>(p: Stage<C>, c: C): (C, Bytes) {
    if p.name in {"cc_openai", "cc_openai2"} then p.convertFinalizer(c) else (c, [])
  }

  /** The end of the stream. `Clean` says what a run without failure or client close delivered. */
  ghost predicate Clean<C>(p: Stage<C>, ctx: C, u: Task<C>, whole: Bytes) {
    var f := Promise(p, ctx, whole);
    f.ok && u.ctx == Closing(p, f.ctx).0 && Delivered(u.sent) == f.out + Closing(p, f.ctx).1
  }

  lemma PromiseOfTail<C>(p: Stage<C>, ctx: C, t: Task<C>, recv: Bytes)
    requires p.RequiresSseEventBuffer() && Between(p, ctx, t, recv)
    ensures var r := p.transform(t.ctx, t.pending);
            Promise(p, ctx, recv) ==
            if t.pending == [] then Folded(t.ctx, DataBytes(t.sent), true)
            else if r.out.None? then Folded(r.ctx, DataBytes(t.sent), false)
            else Folded(r.ctx, DataBytes(t.sent) + r.out.value, true)
  {
    FoldAppend(p, ctx, Split(recv).events, [t.pending]);
    assert Fold(p, t.ctx, [t.pending]) ==
           var r := p.transform(t.ctx, t.pending);
           if r.out.None? then Folded(r.ctx, [], false) else Folded(r.ctx, r.out.value, true);
  }

  lemma TailStep<C>(p: Stage<C>, ctx: C, t: Task<C>, recv: Bytes)
    requires Between(p, ctx, t, recv)
    ensures var u := Tail(p, t); var f := Promise(p, ctx, recv);
            DataFirst(u.sent) && DataBytes(u.sent) <= f.out && (u.failed <==> !f.ok) &&
            (u.Running() ==> AllData(u.sent) && u.ctx == f.ctx && DataBytes(u.sent) == f.out)
  {
    hide Fold;
    hide Split;
    hide WholeEvents;
    hide DataBytes;
    if p.RequiresSseEventBuffer() && t.pending != [] {
      PromiseOfTail(p, ctx, t, recv);
      hide Promise;
      var r := p.transform(t.ctx, t.pending);
      if r.out.None? {
        FailAppendsNoData(p, t.(pending := [], ctx := r.ctx), TransformFailed);
      } else {
        var u := Tail(p, t);
        assert u.ctx == r.ctx && u.failed == t.failed;
        assert u.sent == t.sent || u.sent == t.sent + [Data(r.out.value)];
        assert AllData(u.sent);
        SentOne(t.sent, Data(r.out.value));
      }
    } else if p.RequiresSseEventBuffer() {
      PromiseOfTail(p, ctx, t, recv);
    }
  }

  lemma FinalizerStep<C>(p: Stage<C>, ctx: C, v: Task<C>, recv: Bytes)
    requires var f := Promise(p, ctx, recv);
             DataFirst(v.sent) && DataBytes(v.sent) <= f.out && (v.failed <==> !f.ok) &&
             (v.Running() ==> AllData(v.sent) && v.ctx == f.ctx && DataBytes(v.sent) == f.out)
    ensures var u := if v.closed then v else AtEofFinalizer(p, v);
            Safe(p, ctx, u, recv) && (u.Running() ==> Clean(p, ctx, u, recv))
  {
    if !v.closed {
      var item := Final(p.Finalize(v.ctx).1);
      SentOne(v.sent, item);
      DataFirstKept(v.sent, item);
      var u := AtEofFinalizer(p, v);
      assert u.sent == v.sent || u.sent == v.sent + [item];
      if v.Running() { AllDataDelivered(v.sent); }
    }
  }

  lemma EndStep<C>(p: Stage<C>, ctx: C, t: Task<C>, recv: Bytes, ending: Ending)
    requires Between(p, ctx, t, recv)
    ensures var u := AtEnd(p, t, ending);
            Safe(p, ctx, u, recv) &&
            (u.Running() ==> ending.Eof? && Clean(p, ctx, u, recv))
  {
    if ending.ReadError? {
      FailAppendsNoData(p, t, ReadFailed);
      OwedIsPromised(p, ctx, recv, []);
      assert recv + [] == recv;
    } else {
      TailStep(p, ctx, t, recv);
      FinalizerStep(p, ctx, Tail(p, t), recv);
    }
  }

  lemma {:induction false} RunCorrect<C>(
    p: Stage<C>, ctx: C, t: Task<C>, recv: Bytes, chunks: seq<Bytes>, ending: Ending)
    requires Between(p, ctx, t, recv)
    ensures var u := Run(p, t, chunks, ending); var whole := recv + Flatten(chunks);
            Safe(p, ctx, u, whole) && (u.Running() ==> ending.Eof? && Clean(p, ctx, u, whole))
    decreases |chunks|
  {
    if chunks == [] {
      assert recv + Flatten(chunks) == recv;
      EndStep(p, ctx, t, recv, ending);
    } else {
      var more := Flatten(chunks[1..]);
      assert recv + Flatten(chunks) == recv + chunks[0] + more;
      OwedIsPromised(p, ctx, recv, chunks[0] + more);
      OwedIsPromised(p, ctx, recv + chunks[0], more);
      assert recv + (chunks[0] + more) == recv + chunks[0] + more;
      ChunkStep(p, ctx, t, recv, chunks[0], Promise(p, ctx, recv + chunks[0] + more).out);
      var u := OnChunk(p, t, chunks[0]);
      if u.Running() {
        RunCorrect(p, ctx, u, recv + chunks[0], chunks[1..], ending);
      }
    }
  }

  // ----- main results -----

  /** A run that neither fails nor loses its client delivers the one-pass transform of the whole
      stream followed by the finalizer; a passthrough transformer delivers the stream unchanged. */
  lemma CleanRunDeliversWholeTransform<C>(
    p: Stage<C>, ctx: C, probe: bool, room: nat, chunks: seq<Bytes>, ending: Ending)
    requires Run(p, Start(ctx, probe, room), chunks, ending).Running()
    ensures var u := Run(p, Start(ctx, probe, room), chunks, ending); var whole := Flatten(chunks);
            ending.Eof? && Clean(p, ctx, u, whole) &&
            if p.name in {"cc_claude", "cx_chat_openai", "cx_resp_openai2"} then Delivered(u.sent) == whole && u.ctx == ctx
            else
              var f := Fold(p, ctx, WholeEvents(whole));
              f.ok && Delivered(u.sent) == f.out + Closing(p, f.ctx).1 && u.ctx == Closing(p, f.ctx).0
  {
    assert Between(p, ctx, Start(ctx, probe, room), []);
    assert [] + Flatten(chunks) == Flatten(chunks);
    RunCorrect(p, ctx, Start(ctx, probe, room), [], chunks, ending);
  }

  // ----- a clean run item by item -----

  /** One data item for each of `outs`. */
  function Items(outs: seq<Bytes>): (r: seq<Item>)
    ensures |r| == |outs| && forall i :: 0 <= i < |r| ==> r[i] == Data(outs[i])
  {
    seq(|outs|, i requires 0 <= i < |outs| => Data(outs[i]))
  }

  /** What the transformer makes of each event, without the empty ones, up to the first failing event. */
  function Outputs<C>(p: Stage<C>, ctx: C, events: seq<Bytes>): seq<Bytes> {
    if events == [] then []
    else
      var t := p.transform(ctx, events[0]);
      if t.out.None? then []
      else (if t.out.value == [] then [] else [t.out.value]) + Outputs(p, t.ctx, events[1..])
  }

  lemma {:induction false} OutputsAppend<C>(p: Stage<C>, ctx: C, a: seq<Bytes>, b: seq<Bytes>)
    requires Fold(p, ctx, a).ok
    ensures Outputs(p, ctx, a + b) == Outputs(p, ctx, a) + Outputs(p, Fold(p, ctx, a).ctx, b)
    decreases |a|
  {
    if a == [] {
      assert a + b == b;
    } else {
      assert (a + b)[1..] == a[1..] + b;
      OutputsAppend(p, p.transform(ctx, a[0]).ctx, a[1..], b);
    }
  }

  lemma {:induction false} DrainedOutputs<C>(p: Stage<C>, pending: Bytes, ctx: C)
    requires Drain(p, pending, ctx).ok
    ensures Drain(p, pending, ctx).outs == Outputs(p, ctx, Split(pending).events)
    decreases |pending|
  {
    var end := FirstEnd(pending, 0);
    if end != 0 {
      assert Split(pending).events[1..] == Split(pending[end..]).events;
      DrainedOutputs(p, pending[end..], p.transform(ctx, pending[..end]).ctx);
    }
  }

  lemma ItemsCons(outs: seq<Bytes>)
    ensures outs != [] ==> Items(outs) == [Data(outs[0])] + Items(outs[1..])
  {
  }

  lemma SendAllStep<C>(t: Task<C>, outs: seq<Bytes>) returns (v: Task<C>)
    requires outs != [] && !SendAll(t, outs).closed
    ensures SendAll(t, outs) == SendAll(v, outs[1..]) && v.sent == t.sent + [Data(outs[0])]
  {
    v := t.Send(Data(outs[0]));
    ClosedStays(t, outs);
    ClosedStays(v, outs[1..]);
  }

  lemma {:induction false} SendAllItems<C>(t: Task<C>, outs: seq<Bytes>)
    requires !SendAll(t, outs).closed
    ensures SendAll(t, outs).sent == t.sent + Items(outs)
    decreases |outs|
  {
    if outs == [] {
      assert Items(outs) == [] && SendAll(t, outs) == t;
    } else {
      hide *;
      ItemsCons(outs);
      var v := SendAllStep(t, outs);
      SendAllItems(v, outs[1..]);
      Regroup(t.sent, [Data(outs[0])], Items(outs[1..]));
    }
  }

  lemma Regroup(a: seq<Item>, b: seq<Item>, c: seq<Item>)
    ensures a + (b + c) == a + b + c
  {
  }

  lemma ClosedStays<C>(t: Task<C>, outs: seq<Bytes>)
    ensures t.closed ==> SendAll(t, outs).closed
  {
  }

  /** The items a running stream has sent for the chunks received so far. */
  function SentFor<C>(p: Stage<C>, ctx: C, chunks: seq<Bytes>): seq<Bytes> {
    if p.RequiresSseEventBuffer() then Outputs(p, ctx, Split(Flatten(chunks)).events) else chunks
  }

  lemma ChunkItems<C>(p: Stage<C>, ctx: C, t: Task<C>, done: seq<Bytes>, chunk: Bytes)
    requires Between(p, ctx, t, Flatten(done)) && OnChunk(p, t, chunk).Running() && t.sent == Items(SentFor(p, ctx, done))
    ensures OnChunk(p, t, chunk).sent == Items(SentFor(p, ctx, done + [chunk]))
  {
    FlattenLast(done, chunk);
    if p.RequiresSseEventBuffer() {
      BufferedItems(p, ctx, t, Flatten(done), chunk);
    } else {
      hide Flatten;
      SendAllItems(t.(probe := false), [chunk]);
      assert Items(done + [chunk]) == Items(done) + Items([chunk]);
    }
  }

  lemma BufferedItems<C>(p: Stage<C>, ctx: C, t: Task<C>, recv: Bytes, chunk: Bytes)
    requires p.RequiresSseEventBuffer() && Between(p, ctx, t, recv) && OnChunk(p, t, chunk).Running()
    requires t.sent == Items(Outputs(p, ctx, Split(recv).events))
    ensures OnChunk(p, t, chunk).sent == Items(Outputs(p, ctx, Split(recv + chunk).events))
  {
    hide Outputs, Split, Fold, DataBytes, Drain, SendAll, Between;
    var d := Drain(p, t.pending + chunk, t.ctx);
    assert d.ok;
    BufferedOutputs(p, ctx, t, recv, chunk);
    SendAllItems(t.(probe := false, pending := d.pending, ctx := d.ctx), d.outs);
    assert Items(Outputs(p, ctx, Split(recv).events) + d.outs) == t.sent + Items(d.outs);
  }

  lemma BufferedOutputs<C>(p: Stage<C>, ctx: C, t: Task<C>, recv: Bytes, chunk: Bytes)
    requires p.RequiresSseEventBuffer() && Between(p, ctx, t, recv) && Drain(p, t.pending + chunk, t.ctx).ok
    ensures Outputs(p, ctx, Split(recv + chunk).events) ==
            Outputs(p, ctx, Split(recv).events) + Drain(p, t.pending + chunk, t.ctx).outs
  {
    SplitResumes(recv, chunk);
    OutputsAppend(p, ctx, Split(recv).events, Split(t.pending + chunk).events);
    DrainedOutputs(p, t.pending + chunk, t.ctx);
  }

  /** The items of a finished stream: as `SentFor`, with the tail as a last event. */
  function AllSent<C>(p: Stage<C>, ctx: C, chunks: seq<Bytes>): seq<Bytes> {
    if p.name in {"cc_claude", "cx_chat_openai", "cx_resp_openai2"} then chunks
    else Outputs(p, ctx, WholeEvents(Flatten(chunks)))
  }

  lemma TailOutputs<C>(p: Stage<C>, ctx: C, t: Task<C>, done: seq<Bytes>)
    requires Between(p, ctx, t, Flatten(done)) && Tail(p, t).Running() && t.sent == Items(SentFor(p, ctx, done))
    ensures Tail(p, t).sent == Items(AllSent(p, ctx, done))
  {
    var recv := Flatten(done);
    if p.RequiresSseEventBuffer() && t.pending != [] {
      hide Flatten;
      BufferedTail(p, ctx, t, recv);
    }
  }

  lemma OneOutput<C>(p: Stage<C>, ctx: C, event: Bytes)
    ensures Outputs(p, ctx, [event]) ==
            var out := p.transform(ctx, event).out;
            if out.None? || out.value == [] then [] else [out.value]
  {
    var r := p.transform(ctx, event);
    assert [event][1..] == [];
    assert Outputs(p, r.ctx, []) == [];
  }

  lemma WholeOutputs<C>(p: Stage<C>, ctx: C, t: Task<C>, recv: Bytes)
    requires p.RequiresSseEventBuffer() && Between(p, ctx, t, recv) && t.pending != []
    ensures var out := p.transform(t.ctx, t.pending).out;
            Outputs(p, ctx, WholeEvents(recv)) ==
            Outputs(p, ctx, Split(recv).events) + if out.None? || out.value == [] then [] else [out.value]
  {
    OutputsAppend(p, ctx, Split(recv).events, [t.pending]);
    OneOutput(p, t.ctx, t.pending);
    hide Outputs, Fold, Split, DataBytes;
  }

  lemma ItemsJoin(a: seq<Bytes>, b: seq<Bytes>)
    ensures Items(a + b) == Items(a) + Items(b)
  {
  }

  lemma BufferedTail<C>(p: Stage<C>, ctx: C, t: Task<C>, recv: Bytes)
    requires p.RequiresSseEventBuffer() && Between(p, ctx, t, recv) && Tail(p, t).Running() && t.pending != []
    requires t.sent == Items(Outputs(p, ctx, Split(recv).events))
    ensures Tail(p, t).sent == Items(Outputs(p, ctx, WholeEvents(recv)))
  {
    WholeOutputs(p, ctx, t, recv);
    hide Outputs, Split, WholeEvents, Between;
    var out := p.transform(t.ctx, t.pending).out;
    assert out.Some?;
    hide Fail;
    ItemsJoin(Outputs(p, ctx, Split(recv).events), if out.value == [] then [] else [out.value]);
  }

  lemma {:induction false} RunItems<C>(
    p: Stage<C>, ctx: C, t: Task<C>, done: seq<Bytes>, chunks: seq<Bytes>, ending: Ending)
    requires Between(p, ctx, t, Flatten(done)) && t.sent == Items(SentFor(p, ctx, done)) && Run(p, t, chunks, ending).Running()
    ensures var u := Run(p, t, chunks, ending); var bytes := Closing(p, Promise(p, ctx, Flatten(done + chunks)).ctx).1;
            u.sent == Items(AllSent(p, ctx, done + chunks)) + if bytes == [] then [] else [Final(bytes)]
    decreases |chunks|
  {
    hide Fold, Split, WholeEvents, DataBytes, Outputs, OnChunk, SentFor, AllSent, Items, Flatten;
    if chunks == [] {
      assert done + chunks == done;
      TailOutputs(p, ctx, t, done);
      TailStep(p, ctx, t, Flatten(done));
      hide Tail, Between, Promise;
    } else {
      var u := OnChunk(p, t, chunks[0]);
      assert u.Running();
      ChunkItems(p, ctx, t, done, chunks[0]);
      RunningStep(p, ctx, t, Flatten(done), chunks[0]);
      FlattenLast(done, chunks[0]);
      hide Between, Promise;
      RunItems(p, ctx, u, done + [chunks[0]], chunks[1..], ending);
      assert done + [chunks[0]] + chunks[1..] == done + chunks;
    }
  }

  lemma FlattenLast(done: seq<Bytes>, chunk: Bytes)
    ensures Flatten(done + [chunk]) == Flatten(done) + chunk
  {
    FlattenAppend(done, [chunk]);
    FlattenCons(chunk, []);
    assert [chunk] + [] == [chunk];
  }

  /** What a clean run sends, item by item: every chunk of a passthrough stream, or else every output that is not
      empty; then the closing bytes, if any. */
  lemma CleanRunItems<C>(p: Stage<C>, ctx: C, probe: bool, room: nat, chunks: seq<Bytes>, ending: Ending)
    requires Run(p, Start(ctx, probe, room), chunks, ending).Running()
    ensures var u := Run(p, Start(ctx, probe, room), chunks, ending);
            var bytes := Closing(p, Promise(p, ctx, Flatten(chunks)).ctx).1;
            u.sent == Items(AllSent(p, ctx, chunks)) + if bytes == [] then [] else [Final(bytes)]
  {
    assert Between(p, ctx, Start(ctx, probe, room), Flatten([])) && Items(SentFor(p, ctx, [])) == [];
    assert [] + chunks == chunks;
    RunItems(p, ctx, Start(ctx, probe, room), [], chunks, ending);
  }

  /** Where the chunk boundaries fall makes no difference. */
  lemma ChunkingIndependence<C>(
    p: Stage<C>, ctx: C, chunks: seq<Bytes>, probe: bool, room: nat, ending: Ending,
    chunks': seq<Bytes>, probe': bool, room': nat, ending': Ending)
    requires Flatten(chunks) == Flatten(chunks')
    requires Run(p, Start(ctx, probe, room), chunks, ending).Running()
    requires Run(p, Start(ctx, probe', room'), chunks', ending').Running()
    ensures var u := Run(p, Start(ctx, probe, room), chunks, ending);
            var u' := Run(p, Start(ctx, probe', room'), chunks', ending');
            Delivered(u.sent) == Delivered(u'.sent) && u.ctx == u'.ctx
  {
    CleanRunDeliversWholeTransform(p, ctx, probe, room, chunks, ending);
    CleanRunDeliversWholeTransform(p, ctx, probe', room', chunks', ending');
  }

  /** Every run at all: data precedes finalizers and errors, and is a prefix of the one-pass
      transform of the whole stream up to its first failing event. */
  lemma EveryRunIsSafe<C>(p: Stage<C>, ctx: C, probe: bool, room: nat, chunks: seq<Bytes>, ending: Ending)
    ensures Safe(p, ctx, Run(p, Start(ctx, probe, room), chunks, ending), Flatten(chunks))
  {
    assert Between(p, ctx, Start(ctx, probe, room), []);
    assert [] + Flatten(chunks) == Flatten(chunks);
    RunCorrect(p, ctx, Start(ctx, probe, room), [], chunks, ending);
  }

  // ----- what a failed run has delivered -----

  /** A chunk passes the probe, fits into the buffer and completes no failing event. */
  predicate Accepts<C>(p: Stage<C>, ctx: C, probe: bool, recv: Bytes, chunk: Bytes) {
    (probe ==> p.looksLikeSse(chunk)) &&
    (p.RequiresSseEventBuffer() ==>
       |Split(recv).tail| + |chunk| <= MAX_SSE_PENDING_BYTES && Fold(p, ctx, Split(recv + chunk).events).ok)
  }

  /** How many chunks are accepted before the first that is not. */
  function Accepted<C>(p: Stage<C>, ctx: C, probe: bool, recv: Bytes, chunks: seq<Bytes>): (n: nat)
    ensures n <= |chunks|
    decreases |chunks|
  {
    if chunks == [] || !Accepts(p, ctx, probe, recv, chunks[0]) then 0
    else 1 + Accepted(p, ctx, false, recv + chunks[0], chunks[1..])
  }

  lemma RefusedChunkAddsNothing<C>(p: Stage<C>, ctx: C, t: Task<C>, recv: Bytes, chunk: Bytes)
    requires Between(p, ctx, t, recv)
    ensures var u := OnChunk(p, t, chunk);
            if Accepts(p, ctx, t.probe, recv, chunk) then !u.failed && !u.probe
            else u.failed && DataBytes(u.sent) == DataBytes(t.sent)
  {
    if t.probe && !p.looksLikeSse(chunk) {
      SentOne(t.sent, Fault(ProbeFailed));
    } else if p.RequiresSseEventBuffer() {
      var t' := t.(probe := false, pending := t.pending + chunk);
      if |t'.pending| > MAX_SSE_PENDING_BYTES {
        FailAppendsNoData(p, t', Overflow);
      } else {
        BufferedChunk(p, ctx, t, recv, chunk);
        var d := Drain(p, t'.pending, t.ctx);
        var v := t'.(pending := d.pending, ctx := d.ctx);
        if d.ok { SendAllKeeps(v, d.outs); } else { FailAppendsNoData(p, v, TransformFailed); }
      }
    } else {
      SendAllKeeps(t.(probe := false), [chunk]);
    }
  }

  lemma FailedTailAddsNothing<C>(p: Stage<C>, t: Task<C>)
    requires t.Running() && AllData(t.sent) && Tail(p, t).failed
    ensures DataBytes(Tail(p, t).sent) == DataBytes(t.sent)
  {
    hide DataBytes, Fail;
    var r := p.transform(t.ctx, t.pending);
    if r.out.None? { FailAppendsNoData(p, t.(pending := [], ctx := r.ctx), TransformFailed); }
  }

  lemma FinalizerAddsNoData<C>(p: Stage<C>, v: Task<C>)
    ensures var u := AtEofFinalizer(p, v); DataBytes(u.sent) == DataBytes(v.sent) && u.failed == v.failed
  {
    hide DataBytes;
    SentOne(v.sent, Final(p.Finalize(v.ctx).1));
  }

  lemma FailedEndAddsNothing<C>(p: Stage<C>, t: Task<C>, ending: Ending)
    requires t.Running() && AllData(t.sent) && AtEnd(p, t, ending).failed
    ensures DataBytes(AtEnd(p, t, ending).sent) == DataBytes(t.sent)
  {
    hide DataBytes, Fail, Tail, AtEofFinalizer;
    if ending.ReadError? {
      FailAppendsNoData(p, t, ReadFailed);
    } else {
      FinalizerAddsNoData(p, Tail(p, t));
      FailedTailAddsNothing(p, t);
    }
  }

  lemma BetweenOwes<C>(p: Stage<C>, ctx: C, t: Task<C>, recv: Bytes)
    requires Between(p, ctx, t, recv)
    ensures t.Running() && AllData(t.sent) && DataBytes(t.sent) == Owed(p, ctx, recv)
  {
  }

  lemma FirstChunkIn(recv: Bytes, chunks: seq<Bytes>, n: nat)
    requires n < |chunks|
    ensures recv + chunks[0] + Flatten(chunks[1..][..n]) == recv + Flatten(chunks[..n + 1])
  {
    assert chunks[..n + 1][1..] == chunks[1..][..n];
  }

  lemma {:induction false} FailedRunOwes<C>(
    p: Stage<C>, ctx: C, t: Task<C>, recv: Bytes, chunks: seq<Bytes>, ending: Ending)
    requires Between(p, ctx, t, recv) && Run(p, t, chunks, ending).failed
    ensures var n := Accepted(p, ctx, t.probe, recv, chunks);
            DataBytes(Run(p, t, chunks, ending).sent) == Owed(p, ctx, recv + Flatten(chunks[..n]))
    decreases |chunks|
  {
    BetweenOwes(p, ctx, t, recv);
    hide Between, OnChunk, AtEnd, Accepts, Owed, DataBytes, AllData, Split, Fold;
    if chunks == [] {
      FailedEndAddsNothing(p, t, ending);
      assert recv + Flatten(chunks[..0]) == recv;
    } else {
      var u := OnChunk(p, t, chunks[0]);
      RefusedChunkAddsNothing(p, ctx, t, recv, chunks[0]);
      if u.Running() {
        RunningStep(p, ctx, t, recv, chunks[0]);
        FailedRunOwes(p, ctx, u, recv + chunks[0], chunks[1..], ending);
        FirstChunkIn(recv, chunks, Accepted(p, ctx, false, recv + chunks[0], chunks[1..]));
      } else {
        assert recv + Flatten(chunks[..0]) == recv;
      }
    }
  }

  /** A failed run has delivered exactly what was owed for the chunks before the one that failed: results
      of events completed by that chunk are lost. */
  lemma FailedRunDeliversOwed<C>(p: Stage<C>, ctx: C, probe: bool, room: nat, chunks: seq<Bytes>, ending: Ending)
    requires Run(p, Start(ctx, probe, room), chunks, ending).failed
    ensures var n := Accepted(p, ctx, probe, [], chunks);
            DataBytes(Run(p, Start(ctx, probe, room), chunks, ending).sent) == Owed(p, ctx, Flatten(chunks[..n]))
  {
    hide Owed;
    var n := Accepted(p, ctx, probe, [], chunks);
    assert Between(p, ctx, Start(ctx, probe, room), []);
    assert [] + Flatten(chunks[..n]) == Flatten(chunks[..n]);
    FailedRunOwes(p, ctx, Start(ctx, probe, room), [], chunks, ending);
  }

  // ----- what a failed run tells the client -----

  /** What a failure in context `c` sends, and the context it leaves: closing bytes or, without any, the error. */
  function Notice<C>(p: Stage<C>, c: C, kind: FaultKind): (seq<Item>, C) {
    var (left, bytes) := Closing(p, c);
    ([if bytes != [] then Final(bytes) else Fault(kind)], left)
  }

  /** The context after the complete events of `recv`. */
  function CtxAfter<C>(p: Stage<C>, ctx: C, recv: Bytes): C {
    if p.RequiresSseEventBuffer() then Fold(p, ctx, Split(recv).events).ctx else ctx
  }

  /** What follows the data of a failed run, and the context it leaves, told from the first chunk that is not
      accepted or else from the ending. After a tail that fails the stream still ends as usual. */
  function Trailer<C>(p: Stage<C>, ctx: C, probe: bool, recv: Bytes, chunks: seq<Bytes>, ending: Ending): (seq<Item>, C) {
    var n := Accepted(p, ctx, probe, recv, chunks);
    var got := recv + Flatten(chunks[..n]);
    if n < |chunks| then RefusedTrailer(p, ctx, probe && n == 0, got, chunks[n])
    else if ending.ReadError? then Notice(p, CtxAfter(p, ctx, got), ReadFailed)
    else
      var (first, mid) := Notice(p, Fold(p, ctx, WholeEvents(got)).ctx, TransformFailed);
      var (left, bytes) := Closing(p, mid);
      (first + (if bytes != [] then [Final(bytes)] else []), left)
  }

  function RefusedTrailer<C>(p: Stage<C>, ctx: C, probe: bool, got: Bytes, chunk: Bytes): (seq<Item>, C) {
    if probe && !p.looksLikeSse(chunk) then ([Fault(ProbeFailed)], CtxAfter(p, ctx, got))
    else if |Split(got).tail| + |chunk| > 2097152 then Notice(p, CtxAfter(p, ctx, got), Overflow)
    else Notice(p, Fold(p, ctx, Split(got + chunk).events).ctx, TransformFailed)
  }

  /** `u` has sent `front` and then `end`, and is left with its context. */
  ghost predicate EndsWith<C>(u: Task<C>, front: seq<Item>, end: (seq<Item>, C)) {
    u.sent == front + end.0 && u.ctx == end.1
  }

  lemma FailTells<C>(p: Stage<C>, t: Task<C>, kind: FaultKind)
    requires Fail(p, t, kind).room > 0
    ensures EndsWith(Fail(p, t, kind), t.sent, Notice(p, t.ctx, kind)) && Fail(p, t, kind).closed == t.closed
  {
  }

  lemma RefusedChunkTells<C>(p: Stage<C>, ctx: C, t: Task<C>, recv: Bytes, chunk: Bytes)
    requires Between(p, ctx, t, recv) && !Accepts(p, ctx, t.probe, recv, chunk) && OnChunk(p, t, chunk).room > 0
    ensures EndsWith(OnChunk(p, t, chunk), t.sent, RefusedTrailer(p, ctx, t.probe, recv, chunk))
  {
    if !(t.probe && !p.looksLikeSse(chunk)) {
      var t' := t.(probe := false, pending := t.pending + chunk);
      if |t'.pending| > MAX_SSE_PENDING_BYTES {
        FailTells(p, t', Overflow);
      } else {
        BufferedChunk(p, ctx, t, recv, chunk);
        var d := Drain(p, t'.pending, t.ctx);
        FailTells(p, t'.(pending := d.pending, ctx := d.ctx), TransformFailed);
      }
    }
  }

  /** A failure and then the ordinary end. */
  lemma FailedTailTells<C>(p: Stage<C>, t: Task<C>)
    requires AtEofFinalizer(p, Fail(p, t, TransformFailed)).room > 0
    ensures var (first, mid) := Notice(p, t.ctx, TransformFailed); var (left, bytes) := Closing(p, mid);
            EndsWith(AtEofFinalizer(p, Fail(p, t, TransformFailed)), t.sent,
                     (first + (if bytes != [] then [Final(bytes)] else []), left))
  {
    var u := Fail(p, t, TransformFailed);
    assert u.room > 0 by { FinalizerAddsNoData(p, u); }
    FailTells(p, t, TransformFailed);
    hide Fail;
    var (first, mid) := Notice(p, t.ctx, TransformFailed);
    hide Notice;
    assert u.sent == t.sent + first && u.ctx == mid;
  }

  /** The tail of a stream that fails at its end. */
  lemma FailingTail<C>(p: Stage<C>, ctx: C, t: Task<C>, recv: Bytes)
    requires Between(p, ctx, t, recv) && AtEnd(p, t, Eof).failed && AtEnd(p, t, Eof).room > 0
    ensures var t' := t.(pending := [], ctx := Fold(p, ctx, WholeEvents(recv)).ctx);
            AtEnd(p, t, Eof) == AtEofFinalizer(p, Fail(p, t', TransformFailed))
  {
    PromiseOfTail(p, ctx, t, recv);
    hide Fold, Split, WholeEvents, DataBytes;
  }

  lemma FailedEndTells<C>(p: Stage<C>, ctx: C, t: Task<C>, recv: Bytes, ending: Ending)
    requires Between(p, ctx, t, recv) && AtEnd(p, t, ending).failed && AtEnd(p, t, ending).room > 0
    ensures EndsWith(AtEnd(p, t, ending), t.sent, Trailer(p, ctx, t.probe, recv, [], ending))
  {
    assert recv + Flatten([]) == recv;
    assert t.ctx == CtxAfter(p, ctx, recv);
    if ending.ReadError? {
      hide Fold, Split, WholeEvents, DataBytes, Fail, Notice;
      FailTells(p, t, ReadFailed);
    } else {
      FailingTail(p, ctx, t, recv);
      hide Fold, Split, WholeEvents, DataBytes, Fail, Notice, AtEofFinalizer, AtEnd, EndsWith, CtxAfter, Between;
      FailedTailTells(p, t.(pending := [], ctx := Fold(p, ctx, WholeEvents(recv)).ctx));
    }
  }

  lemma NoChunks(recv: Bytes, chunks: seq<Bytes>)
    ensures recv + Flatten(chunks[..0]) == recv
  {
  }

  lemma NoneAccepted<C>(p: Stage<C>, ctx: C, probe: bool, recv: Bytes)
    ensures recv + Flatten([][..Accepted(p, ctx, probe, recv, [])]) == recv
  {
  }

  lemma RunUnfolds<C>(p: Stage<C>, t: Task<C>, chunks: seq<Bytes>, ending: Ending)
    requires t.Running()
    ensures chunks == [] ==> Run(p, t, chunks, ending) == AtEnd(p, t, ending)
    ensures chunks != [] ==>
              var u := OnChunk(p, t, chunks[0]);
              Run(p, t, chunks, ending) == if !u.failed && !u.closed then Run(p, u, chunks[1..], ending) else u
    ensures forall u: Task<C> :: u.Running() <==> !u.failed && !u.closed
  {
    hide OnChunk, AtEnd;
  }

  /** The trailer of a run is that of the rest of the run behind an accepted chunk. */
  lemma TrailerOfRest<C>(p: Stage<C>, ctx: C, probe: bool, recv: Bytes, chunks: seq<Bytes>, ending: Ending)
    requires chunks != []
    ensures if Accepts(p, ctx, probe, recv, chunks[0]) then
              Trailer(p, ctx, probe, recv, chunks, ending) == Trailer(p, ctx, false, recv + chunks[0], chunks[1..], ending)
            else
              Trailer(p, ctx, probe, recv, chunks, ending) == RefusedTrailer(p, ctx, probe, recv, chunks[0])
  {
    hide Accepts, RefusedTrailer, Notice, Closing, CtxAfter, Fold, WholeEvents, Flatten;
    if Accepts(p, ctx, probe, recv, chunks[0]) {
      FirstChunkIn(recv, chunks, Accepted(p, ctx, false, recv + chunks[0], chunks[1..]));
    } else {
      NoChunks(recv, chunks);
    }
  }

  lemma OwedOfRest<C>(p: Stage<C>, ctx: C, probe: bool, recv: Bytes, chunks: seq<Bytes>)
    requires chunks != []
    ensures var n := Accepted(p, ctx, probe, recv, chunks);
            if Accepts(p, ctx, probe, recv, chunks[0]) then
              var rest := Accepted(p, ctx, false, recv + chunks[0], chunks[1..]);
              recv + Flatten(chunks[..n]) == recv + chunks[0] + Flatten(chunks[1..][..rest])
            else recv + Flatten(chunks[..n]) == recv
  {
    hide Accepts, Flatten;
    if Accepts(p, ctx, probe, recv, chunks[0]) {
      FirstChunkIn(recv, chunks, Accepted(p, ctx, false, recv + chunks[0], chunks[1..]));
    } else {
      NoChunks(recv, chunks);
    }
  }

  lemma {:induction false} FailedRunEnds<C>(
    p: Stage<C>, ctx: C, t: Task<C>, recv: Bytes, chunks: seq<Bytes>, ending: Ending) returns (front: seq<Item>)
    requires Between(p, ctx, t, recv)
    requires var u := Run(p, t, chunks, ending); u.failed && u.room > 0
    ensures AllData(front) && DataBytes(front) == Owed(p, ctx, recv + Flatten(chunks[..Accepted(p, ctx, t.probe, recv, chunks)]))
    ensures EndsWith(Run(p, t, chunks, ending), front, Trailer(p, ctx, t.probe, recv, chunks, ending))
    decreases |chunks|
  {
    BetweenOwes(p, ctx, t, recv);
    hide *;
    RunUnfolds(p, t, chunks, ending);
    if chunks == [] {
      FailedEndTells(p, ctx, t, recv, ending);
      front := t.sent;
      NoneAccepted(p, ctx, t.probe, recv);
    } else {
      var u := OnChunk(p, t, chunks[0]);
      RefusedChunkAddsNothing(p, ctx, t, recv, chunks[0]);
      TrailerOfRest(p, ctx, t.probe, recv, chunks, ending);
      OwedOfRest(p, ctx, t.probe, recv, chunks);
      if u.Running() {
        RunningStep(p, ctx, t, recv, chunks[0]);
        assert Accepts(p, ctx, t.probe, recv, chunks[0]) && !u.probe;
        front := FailedRunEnds(p, ctx, u, recv + chunks[0], chunks[1..], ending);
      } else {
        assert Run(p, t, chunks, ending) == u;
        RefusedChunkTells(p, ctx, t, recv, chunks[0]);
        front := t.sent;
      }
    }
  }

  /** A failed run whose client keeps reading: the data owed for the chunks before the one that failed, then
      closing bytes or an error of the kind the run calls for; results of events completed by that chunk
      are lost. */
  lemma FailedRunTells<C>(p: Stage<C>, ctx: C, probe: bool, room: nat, chunks: seq<Bytes>, ending: Ending)
    returns (front: seq<Item>)
    requires var u := Run(p, Start(ctx, probe, room), chunks, ending); u.failed && u.room > 0
    ensures AllData(front) && DataBytes(front) == Owed(p, ctx, Flatten(chunks[..Accepted(p, ctx, probe, [], chunks)]))
    ensures EndsWith(Run(p, Start(ctx, probe, room), chunks, ending), front, Trailer(p, ctx, probe, [], chunks, ending))
  {
    hide Owed;
    var n := Accepted(p, ctx, probe, [], chunks);
    assert Between(p, ctx, Start(ctx, probe, room), []);
    assert [] + Flatten(chunks[..n]) == Flatten(chunks[..n]);
    front := FailedRunEnds(p, ctx, Start(ctx, probe, room), [], chunks, ending);
  }

  // ----- a client that goes away only cuts the run off -----

  /** `u` comes from `t` by sends that succeed while there is room. */
  ghost predicate Spends<C>(t: Task<C>, u: Task<C>) {
    t.sent <= u.sent && |u.sent| + u.room == |t.sent| + t.room && (u.closed ==> t.closed || u.room == 0)
  }

  lemma {:induction false} SendAllSpends<C>(t: Task<C>, outs: seq<Bytes>)
    ensures Spends(t, SendAll(t, outs)) && |SendAll(t, outs).sent| <= |t.sent| + |outs|
    decreases |outs|
  {
    if outs != [] && !t.closed { SendAllSpends(t.Send(Data(outs[0])), outs[1..]); }
  }

  lemma {:induction false} DrainBounded<C>(p: Stage<C>, pending: Bytes, ctx: C)
    ensures |Drain(p, pending, ctx).outs| + |Drain(p, pending, ctx).pending| <= |pending|
    decreases |pending|
  {
    var end := FirstEnd(pending, 0);
    if end != 0 { DrainBounded(p, pending[end..], p.transform(ctx, pending[..end]).ctx); }
  }

  lemma ChunkSpends<C>(p: Stage<C>, t: Task<C>, chunk: Bytes)
    ensures var u := OnChunk(p, t, chunk);
            Spends(t, u) && |u.pending| <= |t.pending| + |chunk| && |u.sent| <= |t.sent| + |t.pending| + |chunk| + 1
  {
    var t' := t.(probe := false);
    if p.RequiresSseEventBuffer() {
      var d := Drain(p, t.pending + chunk, t.ctx);
      DrainBounded(p, t.pending + chunk, t.ctx);
      var v := t'.(pending := d.pending, ctx := d.ctx);
      SendAllSpends(v, d.outs);
      SendAllFrame(v, d.outs);
    } else {
      SendAllSpends(t', [chunk]);
      SendAllFrame(t', [chunk]);
    }
  }

  lemma {:induction false} SendAllFrame<C>(t: Task<C>, outs: seq<Bytes>)
    ensures var u := SendAll(t, outs); u == t.(sent := u.sent, room := u.room, closed := u.closed)
    decreases |outs|
  {
    if outs != [] && !t.closed { SendAllFrame(t.Send(Data(outs[0])), outs[1..]); }
  }

  lemma FailSpends<C>(p: Stage<C>, t: Task<C>, kind: FaultKind)
    ensures Spends(t, Fail(p, t, kind)) && |Fail(p, t, kind).sent| <= |t.sent| + 1
  {
  }

  lemma TailSpends<C>(p: Stage<C>, t: Task<C>)
    ensures Spends(t, Tail(p, t)) && |Tail(p, t).sent| <= |t.sent| + 1
  {
    hide Fail;
    var r := p.transform(t.ctx, t.pending);
    FailSpends(p, t.(pending := [], ctx := r.ctx), TransformFailed);
  }

  lemma FinalizerSpends<C>(p: Stage<C>, t: Task<C>)
    ensures Spends(t, AtEofFinalizer(p, t)) && |AtEofFinalizer(p, t).sent| <= |t.sent| + 1
  {
  }

  lemma EndSpends<C>(p: Stage<C>, t: Task<C>, ending: Ending)
    ensures Spends(t, AtEnd(p, t, ending)) && |AtEnd(p, t, ending).sent| <= |t.sent| + 2
  {
    hide Fail, Tail, AtEofFinalizer;
    FailSpends(p, t, ReadFailed);
    TailSpends(p, t);
    FinalizerSpends(p, Tail(p, t));
  }

  /** More sends than a run can make. */
  function Patience(held: nat, chunks: seq<Bytes>): nat
    decreases |chunks|
  {
    if chunks == [] then held + 3 else held + |chunks[0]| + 1 + Patience(held + |chunks[0]|, chunks[1..])
  }

  lemma {:induction false} RunSpends<C>(p: Stage<C>, t: Task<C>, chunks: seq<Bytes>, ending: Ending, held: nat)
    requires |t.pending| <= held
    ensures Spends(t, Run(p, t, chunks, ending))
    ensures |Run(p, t, chunks, ending).sent| < |t.sent| + Patience(held, chunks)
    decreases |chunks|
  {
    hide OnChunk, AtEnd;
    if t.Running() {
      if chunks == [] {
        EndSpends(p, t, ending);
      } else {
        ChunkSpends(p, t, chunks[0]);
        RunSpends(p, OnChunk(p, t, chunks[0]), chunks[1..], ending, held + |chunks[0]|);
      }
    }
  }

  /** `t` goes as `u` does while it has room, and has sent a part of what `u` has. */
  ghost predicate Limited<C>(t: Task<C>, u: Task<C>) {
    t.sent <= u.sent && (t.room > 0 ==> u == t.(room := u.room) && t.room <= u.room)
  }

  lemma {:induction false} SendAllLimited<C>(t: Task<C>, u: Task<C>, outs: seq<Bytes>)
    requires Limited(t, u)
    ensures Limited(SendAll(t, outs), SendAll(u, outs))
    decreases |outs|
  {
    SendAllSpends(t, outs);
    SendAllSpends(u, outs);
    if outs != [] && t.room > 0 && !t.closed { SendAllLimited(t.Send(Data(outs[0])), u.Send(Data(outs[0])), outs[1..]); }
  }

  lemma ChunkLimited<C>(p: Stage<C>, t: Task<C>, u: Task<C>, chunk: Bytes)
    requires Limited(t, u)
    ensures Limited(OnChunk(p, t, chunk), OnChunk(p, u, chunk))
  {
    ChunkSpends(p, t, chunk);
    ChunkSpends(p, u, chunk);
    if t.room > 0 {
      var t', u' := t.(probe := false), u.(probe := false);
      var d := Drain(p, t.pending + chunk, t.ctx);
      SendAllLimited(t', u', [chunk]);
      SendAllLimited(t'.(pending := d.pending, ctx := d.ctx), u'.(pending := d.pending, ctx := d.ctx), d.outs);
    }
  }

  lemma TailLimited<C>(p: Stage<C>, t: Task<C>, u: Task<C>)
    requires Limited(t, u)
    ensures Limited(Tail(p, t), Tail(p, u))
  {
    TailSpends(p, t);
    TailSpends(p, u);
  }

  lemma EndLimited<C>(p: Stage<C>, t: Task<C>, u: Task<C>, ending: Ending)
    requires Limited(t, u)
    ensures Limited(AtEnd(p, t, ending), AtEnd(p, u, ending))
  {
    EndSpends(p, t, ending);
    EndSpends(p, u, ending);
    if t.room > 0 {
      TailLimited(p, t, u);
      FinalizerSpends(p, Tail(p, t));
      FinalizerSpends(p, Tail(p, u));
      hide Tail;
    }
  }

  lemma {:induction false} RunLimited<C>(p: Stage<C>, t: Task<C>, u: Task<C>, chunks: seq<Bytes>, ending: Ending)
    requires Limited(t, u)
    ensures Limited(Run(p, t, chunks, ending), Run(p, u, chunks, ending))
    decreases |chunks|
  {
    RunSpends(p, t, chunks, ending, |t.pending|);
    RunSpends(p, u, chunks, ending, |u.pending|);
    hide OnChunk, AtEnd, Patience;
    if t.room > 0 && t.Running() {
      if chunks == [] {
        EndLimited(p, t, u, ending);
      } else {
        ChunkLimited(p, t, u, chunks[0]);
        RunLimited(p, OnChunk(p, t, chunks[0]), OnChunk(p, u, chunks[0]), chunks[1..], ending);
      }
    }
  }

  /** Whenever its client goes away, a run has sent the first items of the run whose client stays, which is
      clean or ends as `FailedRunTells` says. */
  lemma ClientLeavingCutsOff<C>(p: Stage<C>, ctx: C, probe: bool, room: nat, chunks: seq<Bytes>, ending: Ending)
    ensures var full := Run(p, Start(ctx, probe, Patience(0, chunks)), chunks, ending);
            full.room > 0 && !full.closed &&
            Run(p, Start(ctx, probe, room), chunks, ending).sent == if room < |full.sent| then full.sent[..room] else full.sent
  {
    var enough := Patience(0, chunks);
    var t, u := Start(ctx, probe, room), Start(ctx, probe, enough);
    RunSpends(p, t, chunks, ending, 0);
    RunSpends(p, u, chunks, ending, 0);
    if room <= enough { RunLimited(p, t, u, chunks, ending); } else { RunLimited(p, u, t, chunks, ending); }
  }

  // ----- the buffer between chunks -----

  function AfterChunks<C>(p: Stage<C>, t: Task<C>, chunks: seq<Bytes>): (r: Task<C>)
    ensures r.Running() ==> t.Running()
    decreases |chunks|
  {
    if chunks == [] || !t.Running() then t else AfterChunks(p, OnChunk(p, t, chunks[0]), chunks[1..])
  }

  lemma BetweenRuns<C>(p: Stage<C>, ctx: C, t: Task<C>, recv: Bytes)
    requires Between(p, ctx, t, recv)
    ensures t.Running()
  {
  }

  lemma {:induction false} BetweenChunks<C>(p: Stage<C>, ctx: C, t: Task<C>, recv: Bytes, chunks: seq<Bytes>)
    requires Between(p, ctx, t, recv) && AfterChunks(p, t, chunks).Running()
    ensures Between(p, ctx, AfterChunks(p, t, chunks), recv + Flatten(chunks))
    decreases |chunks|
  {
    BetweenRuns(p, ctx, t, recv);
    hide OnChunk, Between, Split, Fold;
    if chunks == [] {
      assert recv + Flatten(chunks) == recv;
    } else {
      RunningStep(p, ctx, t, recv, chunks[0]);
      ChunkIn(recv, chunks);
      BetweenChunks(p, ctx, OnChunk(p, t, chunks[0]), recv + chunks[0], chunks[1..]);
    }
  }

  lemma ChunkIn(recv: Bytes, chunks: seq<Bytes>)
    requires chunks != []
    ensures recv + chunks[0] + Flatten(chunks[1..]) == recv + Flatten(chunks)
  {
  }

  /** Between chunks of a buffered run: no complete event is held back, the buffer is bounded, and
      the events handed to the transformer together with the buffer are exactly the bytes received. */
  lemma PendingBufferInvariant<C>(p: Stage<C>, ctx: C, probe: bool, room: nat, chunks: seq<Bytes>)
    requires p.RequiresSseEventBuffer() && AfterChunks(p, Start(ctx, probe, room), chunks).Running()
    ensures var t := AfterChunks(p, Start(ctx, probe, room), chunks); var recv := Flatten(chunks);
            NoDelimiter(t.pending) && |t.pending| <= MAX_SSE_PENDING_BYTES &&
            Flatten(Split(recv).events) + t.pending == recv &&
            DataBytes(t.sent) == Fold(p, ctx, Split(recv).events).out
  {
    BetweenChunks(p, ctx, Start(ctx, probe, room), [], chunks);
    assert [] + Flatten(chunks) == Flatten(chunks);
    SplitIsFraming(Flatten(chunks));
  }

  // ----- exactly when a run is clean -----

  /** No chunk ever pushes the pending buffer over its bound. */
  ghost predicate NoOverflow(recv: Bytes, chunks: seq<Bytes>)
    decreases |chunks|
  {
    chunks == [] ||
    (|Split(recv).tail| + |chunks[0]| <= MAX_SSE_PENDING_BYTES && NoOverflow(recv + chunks[0], chunks[1..]))
  }

  ghost predicate Admissible<C>(p: Stage<C>, ctx: C, probe: bool, recv: Bytes, chunks: seq<Bytes>) {
    (probe && chunks != [] ==> p.looksLikeSse(chunks[0])) &&
    (p.RequiresSseEventBuffer() ==> NoOverflow(recv, chunks)) &&
    Promise(p, ctx, recv + Flatten(chunks)).ok
  }

  /** Sends that may still be needed after `recv`, at most one per event, chunk and finalizer. */
  ghost function SendsLeft(recv: Bytes, chunks: seq<Bytes>): int {
    2 + |chunks| + |WholeEvents(recv + Flatten(chunks))| - |Split(recv).events|
  }

  lemma {:induction false} DrainOutputs<C>(p: Stage<C>, pending: Bytes, ctx: C)
    ensures |Drain(p, pending, ctx).outs| <= |Split(pending).events|
    decreases |pending|
  {
    var end := FirstEnd(pending, 0);
    if end != 0 { DrainOutputs(p, pending[end..], p.transform(ctx, pending[..end]).ctx); }
  }

  lemma {:induction false} SendAllWithRoom<C>(t: Task<C>, outs: seq<Bytes>)
    requires !t.closed && |outs| <= t.room
    ensures !SendAll(t, outs).closed && SendAll(t, outs).room == t.room - |outs|
    ensures SendAll(t, outs).failed == t.failed && SendAll(t, outs).probe == t.probe
    decreases |outs|
  {
    if outs != [] { SendAllWithRoom(t.Send(Data(outs[0])), outs[1..]); }
  }

  lemma EventsOnlyGrow(recv: Bytes, chunk: Bytes)
    ensures |Split(recv + chunk).events| == |Split(recv).events| + |Split(Split(recv).tail + chunk).events|
    ensures |WholeEvents(recv + chunk)| >= |Split(recv).events|
  {
    SplitResumes(recv, chunk);
  }

  lemma ChunkAdmitted<C>(p: Stage<C>, ctx: C, t: Task<C>, recv: Bytes, chunk: Bytes, more: Bytes)
    requires Between(p, ctx, t, recv) && (t.probe ==> p.looksLikeSse(chunk))
    requires p.RequiresSseEventBuffer() ==> |t.pending| + |chunk| <= MAX_SSE_PENDING_BYTES
    requires Promise(p, ctx, recv + chunk + more).ok
    requires t.room >= 1 + |Split(recv + chunk).events| - |Split(recv).events|
    ensures var u := OnChunk(p, t, chunk);
            u.Running() && !u.probe &&
            u.room >= t.room - 1 - (|Split(recv + chunk).events| - |Split(recv).events|)
  {
    EventsOnlyGrow(recv, chunk);
    var t' := t.(probe := false);
    if p.RequiresSseEventBuffer() {
      OwedIsPromised(p, ctx, recv + chunk, more);
      BufferedChunk(p, ctx, t, recv, chunk);
      DrainOutputs(p, t.pending + chunk, t.ctx);
      var d := Drain(p, t.pending + chunk, t.ctx);
      SendAllWithRoom(t'.(pending := d.pending, ctx := d.ctx), d.outs);
    } else {
      SendAllWithRoom(t', [chunk]);
    }
  }

  lemma EndAdmitted<C>(p: Stage<C>, ctx: C, t: Task<C>, recv: Bytes)
    requires Between(p, ctx, t, recv) && Promise(p, ctx, recv).ok && t.room >= 2
    ensures AtEnd(p, t, Eof).Running()
  {
    TailStep(p, ctx, t, recv);
  }

  lemma {:induction false} AdmissibleRunIsClean<C>(
    p: Stage<C>, ctx: C, t: Task<C>, recv: Bytes, chunks: seq<Bytes>)
    requires Between(p, ctx, t, recv) && Admissible(p, ctx, t.probe, recv, chunks)
    requires t.room >= SendsLeft(recv, chunks)
    ensures Run(p, t, chunks, Eof).Running()
    decreases |chunks|
  {
    EventsOnlyGrow(recv, Flatten(chunks));
    if chunks == [] {
      assert recv + Flatten(chunks) == recv;
      EndAdmitted(p, ctx, t, recv);
    } else {
      var more := Flatten(chunks[1..]);
      assert recv + Flatten(chunks) == recv + chunks[0] + more;
      EventsOnlyGrow(recv, chunks[0]);
      EventsOnlyGrow(recv + chunks[0], more);
      ChunkAdmitted(p, ctx, t, recv, chunks[0], more);
      RunningStep(p, ctx, t, recv, chunks[0]);
      AdmissibleRunIsClean(p, ctx, OnChunk(p, t, chunks[0]), recv + chunks[0], chunks[1..]);
    }
  }

  lemma RunningChunkAdmitted<C>(p: Stage<C>, t: Task<C>, chunk: Bytes)
    requires t.Running() && OnChunk(p, t, chunk).Running()
    ensures t.probe ==> p.looksLikeSse(chunk)
    ensures p.RequiresSseEventBuffer() ==> |t.pending| + |chunk| <= MAX_SSE_PENDING_BYTES
  {
  }

  lemma {:induction false} CleanRunIsAdmissible<C>(
    p: Stage<C>, ctx: C, t: Task<C>, recv: Bytes, chunks: seq<Bytes>)
    requires Between(p, ctx, t, recv) && Run(p, t, chunks, Eof).Running()
    ensures Admissible(p, ctx, t.probe, recv, chunks)
    decreases |chunks|
  {
    RunCorrect(p, ctx, t, recv, chunks, Eof);
    if chunks != [] {
      var u := OnChunk(p, t, chunks[0]);
      assert u.Running();
      RunningChunkAdmitted(p, t, chunks[0]);
      RunningStep(p, ctx, t, recv, chunks[0]);
      CleanRunIsAdmissible(p, ctx, u, recv + chunks[0], chunks[1..]);
    }
  }

  /** With a client that keeps reading, a run to the end of the stream is clean exactly when the
      first chunk passes the probe, no chunk overflows the buffer and no event fails. */
  lemma CleanExactlyWhenAdmissible<C>(p: Stage<C>, ctx: C, probe: bool, room: nat, chunks: seq<Bytes>)
    requires room >= SendsLeft([], chunks)
    ensures Run(p, Start(ctx, probe, room), chunks, Eof).Running() <==> Admissible(p, ctx, probe, [], chunks)
  {
    var t := Start(ctx, probe, room);
    assert Between(p, ctx, t, []);
    if Admissible(p, ctx, probe, [], chunks) {
      AdmissibleRunIsClean(p, ctx, t, [], chunks);
    }
    if Run(p, t, chunks, Eof).Running() {
      CleanRunIsAdmissible(p, ctx, t, [], chunks);
    }
  }
}
