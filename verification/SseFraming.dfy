// Server-sent event framing: how the proxy cuts a byte stream into events.
module SseFraming {

  newtype Byte = b: int | 0 <= b < 256
  type Bytes = seq<Byte>

  const LF: Byte := 10
  const CR: Byte := 13

  /** Length of the event delimiter that starts at `i`, or 0. Only LF LF and CRLF CRLF count. */
  function DelimiterAt(b: Bytes, i: nat): (len: nat) {
    if i + 1 < |b| && b[i] == LF && b[i + 1] == LF then 2
    else if i + 3 < |b| && b[i] == CR && b[i + 1] == LF && b[i + 2] == CR && b[i + 3] == LF then 4
    else 0
  }

  /** LF LF or CRLF CRLF stands at `i`. */
  ghost predicate DelimitedAt(b: Bytes, i: nat) {
    (i + 2 <= |b| && b[i..i + 2] == [10, 10]) || (i + 4 <= |b| && b[i..i + 4] == [13, 10, 13, 10])
  }

  lemma DelimiterForms(b: Bytes, i: nat)
    ensures DelimiterAt(b, i) != 0 <==> DelimitedAt(b, i)
    ensures DelimitedAt(b, i) ==> DelimiterAt(b, i) == if b[i] == 10 then 2 else 4
  {
    if i + 2 <= |b| { assert b[i..i + 2] == [b[i], b[i + 1]]; }
    if i + 4 <= |b| { assert b[i..i + 4] == [b[i], b[i + 1], b[i + 2], b[i + 3]]; }
  }

  ghost predicate NoDelimiterBefore(b: Bytes, end: nat) {
    forall i: nat :: i < end ==> DelimiterAt(b, i) == 0
  }

  ghost predicate NoDelimiter(b: Bytes) { NoDelimiterBefore(b, |b|) }

  /** `start`/`len` describe the delimiter of `b` with the smallest start. */
  ghost predicate FirstDelimiter(b: Bytes, start: nat, len: nat) {
    len != 0 && DelimiterAt(b, start) == len && NoDelimiterBefore(b, start)
  }

  datatype Found = NotFound | Found(start: nat, len: nat)

  method FindSseDelimiter(buffer: Bytes) returns (r: Found)
    ensures r.NotFound? ==> NoDelimiter(buffer)
    ensures r.Found? ==> FirstDelimiter(buffer, r.start, r.len)
    ensures forall i: nat :: DelimitedAt(buffer, i) ==> r.Found? && r.start <= i
    ensures r.Found? ==> DelimitedAt(buffer, r.start) && r.len == if buffer[r.start] == 10 then 2 else 4
  {
    forall i: nat ensures DelimiterAt(buffer, i) != 0 <==> DelimitedAt(buffer, i) { DelimiterForms(buffer, i); }
    var idx := 0;
    while idx < |buffer|
      invariant 0 <= idx <= |buffer|
      invariant NoDelimiterBefore(buffer, idx)
    {
      if idx + 1 < |buffer| && buffer[idx] == LF && buffer[idx + 1] == LF {
        return Found(idx, 2);
      }
      if idx + 3 < |buffer| && buffer[idx] == CR && buffer[idx + 1] == LF &&
         buffer[idx + 2] == CR && buffer[idx + 3] == LF {
        return Found(idx, 4);
      }
      idx := idx + 1;
    }
    return NotFound;
  }

  // ----- the event split of a whole byte string -----

  /** One past the first delimiter, or 0 when there is none. */
  function FirstEnd(b: Bytes, from: nat): (end: nat)
    requires from <= |b|
    ensures end == 0 || from + 2 <= end <= |b|
    decreases |b| - from
  {
    if from == |b| then 0
    else if DelimiterAt(b, from) != 0 then from + DelimiterAt(b, from)
    else FirstEnd(b, from + 1)
  }

  lemma {:induction false} FirstEndFinds(b: Bytes, from: nat)
    requires from <= |b| && NoDelimiterBefore(b, from)
    ensures FirstEnd(b, from) == 0 ==> NoDelimiter(b)
    ensures FirstEnd(b, from) != 0 ==>
              exists start: nat, len: nat :: FirstDelimiter(b, start, len) && FirstEnd(b, from) == start + len
    decreases |b| - from
  {
    if from < |b| {
      if DelimiterAt(b, from) != 0 {
        assert FirstDelimiter(b, from, DelimiterAt(b, from));
      } else {
        FirstEndFinds(b, from + 1);
      }
    }
  }

  lemma {:induction false} FirstEndUnique(b: Bytes, from: nat, start: nat, len: nat)
    requires from <= start < |b| && FirstDelimiter(b, start, len)
    ensures FirstEnd(b, from) == start + len
    decreases start - from
  {
    if from < start { FirstEndUnique(b, from + 1, start, len); }
  }

  lemma {:induction false} FirstEndNone(b: Bytes, from: nat)
    requires from <= |b| && NoDelimiter(b)
    ensures FirstEnd(b, from) == 0
    decreases |b| - from
  {
    if from < |b| { FirstEndNone(b, from + 1); }
  }

  /** More input never moves the first delimiter: although CRLF CRLF can straddle a chunk boundary,
      a straddling one never starts before a delimiter that is already complete. */
  lemma DelimiterIsPrefixStable(a: Bytes, b: Bytes)
    requires FirstEnd(a, 0) != 0
    ensures FirstEnd(a + b, 0) == FirstEnd(a, 0)
  {
    FirstEndFinds(a, 0);
    var start: nat, len: nat :| FirstDelimiter(a, start, len) && FirstEnd(a, 0) == start + len;
    forall i: nat | i < start ensures DelimiterAt(a + b, i) == 0 {
      assert DelimiterAt(a, i) == 0;
    }
    assert FirstDelimiter(a + b, start, len);
    FirstEndUnique(a + b, 0, start, len);
  }

  datatype Framing = Framing(events: seq<Bytes>, tail: Bytes)

  /** All complete events of `b`, delimiters included, and the unterminated rest. */
  function Split(b: Bytes): Framing
    decreases |b|
  {
    var end := FirstEnd(b, 0);
    if end == 0 then Framing([], b)
    else
      var rest := Split(b[end..]);
      Framing([b[..end]] + rest.events, rest.tail)
  }

  function Flatten(parts: seq<Bytes>): Bytes {
    if parts == [] then [] else parts[0] + Flatten(parts[1..])
  }

  lemma {:induction false} FlattenAppend(a: seq<Bytes>, b: seq<Bytes>)
    ensures Flatten(a + b) == Flatten(a) + Flatten(b)
  {
    if a == [] {
      assert a + b == b;
    } else {
      assert (a + b)[1..] == a[1..] + b;
      FlattenAppend(a[1..], b);
    }
  }

  /** Splitting can be resumed: cut what has arrived, then cut the rest behind the pending tail. */
  lemma {:induction false} SplitResumes(a: Bytes, b: Bytes)
    ensures var first := Split(a); var second := Split(first.tail + b);
            Split(a + b) == Framing(first.events + second.events, second.tail)
    decreases |a|
  {
    hide FirstEnd;
    var end := FirstEnd(a, 0);
    if end == 0 {
      assert [] + Split(a + b).events == Split(a + b).events;
    } else {
      DelimiterIsPrefixStable(a, b);
      assert (a + b)[..end] == a[..end] && (a + b)[end..] == a[end..] + b;
      SplitResumes(a[end..], b);
      var first := Split(a[end..]);
      var second := Split(first.tail + b);
      assert [a[..end]] + (first.events + second.events) == [a[..end]] + first.events + second.events;
    }
  }

  /** An event ends at its first delimiter. */
  ghost predicate IsEvent(e: Bytes) { e != [] && FirstEnd(e, 0) == |e| }

  /** A way to read `b` as events followed by an unterminated rest. */
  ghost predicate IsFraming(f: Framing, b: Bytes) {
    (forall i :: 0 <= i < |f.events| ==> IsEvent(f.events[i])) && NoDelimiter(f.tail) &&
    Flatten(f.events) + f.tail == b
  }

  lemma EventIsFirstCut(b: Bytes)
    requires FirstEnd(b, 0) != 0
    ensures IsEvent(b[..FirstEnd(b, 0)])
  {
    FirstEndFinds(b, 0);
    var start: nat, len: nat :| FirstDelimiter(b, start, len) && FirstEnd(b, 0) == start + len;
    var e := b[..start + len];
    forall i: nat | i < start ensures DelimiterAt(e, i) == 0 {
      assert DelimiterAt(b, i) == 0;
    }
    assert FirstDelimiter(e, start, len);
    FirstEndUnique(e, 0, start, len);
  }

  /** Nothing is lost or invented: the split is a framing of the bytes received ... */
  lemma {:induction false} SplitIsFraming(b: Bytes)
    ensures IsFraming(Split(b), b)
    decreases |b|
  {
    hide FirstEnd;
    hide IsFraming;
    hide Flatten;
    hide FirstDelimiter;
    var end := FirstEnd(b, 0);
    if end == 0 {
      FirstEndFinds(b, 0);
      TailOnly(b);
    } else {
      EventIsFirstCut(b);
      SplitIsFraming(b[end..]);
      EventInFront(b[..end], Split(b[end..]), b[end..]);
      assert b[..end] + b[end..] == b;
    }
  }

  lemma TailOnly(b: Bytes)
    requires NoDelimiter(b)
    ensures IsFraming(Framing([], b), b)
  {
  }

  lemma EventInFront(e: Bytes, f: Framing, b: Bytes)
    requires IsEvent(e) && IsFraming(f, b)
    ensures IsFraming(Framing([e] + f.events, f.tail), e + b)
  {
    hide IsEvent;
    hide NoDelimiter;
    assert ([e] + f.events)[1..] == f.events;
  }

  /** ... and the only one. */
  lemma {:induction false} FramingIsUnique(f: Framing, b: Bytes)
    requires IsFraming(f, b)
    ensures f == Split(b)
    decreases |f.events|
  {
    hide FirstEnd;
    hide DelimiterAt;
    if f.events == [] {
      assert Flatten(f.events) + f.tail == f.tail;
      FirstEndNone(b, 0);
    } else {
      var e := f.events[0];
      var rest := Framing(f.events[1..], f.tail);
      var b' := Flatten(rest.events) + rest.tail;
      assert b == e + b';
      DelimiterIsPrefixStable(e, b');
      assert b[..|e|] == e && b[|e|..] == b';
      FramingIsUnique(rest, b');
      assert f.events == [e] + rest.events;
    }
  }
}
