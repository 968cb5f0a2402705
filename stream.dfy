/** The stream relay of lib/stream.ts: `createStreamResponse`'s `start`
    loop reads the provider's chunks, enqueues each non-empty
    `choices[0].delta.content`, stops after the first chunk that carries a
    `finish_reason`, reports a thrown error to `controller.error`, and always
    ends with `controller.close()`. Text encoding is not modelled: a chunk's
    text is enqueued as a string. */
module Stream {
  import opened Common

  /** One provider chunk, reduced to `choices[0].delta.content` and
      `choices[0].finish_reason`; None stands for a missing or null value. */
  datatype Chunk = Chunk(content: Option<string>, finishReason: Option<string>)

  /** `if (content)`: present and non-empty. */
  predicate HasContent(c: Chunk) {
    c.content.Some? && c.content.value != ""
  }

  /** `if (chunk.choices?.[0]?.finish_reason)`: present and non-empty. */
  predicate Finishes(c: Chunk) {
    c.finishReason.Some? && c.finishReason.value != ""
  }

  /** The provider's async iterable: the chunks it yields, and whether the
      read after the last of them throws instead of ending the iteration. */
  datatype Source = Source(chunks: seq<Chunk>, throwsAfter: bool)

  /** The calls the relay makes on the stream controller. */
  datatype Event = Enqueued(text: string) | Errored | Closed

  /** The ReadableStream controller, as the log of calls made on it. */
  class Controller {
    var events: seq<Event>

    constructor ()
      ensures events == []
    {
      events := [];
    }

    method Enqueue(text: string)
      modifies this
      ensures events == old(events) + [Enqueued(text)]
    {
      events := events + [Enqueued(text)];
    }

    method Error()
      modifies this
      ensures events == old(events) + [Errored]
    {
      events := events + [Errored];
    }

    method Close()
      modifies this
      ensures events == old(events) + [Closed]
    {
      events := events + [Closed];
    }
  }

  predicate NoFinish(cs: seq<Chunk>) {
    forall k :: 0 <= k < |cs| ==> !Finishes(cs[k])
  }

  /** The chunks the loop reads: all of them up to and including the first
      finishing chunk, or all of them if none finishes. */
  function Consumed(cs: seq<Chunk>): seq<Chunk> {
    if cs == [] then []
    else if Finishes(cs[0]) then [cs[0]]
    else [cs[0]] + Consumed(cs[1..])
  }

  /** The texts enqueued for the given chunks, in order. */
  function Emitted(cs: seq<Chunk>): seq<string> {
    if cs == [] then []
    else
      var last := cs[|cs| - 1];
      Emitted(cs[..|cs| - 1]) + (if HasContent(last) then [last.content.value] else [])
  }

  /** The loop reads a prefix of the chunks, non-empty when they are, with
      no finish before its last chunk; it stops early only on a finish, and
      reads everything when nothing finishes. */
  lemma {:induction false} ConsumedPrefix(cs: seq<Chunk>)
    ensures var r := Consumed(cs);
      && |r| <= |cs| && r == cs[..|r|]
      && (r == [] <==> cs == [])
      && (r != [] ==> NoFinish(r[..|r| - 1]))
      && (|r| < |cs| ==> Finishes(r[|r| - 1]))
      && (NoFinish(cs) ==> r == cs)
  {
    if cs != [] && !Finishes(cs[0]) {
      var rest := Consumed(cs[1..]);
      ConsumedPrefix(cs[1..]);
      var r := [cs[0]] + rest;
      assert r[1..] == rest;
      assert NoFinish(cs) ==> NoFinish(cs[1..]) by {
        if NoFinish(cs) {
          forall k | 0 <= k < |cs[1..]| ensures !Finishes(cs[1..][k]) { assert cs[1..][k] == cs[k + 1]; }
        }
      }
      assert r == cs[..|r|] by { assert cs == [cs[0]] + cs[1..]; }
      if |rest| > 0 {
        var init := r[..|r| - 1];
        forall k | 0 <= k < |init| ensures !Finishes(init[k]) {
          if k > 0 { assert init[k] == rest[..|rest| - 1][k - 1]; }
        }
      }
    }
  }

  /** Only non-empty texts are enqueued, at most one per chunk, and none
      exactly when no chunk has content. */
  lemma {:induction false} EmittedTexts(cs: seq<Chunk>)
    ensures var r := Emitted(cs);
      && |r| <= |cs|
      && (forall k :: 0 <= k < |r| ==> r[k] != "")
      && (r == [] <==> forall k :: 0 <= k < |cs| ==> !HasContent(cs[k]))
  {
    if cs != [] {
      var init := cs[..|cs| - 1];
      EmittedTexts(init);
      assert forall k :: 0 <= k < |init| ==> init[k] == cs[k];
    }
  }

  /** One enqueue per text, in order. */
  function Enqueues(texts: seq<string>): seq<Event> {
    if texts == [] then [] else Enqueues(texts[..|texts| - 1]) + [Enqueued(texts[|texts| - 1])]
  }

  lemma {:induction false} EnqueuesAt(texts: seq<string>)
    ensures |Enqueues(texts)| == |texts|
    ensures forall k :: 0 <= k < |texts| ==> Enqueues(texts)[k] == Enqueued(texts[k])
  {
    if texts != [] {
      var init := texts[..|texts| - 1];
      EnqueuesAt(init);
      assert forall k :: 0 <= k < |init| ==> init[k] == texts[k];
    }
  }

  /** The relay's whole conversation with the controller. */
  function Relay(src: Source): seq<Event> {
    var errors := src.throwsAfter && NoFinish(src.chunks);
    Enqueues(Emitted(Consumed(src.chunks))) + (if errors then [Errored] else []) + [Closed]
  }

  function Concat(texts: seq<string>): string {
    if texts == [] then "" else Concat(texts[..|texts| - 1]) + texts[|texts| - 1]
  }

  /** The text the response body carries. */
  function Output(src: Source): string {
    Concat(Emitted(Consumed(src.chunks)))
  }

  /** createStreamResponse's `start`: the loop over the chunks, the catch and
      the finally. Returns the calls made on the controller. */
  method CreateStreamResponse(src: Source) returns (events: seq<Event>)
    ensures events == Relay(src)
  {
    var controller := new Controller();
    var n, finished := ReadChunks(controller, src.chunks);
    if !finished && src.throwsAfter {
      controller.Error();
    }
    controller.Close();
    events := controller.events;
    RelayShape(src, n, finished);
  }

  /** The `for await` loop: enqueues each chunk's content and stops after the
      first finishing chunk. Returns how many chunks were read and whether
      the loop broke on a finish. */
  method ReadChunks(controller: Controller, chunks: seq<Chunk>) returns (i: nat, finished: bool)
    requires controller.events == []
    modifies controller
    ensures i <= |chunks|
    ensures controller.events == Enqueues(Emitted(chunks[..i]))
    ensures finished ==> 0 < i && Consumed(chunks) == chunks[..i] && Finishes(chunks[i - 1])
    ensures !finished ==> chunks[..i] == chunks && NoFinish(chunks)
  {
    i := 0;
    finished := false;
    while i < |chunks|
      invariant 0 <= i <= |chunks|
      invariant controller.events == Enqueues(Emitted(chunks[..i]))
      invariant NoFinish(chunks[..i])
    {
      var chunk := chunks[i];
      EmittedSnoc(chunks, i);
      if HasContent(chunk) {
        EnqueuesSnoc(Emitted(chunks[..i]), chunk.content.value);
        controller.Enqueue(chunk.content.value);
      } else {
        assert Emitted(chunks[..i + 1]) == Emitted(chunks[..i]) + [] == Emitted(chunks[..i]);
      }
      if Finishes(chunk) {
        ConsumedStopsAt(chunks, i);
        assert chunks[..i + 1][i] == chunk;
        i := i + 1;
        finished := true;
        return;
      }
      NoFinishSnoc(chunks, i);
      i := i + 1;
    }
    assert chunks[..i] == chunks;
  }

  /** The relay's calls, given where the loop stopped. */
  lemma RelayShape(src: Source, i: nat, finished: bool)
    requires i <= |src.chunks|
    requires finished ==> 0 < i && Consumed(src.chunks) == src.chunks[..i] && Finishes(src.chunks[i - 1])
    requires !finished ==> src.chunks[..i] == src.chunks && NoFinish(src.chunks)
    ensures Relay(src) == Enqueues(Emitted(src.chunks[..i])) + (if !finished && src.throwsAfter then [Errored] else []) + [Closed]
  {
    if finished {
      assert !NoFinish(src.chunks) by { assert src.chunks[i - 1] == src.chunks[..i][i - 1]; }
    } else {
      ConsumedPrefix(src.chunks);
    }
  }

  lemma EmittedSnoc(cs: seq<Chunk>, i: nat)
    requires i < |cs|
    ensures Emitted(cs[..i + 1]) == Emitted(cs[..i]) + (if HasContent(cs[i]) then [cs[i].content.value] else [])
  {
    assert cs[..i + 1][..i] == cs[..i];
  }

  lemma EnqueuesSnoc(texts: seq<string>, t: string)
    ensures Enqueues(texts + [t]) == Enqueues(texts) + [Enqueued(t)]
  {
    assert (texts + [t])[..|texts|] == texts;
  }

  lemma NoFinishSnoc(cs: seq<Chunk>, i: nat)
    requires i < |cs| && NoFinish(cs[..i]) && !Finishes(cs[i])
    ensures NoFinish(cs[..i + 1])
  {
    assert forall k :: 0 <= k < i ==> cs[..i + 1][k] == cs[..i][k];
  }

  // ---------------------------------------------------------------------
  // Properties

  /** The first finishing chunk is the last one read. */
  lemma {:induction false} ConsumedStopsAt(cs: seq<Chunk>, i: nat)
    requires i < |cs| && NoFinish(cs[..i]) && Finishes(cs[i])
    ensures Consumed(cs) == cs[..i + 1]
  {
    if i > 0 {
      var tail := cs[1..][..i - 1];
      assert NoFinish(tail) by {
        forall k | 0 <= k < |tail| ensures !Finishes(tail[k]) {
          assert tail[k] == cs[..i][k + 1];
        }
      }
      assert !Finishes(cs[0]) by { assert cs[..i][0] == cs[0]; }
      ConsumedStopsAt(cs[1..], i - 1);
      assert cs[..i + 1] == [cs[0]] + cs[1..][..i];
    }
  }

  /** Emitting is compositional: the texts of a concatenation are the
      concatenation of the texts. */
  lemma {:induction false} EmittedAppend(a: seq<Chunk>, b: seq<Chunk>)
    ensures Emitted(a + b) == Emitted(a) + Emitted(b)
    decreases |b|
  {
    if b == [] {
      assert a + b == a;
    } else {
      var b' := b[..|b| - 1];
      EmittedAppend(a, b');
      assert (a + b)[..|a + b| - 1] == a + b';
      assert b[..|b| - 1] == b';
    }
  }

  /** A single chunk enqueues its content exactly when it has some. */
  lemma EmittedOne(c: Chunk)
    ensures Emitted([c]) == if HasContent(c) then [c.content.value] else []
  {
    assert [c][..0] == [];
  }

  /** close is called exactly once, as the last call; error is called (once,
      just before close) exactly when the source throws before any
      finishing chunk. */
  lemma RelayTerminatesOnce(src: Source)
    ensures var ev := Relay(src);
      && 0 < |ev| && ev[|ev| - 1] == Closed
      && (forall k :: 0 <= k < |ev| - 1 ==> ev[k] != Closed)
      && ((exists k :: 0 <= k < |ev| && ev[k] == Errored) <==> src.throwsAfter && NoFinish(src.chunks))
      && (src.throwsAfter && NoFinish(src.chunks) ==> ev[|ev| - 2] == Errored)
  {
    var ev := Relay(src);
    var n := |Emitted(Consumed(src.chunks))|;
    EnqueuesAt(Emitted(Consumed(src.chunks)));
    assert forall k :: 0 <= k < n ==> ev[k].Enqueued?;
    if src.throwsAfter && NoFinish(src.chunks) {
      assert ev[n] == Errored;
    }
  }

  /** Nothing after the first finishing chunk is read or emitted, whatever
      follows it and whether or not the source would throw later. */
  lemma IgnoresAfterFinish(a: seq<Chunk>, f: Chunk, b: seq<Chunk>, throws1: bool, throws2: bool)
    requires NoFinish(a) && Finishes(f)
    ensures Relay(Source(a + [f] + b, throws1)) == Relay(Source(a + [f], throws2))
    ensures Output(Source(a + [f] + b, throws1)) == Concat(Emitted(a) + Emitted([f]))
  {
    var cs1, cs2 := a + [f] + b, a + [f];
    assert cs1[..|a|] == a && cs2[..|a|] == a;
    ConsumedStopsAt(cs1, |a|);
    ConsumedStopsAt(cs2, |a|);
    assert cs1[..|a| + 1] == cs2 && cs2[..|a| + 1] == cs2;
    assert !NoFinish(cs1) by { assert cs1[|a|] == f; }
    assert !NoFinish(cs2) by { assert cs2[|a|] == f; }
    EmittedAppend(a, [f]);
  }

  /** The finishing chunk's own content is enqueued, as the last text, before
      the loop stops. */
  lemma FinishingContentEnqueued(a: seq<Chunk>, f: Chunk, b: seq<Chunk>, throws: bool)
    requires NoFinish(a) && Finishes(f) && HasContent(f)
    ensures var ev := Relay(Source(a + [f] + b, throws));
      |ev| >= 2 && ev[|ev| - 2] == Enqueued(f.content.value) && ev[|ev| - 1] == Closed
  {
    IgnoresAfterFinish(a, f, b, throws, false);
    RelayEndingAt(a, f);
  }

  lemma RelayEndingAt(a: seq<Chunk>, f: Chunk)
    requires NoFinish(a) && Finishes(f) && HasContent(f)
    ensures Relay(Source(a + [f], false)) == Enqueues(Emitted(a)) + [Enqueued(f.content.value)] + [Closed]
  {
    var cs, v := a + [f], f.content.value;
    ConsumedThrough(a, f);
    EmittedLast(a, f);
    assert Emitted(cs) == Emitted(a) + [v];
    EnqueuesSnoc(Emitted(a), v);
    assert Enqueues(Emitted(cs)) == Enqueues(Emitted(a)) + [Enqueued(v)];
    var e := Enqueues(Emitted(cs));
    assert Relay(Source(cs, false)) == e + [] + [Closed];
    assert e + [] == e;
  }

  lemma ConsumedThrough(a: seq<Chunk>, f: Chunk)
    requires NoFinish(a) && Finishes(f)
    ensures Consumed(a + [f]) == a + [f] && !NoFinish(a + [f])
  {
    var cs := a + [f];
    assert cs[..|a|] == a && cs[..|a| + 1] == cs;
    ConsumedStopsAt(cs, |a|);
    assert cs[|a|] == f;
  }

  lemma EmittedLast(a: seq<Chunk>, f: Chunk)
    ensures Emitted(a + [f]) == Emitted(a) + (if HasContent(f) then [f.content.value] else [])
  {
    assert (a + [f])[..|a|] == a;
  }

  /** A source exhausted without a finish marker has every content emitted. */
  lemma ExhaustedEmitsAll(src: Source)
    requires NoFinish(src.chunks)
    ensures Output(src) == Concat(Emitted(src.chunks))
    ensures Relay(src) == Enqueues(Emitted(src.chunks)) + (if src.throwsAfter then [Errored] else []) + [Closed]
  {
    ConsumedPrefix(src.chunks);
  }
}
