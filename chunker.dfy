/**
 * The streaming chunker of `handle_prompt`: turns the fragments of a
 * generation stream into chat messages. Fragments are hidden until one
 * containing the end-of-thinking marker has been seen; after that a bare
 * paragraph break is dropped, a sentence-ending paragraph break flushes the
 * buffer as one message, and anything else is buffered. Whatever ends the
 * stream, the buffer is flushed once more.
 */
module Chunker {
  import opened Strings

  const THINK_END := "</think>"
  const PARAGRAPH := "\n\n"
  const SENTENCE_END := ".\n\n"
  const TIMEOUT_TEXT := "Timeout: I'm sorry, I'm taking too long to respond"

  /** What the stream delivers between two waits: a batch of fragments, or a tick of the typing timer. */
  datatype StreamEvent = Fragments(batch: seq<string>) | Tick

  /** What ends the loop: the stream is exhausted, the stream fails, or the 30-second timer fires. */
  datatype StreamEnd = EndOfStream | StreamError | Timeout

  /** What the chunker asks to send: a typing signal, a presence reply, or a chat message. */
  datatype Signal = Typing | Presence | Say(text: string)

  /** `think_flag` and the `output` buffer. */
  datatype ChunkState = ChunkState(thinking: bool, output: string)

  datatype Stepped = Stepped(state: ChunkState, sent: seq<Signal>)

  const INITIAL := ChunkState(true, "")

  /** One fragment. */
  function StepFragment(st: ChunkState, frag: string): Stepped
  {
    if st.thinking then
      Stepped(ChunkState(!Contains(frag, THINK_END), st.output), [])
    else if frag == PARAGRAPH then
      Stepped(st, [])
    else if frag == SENTENCE_END then
      Stepped(ChunkState(false, ""), [Say(st.output + frag)])
    else
      Stepped(ChunkState(false, st.output + frag), [])
  }

  /** A batch of fragments, in order. */
  function RunBatch(st: ChunkState, frags: seq<string>): Stepped
  {
    if frags == [] then Stepped(st, [])
    else
      var p := RunBatch(st, frags[..|frags| - 1]);
      var q := StepFragment(p.state, frags[|frags| - 1]);
      Stepped(q.state, p.sent + q.sent)
  }

  function StepEvent(st: ChunkState, ev: StreamEvent): Stepped
  {
    match ev
    case Fragments(batch) => RunBatch(st, batch)
    case Tick => Stepped(st, [Typing, Presence])
  }

  /** The loop over stream events, from the initial state. */
  function RunEvents(events: seq<StreamEvent>): Stepped
  {
    if events == [] then Stepped(INITIAL, [])
    else
      var p := RunEvents(events[..|events| - 1]);
      var q := StepEvent(p.state, events[|events| - 1]);
      Stepped(q.state, p.sent + q.sent)
  }

  /** What the loop sends after the initial typing signal, including what its end sends. */
  function PromptSignals(events: seq<StreamEvent>, end: StreamEnd): seq<Signal>
  {
    var r := RunEvents(events);
    r.sent + (if end == Timeout then [Say(TIMEOUT_TEXT)] else []) + [Say(r.state.output)]
  }

  /**
   * The fragment loop of `handle_prompt`, updating `think_flag` and `output`
   * in place and recording each send instead of performing it.
   */
  method ChunkStream(events: seq<StreamEvent>, end: StreamEnd) returns (signals: seq<Signal>)
    ensures signals == PromptSignals(events, end)
  {
    var thinkFlag := true;
    var output := "";
    signals := [];
    var i := 0;
    while i < |events|
      invariant 0 <= i <= |events|
      invariant RunEvents(events[..i]) == Stepped(ChunkState(thinkFlag, output), signals)
    {
      assert events[..i + 1][..i] == events[..i];
      match events[i] {
      case Tick =>
        signals := signals + [Typing, Presence];
      case Fragments(batch) =>
        var sent;
        thinkFlag, output, sent := ChunkBatch(thinkFlag, output, batch);
        signals := signals + sent;
      }
      i := i + 1;
    }
    assert events[..|events|] == events;
    if end == Timeout {
      signals := signals + [Say(TIMEOUT_TEXT)];
    }
    signals := signals + [Say(output)];
  }

  /** The inner loop over one batch of fragments. */
  method ChunkBatch(thinkFlag0: bool, output0: string, batch: seq<string>)
    returns (thinkFlag: bool, output: string, sent: seq<Signal>)
    ensures RunBatch(ChunkState(thinkFlag0, output0), batch) == Stepped(ChunkState(thinkFlag, output), sent)
  {
    thinkFlag, output, sent := thinkFlag0, output0, [];
    ghost var st0 := ChunkState(thinkFlag0, output0);
    var j := 0;
    while j < |batch|
      invariant 0 <= j <= |batch|
      invariant RunBatch(st0, batch[..j]) == Stepped(ChunkState(thinkFlag, output), sent)
    {
      assert batch[..j + 1][..j] == batch[..j];
      var frag := batch[j];
      if !thinkFlag {
        if frag == PARAGRAPH {
          j := j + 1;
          continue;
        } else if frag == SENTENCE_END {
          output := output + frag;
          sent := sent + [Say(output)];
          output := "";
          j := j + 1;
          continue;
        }
        output := output + frag;
      }
      if Contains(frag, THINK_END) {
        thinkFlag := false;
      }
      j := j + 1;
    }
    assert batch[..|batch|] == batch;
  }

  // ---- Reference definitions: what the chunker is meant to deliver ----

  function FragsOf(ev: StreamEvent): seq<string>
  {
    match ev
    case Fragments(batch) => batch
    case Tick => []
  }

  /** All fragments of a stream, in order. */
  function Flatten(events: seq<StreamEvent>): seq<string>
  {
    if events == [] then [] else FragsOf(events[0]) + Flatten(events[1..])
  }

  /** Some fragment contains the end-of-thinking marker. */
  predicate HasMarker(fs: seq<string>)
  {
    exists i :: 0 <= i < |fs| && Contains(fs[i], THINK_END)
  }

  /** The fragments strictly after the first one that contains the marker; none if there is no marker. */
  function AfterThink(fs: seq<string>): seq<string>
  {
    if fs == [] then []
    else if Contains(fs[0], THINK_END) then fs[1..]
    else AfterThink(fs[1..])
  }

  /** The fragments that are not a bare paragraph break. */
  function Kept(fs: seq<string>): seq<string>
  {
    if fs == [] then []
    else (if fs[0] == PARAGRAPH then [] else [fs[0]]) + Kept(fs[1..])
  }

  /** How many of the fragments are exactly `x`. */
  function CountOf(fs: seq<string>, x: string): nat
  {
    if fs == [] then 0 else (if fs[0] == x then 1 else 0) + CountOf(fs[1..], x)
  }

  /** The texts of the chat messages among the signals, in order. */
  function SayTexts(sigs: seq<Signal>): seq<string>
  {
    if sigs == [] then []
    else (if sigs[0].Say? then [sigs[0].text] else []) + SayTexts(sigs[1..])
  }

  /** The text the user should eventually see: visible fragments without bare paragraph breaks. */
  function VisibleText(events: seq<StreamEvent>): string
  {
    Concat(Kept(AfterThink(Flatten(events))))
  }

  // ---- Append laws for the reference definitions ----

  lemma {:induction false} FlattenSnoc(events: seq<StreamEvent>, ev: StreamEvent)
    ensures Flatten(events + [ev]) == Flatten(events) + FragsOf(ev)
  {
    if events == [] {
      assert [ev][1..] == [];
    } else {
      assert (events + [ev])[1..] == events[1..] + [ev];
      FlattenSnoc(events[1..], ev);
    }
  }

  lemma {:induction false} AfterThinkSnoc(fs: seq<string>, f: string)
    ensures AfterThink(fs + [f]) == if HasMarker(fs) then AfterThink(fs) + [f] else []
  {
    if fs == [] {
      assert !HasMarker(fs);
      assert [f][1..] == [];
    } else {
      assert (fs + [f])[0] == fs[0];
      assert (fs + [f])[1..] == fs[1..] + [f];
      if Contains(fs[0], THINK_END) {
        assert HasMarker(fs);
      } else {
        AfterThinkSnoc(fs[1..], f);
        if HasMarker(fs) {
          var i :| 0 <= i < |fs| && Contains(fs[i], THINK_END);
          assert fs[1..][i - 1] == fs[i];
        } else {
          assert !HasMarker(fs[1..]) by {
            forall i | 0 <= i < |fs[1..]| ensures !Contains(fs[1..][i], THINK_END) {
              assert fs[1..][i] == fs[i + 1];
            }
          }
        }
      }
    }
  }

  lemma {:induction false} KeptAppend(a: seq<string>, b: seq<string>)
    ensures Kept(a + b) == Kept(a) + Kept(b)
  {
    if a == [] {
      assert a + b == b;
    } else {
      assert (a + b)[0] == a[0];
      assert (a + b)[1..] == a[1..] + b;
      KeptAppend(a[1..], b);
    }
  }

  lemma {:induction false} CountOfAppend(a: seq<string>, b: seq<string>, x: string)
    ensures CountOf(a + b, x) == CountOf(a, x) + CountOf(b, x)
  {
    if a == [] {
      assert a + b == b;
    } else {
      assert (a + b)[0] == a[0];
      assert (a + b)[1..] == a[1..] + b;
      CountOfAppend(a[1..], b, x);
    }
  }

  lemma {:induction false} SayTextsAppend(a: seq<Signal>, b: seq<Signal>)
    ensures SayTexts(a + b) == SayTexts(a) + SayTexts(b)
  {
    if a == [] {
      assert a + b == b;
    } else {
      assert (a + b)[0] == a[0];
      assert (a + b)[1..] == a[1..] + b;
      SayTextsAppend(a[1..], b);
    }
  }

  // ---- The chunker's invariant ----

  /**
   * After fragments `fs`, from the initial state: the flag is down exactly
   * when a marker has been seen; nothing was sent while it was up; the
   * messages sent so far followed by the buffer are the visible text; one
   * message was sent per sentence-ending paragraph break, each ending with it.
   */
  ghost predicate Agrees(st: ChunkState, sent: seq<Signal>, fs: seq<string>)
  {
    && st.thinking == !HasMarker(fs)
    && (st.thinking ==> SayTexts(sent) == [] && st.output == [])
    && Concat(SayTexts(sent)) + st.output == Concat(Kept(AfterThink(fs)))
    && |SayTexts(sent)| == CountOf(AfterThink(fs), SENTENCE_END)
    && forall k :: 0 <= k < |SayTexts(sent)| ==> EndsWith(SayTexts(sent)[k], SENTENCE_END)
  }

  /** While thinking, a fragment is hidden: only whether it holds the marker matters. */
  lemma ThinkingStepAgrees(st: ChunkState, sent: seq<Signal>, fs: seq<string>, f: string)
    requires Agrees(st, sent, fs) && st.thinking
    ensures Agrees(StepFragment(st, f).state, sent + StepFragment(st, f).sent, fs + [f])
  {
    AfterThinkSnoc(fs, f);
    assert sent + [] == sent;
    assert !HasMarker(fs);
    assert HasMarker(fs + [f]) <==> Contains(f, THINK_END) by {
      assert (fs + [f])[|fs|] == f;
      assert forall i :: 0 <= i < |fs| ==> (fs + [f])[i] == fs[i];
    }
  }

  /** Once visible, the marker stays seen and the fragment joins the visible sequence. */
  lemma VisibleSnoc(fs: seq<string>, f: string)
    requires HasMarker(fs)
    ensures HasMarker(fs + [f])
    ensures Kept(AfterThink(fs + [f])) == Kept(AfterThink(fs)) + (if f == PARAGRAPH then [] else [f])
    ensures CountOf(AfterThink(fs + [f]), SENTENCE_END) == CountOf(AfterThink(fs), SENTENCE_END) + (if f == SENTENCE_END then 1 else 0)
  {
    var a := AfterThink(fs);
    AfterThinkSnoc(fs, f);
    var i :| 0 <= i < |fs| && Contains(fs[i], THINK_END);
    assert (fs + [f])[i] == fs[i];
    KeptAppend(a, [f]);
    CountOfAppend(a, [f], SENTENCE_END);
    assert Kept([f]) == if f == PARAGRAPH then [] else [f];
    assert CountOf([f], SENTENCE_END) == if f == SENTENCE_END then 1 else 0;
  }

  /** A sentence-ending paragraph break sends the buffer with the break as one message. */
  lemma SentenceStepAgrees(st: ChunkState, sent: seq<Signal>, fs: seq<string>)
    requires Agrees(st, sent, fs) && !st.thinking
    ensures Agrees(StepFragment(st, SENTENCE_END).state, sent + StepFragment(st, SENTENCE_END).sent, fs + [SENTENCE_END])
  {
    var f := SENTENCE_END;
    assert StepFragment(st, f) == Stepped(ChunkState(false, ""), [Say(st.output + f)]);
    VisibleSnoc(fs, f);
    assert EndsWith(st.output + f, f) by {
      assert (st.output + f)[|st.output + f| - |f|..] == f;
    }
    SaidOneMore(sent, st.output + f);
    assert Concat(SayTexts(sent + [Say(st.output + f)])) + "" == Concat(Kept(AfterThink(fs + [f]))) by {
      ConcatAppend(Kept(AfterThink(fs)), [f]);
      assert Concat([f]) == f;
      assert Concat(SayTexts(sent)) + (st.output + f) + "" == (Concat(SayTexts(sent)) + st.output) + f;
    }
  }

  /** One more sentence message: its text joins the sent texts, and every sent text still ends a sentence. */
  lemma SaidOneMore(sent: seq<Signal>, text: string)
    requires forall k :: 0 <= k < |SayTexts(sent)| ==> EndsWith(SayTexts(sent)[k], SENTENCE_END)
    requires EndsWith(text, SENTENCE_END)
    ensures SayTexts(sent + [Say(text)]) == SayTexts(sent) + [text]
    ensures Concat(SayTexts(sent + [Say(text)])) == Concat(SayTexts(sent)) + text
    ensures forall k :: 0 <= k < |SayTexts(sent + [Say(text)])| ==> EndsWith(SayTexts(sent + [Say(text)])[k], SENTENCE_END)
  {
    SayTextsAppend(sent, [Say(text)]);
    assert SayTexts([Say(text)]) == [text];
    ConcatAppend(SayTexts(sent), [text]);
    assert Concat([text]) == text;
    var texts := SayTexts(sent) + [text];
    forall k | 0 <= k < |texts| ensures EndsWith(texts[k], SENTENCE_END) {
      if k < |texts| - 1 {
        assert texts[k] == SayTexts(sent)[k];
      }
    }
  }

  /** A visible bare paragraph break is dropped: nothing is sent or buffered. */
  lemma ParagraphStepAgrees(st: ChunkState, sent: seq<Signal>, fs: seq<string>)
    requires Agrees(st, sent, fs) && !st.thinking
    ensures Agrees(StepFragment(st, PARAGRAPH).state, sent + StepFragment(st, PARAGRAPH).sent, fs + [PARAGRAPH])
  {
    VisibleSnoc(fs, PARAGRAPH);
    assert StepFragment(st, PARAGRAPH) == Stepped(st, []);
    assert sent + [] == sent;
    assert Kept(AfterThink(fs)) + [] == Kept(AfterThink(fs));
  }

  /** Any other visible fragment is appended to the buffer. */
  lemma BufferStepAgrees(st: ChunkState, sent: seq<Signal>, fs: seq<string>, f: string)
    requires Agrees(st, sent, fs) && !st.thinking && f != SENTENCE_END && f != PARAGRAPH
    ensures Agrees(StepFragment(st, f).state, sent + StepFragment(st, f).sent, fs + [f])
  {
    VisibleSnoc(fs, f);
    assert StepFragment(st, f) == Stepped(ChunkState(false, st.output + f), []);
    assert sent + [] == sent;
    var said := Concat(SayTexts(sent));
    var kept := Kept(AfterThink(fs));
    ConcatAppend(kept, [f]);
    assert Concat([f]) == f;
    assert Concat(kept + [f]) == Concat(kept) + f;
    assert said + (st.output + f) == (said + st.output) + f;
  }

  lemma StepFragmentAgrees(st: ChunkState, sent: seq<Signal>, fs: seq<string>, f: string)
    requires Agrees(st, sent, fs)
    ensures Agrees(StepFragment(st, f).state, sent + StepFragment(st, f).sent, fs + [f])
  {
    if st.thinking {
      ThinkingStepAgrees(st, sent, fs, f);
    } else if f == SENTENCE_END {
      SentenceStepAgrees(st, sent, fs);
    } else if f == PARAGRAPH {
      ParagraphStepAgrees(st, sent, fs);
    } else {
      BufferStepAgrees(st, sent, fs, f);
    }
  }

  lemma {:induction false} RunBatchAgrees(st: ChunkState, sent: seq<Signal>, fs: seq<string>, batch: seq<string>)
    requires Agrees(st, sent, fs)
    ensures Agrees(RunBatch(st, batch).state, sent + RunBatch(st, batch).sent, fs + batch)
  {
    if batch != [] {
      var init := batch[..|batch| - 1];
      var f := batch[|batch| - 1];
      var p := RunBatch(st, init);
      RunBatchAgrees(st, sent, fs, init);
      StepFragmentAgrees(p.state, sent + p.sent, fs + init, f);
      assert fs + init + [f] == fs + batch;
      assert sent + p.sent + StepFragment(p.state, f).sent == sent + RunBatch(st, batch).sent;
    } else {
      assert fs + batch == fs;
      assert sent + RunBatch(st, batch).sent == sent;
    }
  }

  lemma {:induction false} RunEventsAgrees(events: seq<StreamEvent>)
    ensures Agrees(RunEvents(events).state, RunEvents(events).sent, Flatten(events))
  {
    if events == [] {
      assert !HasMarker([]);
    } else {
      var init := events[..|events| - 1];
      var ev := events[|events| - 1];
      var p := RunEvents(init);
      RunEventsAgrees(init);
      FlattenSnoc(init, ev);
      assert init + [ev] == events;
      match ev
      case Fragments(batch) =>
        RunBatchAgrees(p.state, p.sent, Flatten(init), batch);
      case Tick =>
        SayTextsAppend(p.sent, [Typing, Presence]);
        assert SayTexts([Typing, Presence]) == [];
        assert SayTexts(p.sent) + [] == SayTexts(p.sent);
        assert Flatten(init) + [] == Flatten(init);
    }
  }

  // ---- What the chunker promises ----

  /**
   * Every visible, non-dropped fragment reaches the user exactly once and in
   * order: the chat messages of a prompt concatenate to the visible text,
   * with the timeout text inserted before the final flush on a timeout.
   */
  lemma VisibleTextDelivered(events: seq<StreamEvent>, end: StreamEnd)
    ensures var r := RunEvents(events);
      && (end != Timeout ==> Concat(SayTexts(PromptSignals(events, end))) == VisibleText(events))
      && (end == Timeout ==>
            && SayTexts(PromptSignals(events, end)) == SayTexts(r.sent) + [TIMEOUT_TEXT, r.state.output]
            && Concat(SayTexts(r.sent)) + r.state.output == VisibleText(events))
  {
    var r := RunEvents(events);
    RunEventsAgrees(events);
    var tail := (if end == Timeout then [Say(TIMEOUT_TEXT)] else []) + [Say(r.state.output)];
    assert PromptSignals(events, end) == r.sent + tail;
    SayTextsAppend(r.sent, tail);
    if end == Timeout {
      assert tail == [Say(TIMEOUT_TEXT), Say(r.state.output)];
      assert tail[1..] == [Say(r.state.output)];
      assert SayTexts([Say(r.state.output)]) == [r.state.output];
      assert SayTexts(tail) == [TIMEOUT_TEXT, r.state.output];
    } else {
      assert SayTexts(tail) == [r.state.output];
      ConcatAppend(SayTexts(r.sent), [r.state.output]);
      assert Concat([r.state.output]) == r.state.output;
    }
  }

  /**
   * While no fragment has contained the marker, nothing is buffered or sent;
   * once one has, the flag never goes back up.
   */
  lemma {:induction false} ThinkingSuppressed(events: seq<StreamEvent>, more: seq<StreamEvent>)
    ensures !HasMarker(Flatten(events)) ==>
      RunEvents(events).state == INITIAL && SayTexts(RunEvents(events).sent) == []
    ensures !RunEvents(events).state.thinking ==> !RunEvents(events + more).state.thinking
  {
    RunEventsAgrees(events);
    RunEventsAgrees(events + more);
    FlattenAppend(events, more);
    if HasMarker(Flatten(events)) {
      var i :| 0 <= i < |Flatten(events)| && Contains(Flatten(events)[i], THINK_END);
      assert Flatten(events + more)[i] == Flatten(events)[i];
    }
  }

  lemma {:induction false} FlattenAppend(a: seq<StreamEvent>, b: seq<StreamEvent>)
    ensures Flatten(a + b) == Flatten(a) + Flatten(b)
  {
    if a == [] {
      assert a + b == b;
    } else {
      assert (a + b)[0] == a[0];
      assert (a + b)[1..] == a[1..] + b;
      FlattenAppend(a[1..], b);
    }
  }

  /**
   * During the loop, one chat message is sent per visible fragment that is
   * exactly ".\n\n", and each of them ends with that fragment.
   */
  lemma LoopFlushes(events: seq<StreamEvent>)
    ensures var texts := SayTexts(RunEvents(events).sent);
      && |texts| == CountOf(AfterThink(Flatten(events)), SENTENCE_END)
      && forall k :: 0 <= k < |texts| ==> EndsWith(texts[k], SENTENCE_END)
  {
    RunEventsAgrees(events);
  }

  /** A batch with one more fragment: the extra fragment is stepped last. */
  lemma RunBatchSnoc(st: ChunkState, frags: seq<string>, f: string)
    ensures RunBatch(st, frags + [f]) ==
      var p := RunBatch(st, frags);
      var q := StepFragment(p.state, f);
      Stepped(q.state, p.sent + q.sent)
  {
    assert (frags + [f])[..|frags|] == frags;
  }

  /** A batch split in two: the second part continues from where the first left off. */
  lemma {:induction false} RunBatchAppend(st: ChunkState, x: seq<string>, y: seq<string>)
    ensures RunBatch(st, x + y) ==
      var p := RunBatch(st, x);
      var q := RunBatch(p.state, y);
      Stepped(q.state, p.sent + q.sent)
  {
    if y == [] {
      assert x + y == x;
      assert RunBatch(st, x).sent + [] == RunBatch(st, x).sent;
    } else {
      var init := y[..|y| - 1];
      var f := y[|y| - 1];
      RunBatchAppend(st, x, init);
      assert x + y == (x + init) + [f];
      RunBatchSnoc(st, x + init, f);
      var p := RunBatch(st, x);
      var r := RunBatch(p.state, init);
      var q := StepFragment(r.state, f);
      assert p.sent + r.sent + q.sent == p.sent + (r.sent + q.sent);
    }
  }

  /** Before the marker, fragments change nothing and send nothing. */
  lemma {:induction false} StaysHidden(hidden: seq<string>)
    requires forall i :: 0 <= i < |hidden| ==> !Contains(hidden[i], THINK_END)
    ensures RunBatch(INITIAL, hidden) == Stepped(INITIAL, [])
  {
    if hidden != [] {
      var init := hidden[..|hidden| - 1];
      assert forall i :: 0 <= i < |init| ==> init[i] == hidden[i];
      StaysHidden(init);
      assert !Contains(hidden[|hidden| - 1], THINK_END);
    }
  }

  /** Once visible, fragments that are no paragraph break are buffered in order and nothing is sent. */
  lemma {:induction false} Buffered(st: ChunkState, pieces: seq<string>)
    requires !st.thinking
    requires forall i :: 0 <= i < |pieces| ==> pieces[i] != PARAGRAPH && pieces[i] != SENTENCE_END
    ensures RunBatch(st, pieces) == Stepped(ChunkState(false, st.output + Concat(pieces)), [])
  {
    if pieces == [] {
      assert st.output + [] == st.output;
    } else {
      var init := pieces[..|pieces| - 1];
      var f := pieces[|pieces| - 1];
      assert forall i :: 0 <= i < |init| ==> init[i] == pieces[i];
      Buffered(st, init);
      assert init + [f] == pieces;
      ConcatAppend(init, [f]);
      assert Concat([f]) == f;
      assert st.output + Concat(init) + f == st.output + (Concat(init) + f);
    }
  }

  /** The reasoning preamble is hidden, and its closing marker ends thinking. */
  lemma PreambleHidden()
    ensures RunBatch(INITIAL, ["<think>", "ignored", "</think>"]) == Stepped(ChunkState(false, ""), [])
  {
    ContainsNeedsLength("<think>", THINK_END);
    ContainsNeedsLength("ignored", THINK_END);
    StaysHidden(["<think>", "ignored"]);
    assert Contains("</think>", THINK_END) by {
      assert StartsWith("</think>", THINK_END);
    }
    RunBatchSnoc(INITIAL, ["<think>", "ignored"], "</think>");
    assert ["<think>", "ignored"] + ["</think>"] == ["<think>", "ignored", "</think>"];
  }

  /** Two visible pieces of a sentence are buffered, and a bare paragraph break after them is dropped. */
  lemma SentenceBuffered()
    ensures RunBatch(ChunkState(false, ""), ["Hello", " world.", "\n\n"]) == Stepped(ChunkState(false, "Hello world."), [])
  {
    var pieces := ["Hello", " world."];
    assert |"Hello"| == 5 && |" world."| == 7;
    Buffered(ChunkState(false, ""), pieces);
    assert Concat(pieces) == "Hello world.";
    RunBatchSnoc(ChunkState(false, ""), pieces, "\n\n");
    assert pieces + ["\n\n"] == ["Hello", " world.", "\n\n"];
  }

  /**
   * A reasoning preamble followed by one sentence: the preamble and the
   * marker fragment are hidden, the bare paragraph break is dropped, and
   * the final flush delivers the sentence as the only message.
   */
  lemma PreambleThenSentence()
    ensures PromptSignals([Fragments(["<think>", "ignored", "</think>", "Hello", " world.", "\n\n"])], EndOfStream)
      == [Say("Hello world.")]
  {
    var preamble := ["<think>", "ignored", "</think>"];
    var rest := ["Hello", " world.", "\n\n"];
    PreambleHidden();
    SentenceBuffered();
    RunBatchAppend(INITIAL, preamble, rest);
    var frags := preamble + rest;
    assert frags == ["<think>", "ignored", "</think>", "Hello", " world.", "\n\n"];
    assert RunEvents([Fragments(frags)]) == Stepped(ChunkState(false, "Hello world."), []) by {
      assert [Fragments(frags)][..0] == [];
    }
  }
}
