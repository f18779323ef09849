/**
 * The worker loop of one model: it clears its inbox, switches on live
 * delivery, then takes commands and inbound messages in arrival order until
 * an `Exit` command arrives. Each message is handled and then deleted from
 * the mediator, whatever the handler returned.
 */
module ModelAgent {
  import opened StateManagement
  import opened Effects
  import opened ChatMessages

  /** What the worker's `select!` receives next: a command, or an inbound message with its metadata hash. */
  datatype WorkerEvent =
    | ExitCommand
    | Inbound(message: Message, metaHash: string, gen: Generation)

  /** The outcomes of the start-up calls whose failure aborts the worker. */
  datatype WorkerStartup = WorkerStartup(websocketOk: bool, directChannelOk: bool)

  /**
   * How the worker ended: by command, because start-up failed, because the
   * handler panicked, or not at all (it is still waiting for input).
   */
  datatype WorkerOutcome = Stopped(reason: Interrupted) | StartFailed | Crashed | Waiting

  /** The metadata hashes deleted by `effects`, in order. */
  function Deletions(effects: seq<Effect>): seq<string>
  {
    if effects == [] then []
    else
      var last := effects[|effects| - 1];
      Deletions(effects[..|effects| - 1]) + (if last.DeleteMessage? then [last.metaHash] else [])
  }

  /** The metadata hashes of the inbound messages among `events`, in order. */
  function InboundHashes(events: seq<WorkerEvent>): seq<string>
  {
    if events == [] then []
    else
      var last := events[|events| - 1];
      InboundHashes(events[..|events| - 1]) + (if last.Inbound? then [last.metaHash] else [])
  }

  /** One more event extends the inbound hashes by its own, if it is a message. */
  lemma InboundHashesStep(events: seq<WorkerEvent>, k: nat)
    requires k < |events|
    ensures InboundHashes(events[..k + 1]) ==
      InboundHashes(events[..k]) + (if events[k].Inbound? then [events[k].metaHash] else [])
  {
    assert events[..k + 1][..k] == events[..k];
  }

  lemma {:induction false} DeletionsAppend(a: seq<Effect>, b: seq<Effect>)
    ensures Deletions(a + b) == Deletions(a) + Deletions(b)
  {
    if b == [] {
      assert a + b == a;
    } else {
      DeletionsAppend(a, b[..|b| - 1]);
      assert (a + b)[..|a + b| - 1] == a + b[..|b| - 1];
    }
  }

  /** Effects with no deletion among them delete nothing. */
  lemma {:induction false} NoDeletions(effects: seq<Effect>)
    requires forall e :: e in effects ==> !e.DeleteMessage?
    ensures Deletions(effects) == []
  {
    if effects != [] {
      NoDeletions(effects[..|effects| - 1]);
      assert effects[|effects| - 1] in effects;
    }
  }

  /** The owner's state and everything sent so far. */
  datatype Progress = Progress(owner: Owner, effects: seq<Effect>)

  /**
   * The worker's progress through `events` from owner `o` when no handler
   * panics: each message handled and then deleted, in arrival order.
   */
  function Worked(o: Owner, digest: Digest, agentDid: string, events: seq<WorkerEvent>): Progress
  {
    if events == [] then Progress(o, [])
    else
      var p := Worked(o, digest, agentDid, events[..|events| - 1]);
      match events[|events| - 1]
      case ExitCommand => p
      case Inbound(m, metaHash, gen) => Take(p, digest, agentDid, m, metaHash, gen)
  }

  /** Message `m` handled without a panic and then deleted, after progress `p`. */
  function Take(p: Progress, digest: Digest, agentDid: string, m: Message, metaHash: string, gen: Generation): Progress
  {
    var r := Handled(p.owner, digest, agentDid, m, gen);
    Progress(r.owner, p.effects + (r.effects + [DeleteMessage(metaHash)]))
  }

  /** One more event extends the progress by that event's handling and deletion. */
  lemma WorkedStep(o: Owner, digest: Digest, agentDid: string, events: seq<WorkerEvent>, k: nat)
    requires k < |events| && events[k].Inbound?
    ensures Worked(o, digest, agentDid, events[..k + 1]) ==
      Take(Worked(o, digest, agentDid, events[..k]), digest, agentDid, events[k].message, events[k].metaHash, events[k].gen)
  {
    assert events[..k + 1][..k] == events[..k];
  }

  /** The deletions a worker sends are those of every message it took, one each, in arrival order. */
  lemma {:induction false} WorkedDeletions(o: Owner, digest: Digest, agentDid: string, events: seq<WorkerEvent>)
    ensures Deletions(Worked(o, digest, agentDid, events).effects) == InboundHashes(events)
  {
    if events != [] {
      var init := events[..|events| - 1];
      WorkedDeletions(o, digest, agentDid, init);
      var p := Worked(o, digest, agentDid, init);
      match events[|events| - 1]
      case ExitCommand =>
      case Inbound(m, metaHash, gen) =>
        var r := Handled(p.owner, digest, agentDid, m, gen);
        HandledDeletesNothing(p.owner, digest, agentDid, m, gen);
        NoDeletions(r.effects);
        DeletionsAppend(r.effects, [DeleteMessage(metaHash)]);
        DeletionsAppend(p.effects, r.effects + [DeleteMessage(metaHash)]);
        assert Deletions([DeleteMessage(metaHash)]) == [metaHash] by {
          assert [DeleteMessage(metaHash)][..0] == [];
        }
    }
  }

  /** Handling messages changes only the model's conversations, never its configuration. */
  lemma {:induction false} WorkedKeepsModel(o: Owner, digest: Digest, agentDid: string, events: seq<WorkerEvent>)
    ensures var p := Worked(o, digest, agentDid, events); p.owner == o.WithChannels(p.owner.Channels())
  {
    if events == [] {
      WithOwnChannels(o);
    } else {
      var init := events[..|events| - 1];
      WorkedKeepsModel(o, digest, agentDid, init);
      var p := Worked(o, digest, agentDid, init);
      match events[|events| - 1]
      case ExitCommand =>
      case Inbound(m, metaHash, gen) =>
        var r := Handled(p.owner, digest, agentDid, m, gen);
        HandledFrame(p.owner, digest, agentDid, m, gen);
        WithChannelsTwice(o, p.owner.Channels(), r.owner.Channels());
    }
  }

  /** The first `n` events are messages, each handled without a panic from the state the previous ones left. */
  predicate TookAll(o: Owner, digest: Digest, agentDid: string, events: seq<WorkerEvent>, n: nat)
  {
    && n <= |events|
    && forall j :: 0 <= j < n ==>
         && events[j].Inbound?
         && !HandlerPanics(Worked(o, digest, agentDid, events[..j]).owner, digest, agentDid, events[j].message, events[j].gen)
  }

  lemma TookOneMore(o: Owner, digest: Digest, agentDid: string, events: seq<WorkerEvent>, n: nat)
    requires TookAll(o, digest, agentDid, events, n)
    requires n < |events| && events[n].Inbound?
    requires !HandlerPanics(Worked(o, digest, agentDid, events[..n]).owner, digest, agentDid, events[n].message, events[n].gen)
    ensures TookAll(o, digest, agentDid, events, n + 1)
  {
  }

  /**
   * After start-up, the worker's effects are the two start-up calls, what
   * it `done` and a `tail` that deletes nothing: they delete what `done`
   * deletes, in order.
   */
  lemma Started(done: seq<Effect>, tail: seq<Effect>)
    requires Deletions(tail) == []
    ensures var effects := [ClearInbound, EnableLiveDelivery] + (done + tail);
      && effects == [ClearInbound, EnableLiveDelivery] + done + tail
      && Deletions(effects) == Deletions(done)
      && |effects| >= 2 && effects[..2] == [ClearInbound, EnableLiveDelivery]
  {
    var prefix := [ClearInbound, EnableLiveDelivery];
    assert prefix + (done + tail) == (prefix + done) + tail;
    NoDeletions(prefix);
    DeletionsAppend(prefix, done);
    DeletionsAppend(prefix + done, tail);
  }

  /** Appending one handled message's effects to the run's effects extends its progress. */
  lemma EffectsStep(prefix: seq<Effect>, done: seq<Effect>, handled: seq<Effect>, deletion: Effect)
    ensures (prefix + done) + (handled + [deletion]) == prefix + (done + handled + [deletion])
  {
  }

  /**
   * One inbound message: handled, then deleted from the mediator whatever
   * the handler returned. A panic in the handler ends the worker before
   * the deletion.
   */
  method HandleAndDelete(cell: ChannelStateCell, digest: Digest, agentDid: string, m: Message, metaHash: string, gen: Generation)
    returns (crashed: bool, effects: seq<Effect>)
    modifies cell
    ensures crashed <==> HandlerPanics(old(cell.owner), digest, agentDid, m, gen)
    ensures var r := Handled(old(cell.owner), digest, agentDid, m, gen);
      && (crashed <==> r.status == Panicked)
      && effects == r.effects + (if crashed then [] else [DeleteMessage(metaHash)])
      && cell.owner == r.owner
    ensures crashed ==> cell.owner == old(cell.owner)
    ensures Deletions(effects) == if crashed then [] else [metaHash]
    ensures !crashed ==> |effects| >= 1 && effects[|effects| - 1] == DeleteMessage(metaHash)
  {
    ghost var o := cell.owner;
    var status, out := HandleMessage(cell, digest, agentDid, m, gen);
    HandlerPanicsExactly(o, digest, agentDid, m, gen);
    HandledDeletesNothing(o, digest, agentDid, m, gen);
    NoDeletions(out);
    crashed := status == Panicked;
    if crashed {
      assert out + [] == out;
      return crashed, out;
    }
    DeletionsAppend(out, [DeleteMessage(metaHash)]);
    assert Deletions([DeleteMessage(metaHash)]) == [metaHash] by {
      assert [DeleteMessage(metaHash)][..0] == [];
    }
    effects := out + [DeleteMessage(metaHash)];
  }

  /**
   * The `select!` loop of `ModelAgent::run`, after start-up: commands and
   * messages in arrival order until an `Exit` command or a panic. On
   * `Crashed` the event at `processed` is the message whose handler
   * panicked.
   */
  method Listen(cell: ChannelStateCell, digest: Digest, agentDid: string, events: seq<WorkerEvent>)
    returns (outcome: WorkerOutcome, processed: nat, effects: seq<Effect>)
    modifies cell
    ensures TookAll(old(cell.owner), digest, agentDid, events, processed)
    ensures outcome.Stopped? ==> outcome.reason == UserInt && processed < |events| && events[processed] == ExitCommand
    ensures outcome.Crashed? ==> processed < |events| && events[processed].Inbound?
    ensures outcome.Waiting? ==> processed == |events|
    ensures !outcome.StartFailed?
    ensures !outcome.Crashed? ==> Progress(cell.owner, effects) == Worked(old(cell.owner), digest, agentDid, events[..processed])
    ensures outcome.Crashed? ==>
      var w := Worked(old(cell.owner), digest, agentDid, events[..processed]);
      var r := Handled(w.owner, digest, agentDid, events[processed].message, events[processed].gen);
      && HandlerPanics(w.owner, digest, agentDid, events[processed].message, events[processed].gen)
      && cell.owner == w.owner
      && effects == w.effects + r.effects
      && Deletions(r.effects) == []
  {
    ghost var o := cell.owner;
    processed := 0;
    effects := [];
    while processed < |events|
      invariant TookAll(o, digest, agentDid, events, processed)
      invariant Progress(cell.owner, effects) == Worked(o, digest, agentDid, events[..processed])
    {
      if events[processed].ExitCommand? {
        return Stopped(UserInt), processed, effects;
      }
      ghost var w := Progress(cell.owner, effects);
      var crashed, out := HandleAndDelete(cell, digest, agentDid, events[processed].message, events[processed].metaHash, events[processed].gen);
      if crashed {
        ghost var r := Handled(w.owner, digest, agentDid, events[processed].message, events[processed].gen);
        assert out == r.effects by {
          assert r.effects + [] == r.effects;
        }
        return Crashed, processed, effects + out;
      }
      WorkedStep(o, digest, agentDid, events, processed);
      TookOneMore(o, digest, agentDid, events, processed);
      effects := effects + out;
      processed := processed + 1;
    }
    outcome := Waiting;
  }

  /**
   * `ModelAgent::run` over the events that arrive, in arrival order:
   * start-up, then `Listen`. `processed` counts the messages handled and
   * deleted.
   */
  method RunWorker(cell: ChannelStateCell, digest: Digest, agentDid: string, startup: WorkerStartup, events: seq<WorkerEvent>)
    returns (outcome: WorkerOutcome, processed: nat, effects: seq<Effect>)
    modifies cell
    ensures processed <= |events|
    ensures outcome.StartFailed? <==> !startup.websocketOk || !startup.directChannelOk
    ensures outcome.StartFailed? ==>
      processed == 0 && effects == [ClearInbound] + (if startup.websocketOk then [EnableLiveDelivery] else []) &&
      cell.owner == old(cell.owner)
    ensures !outcome.StartFailed? ==> |effects| >= 2 && effects[..2] == [ClearInbound, EnableLiveDelivery]
    ensures TookAll(old(cell.owner), digest, agentDid, events, processed)
    ensures outcome.Stopped? ==> outcome.reason == UserInt && processed < |events| && events[processed] == ExitCommand
    ensures outcome.Crashed? ==> processed < |events| && events[processed].Inbound?
    ensures outcome.Waiting? ==> processed == |events|
    ensures Deletions(effects) == InboundHashes(events[..processed])
    // What the worker did: the fold of the messages it took, then the panicking handler's own effects.
    ensures !outcome.StartFailed? ==> cell.owner == Worked(old(cell.owner), digest, agentDid, events[..processed]).owner
    ensures outcome.Stopped? || outcome.Waiting? ==>
      effects == [ClearInbound, EnableLiveDelivery] + Worked(old(cell.owner), digest, agentDid, events[..processed]).effects
    ensures outcome.Crashed? ==>
      var w := Worked(old(cell.owner), digest, agentDid, events[..processed]);
      && HandlerPanics(w.owner, digest, agentDid, events[processed].message, events[processed].gen)
      && effects == [ClearInbound, EnableLiveDelivery] + w.effects +
           Handled(w.owner, digest, agentDid, events[processed].message, events[processed].gen).effects
  {
    if !startup.websocketOk || !startup.directChannelOk {
      outcome, processed := StartFailed, 0;
      effects := [ClearInbound] + (if startup.websocketOk then [EnableLiveDelivery] else []);
      NoDeletions(effects);
      assert events[..0] == [];
    } else {
      ghost var o := cell.owner;
      var out;
      outcome, processed, out := Listen(cell, digest, agentDid, events);
      ghost var w := Worked(o, digest, agentDid, events[..processed]);
      ghost var tail := if outcome.Crashed? then
        Handled(w.owner, digest, agentDid, events[processed].message, events[processed].gen).effects else [];
      assert out == w.effects + tail;
      WorkedDeletions(o, digest, agentDid, events[..processed]);
      Started(w.effects, tail);
      effects := [ClearInbound, EnableLiveDelivery] + out;
    }
  }

  /**
   * Without an `Exit` command among the events, the hashes a worker must
   * delete are those of every message, one each, in arrival order.
   */
  lemma {:induction false} EveryMessageDeleted(events: seq<WorkerEvent>)
    requires forall j :: 0 <= j < |events| ==> events[j].Inbound?
    ensures InboundHashes(events) == seq(|events|, j requires 0 <= j < |events| => events[j].metaHash)
  {
    if events != [] {
      EveryMessageDeleted(events[..|events| - 1]);
    }
  }
}
