/**
 * The concierge: the supervisor that starts model workers on request,
 * answers direct messages to its own identity, and on exit or interrupt
 * tells every started worker to exit and saves the configuration.
 */
module ConciergeHandler {
  import opened Wrappers
  import opened StateManagement
  import opened Effects
  import opened ChatMessages

  const UNINTELLIGENT_REPLY := "I am an unintelligent response from a very intelligent concierge"

  /** What the supervisor's `select!` receives next, in arrival order. */
  datatype ConciergeEvent =
    | WorkerReport
    | ExitCommand
    | StartModel(modelName: string, profilesOk: bool)
    | Direct(message: Message, metaHash: string)
    | Interrupt(reason: Interrupted)

  /** The events that end the loop. */
  predicate Stops(e: ConciergeEvent)
  {
    e.ExitCommand? || e.Interrupt?
  }

  /** The interrupt a stopping event ends the loop with. */
  function StopReason(e: ConciergeEvent): Interrupted
    requires Stops(e)
  {
    if e.ExitCommand? then UserInt else e.reason
  }

  /** The outcomes of the start-up calls whose failure aborts the concierge. */
  datatype ConciergeStartup = ConciergeStartup(profileOk: bool, websocketOk: bool, directChannelOk: bool)

  datatype ConciergeError =
    | ProfileAddFailed
    | WebsocketFailed
    | DirectChannelFailed
    | ModelProfilesFailed(modelName: string)
    | SaveFailed

  /**
   * How `Concierge::run` ended: with its interrupt, with an error, by a
   * panic in a handler, or not at all (it is still waiting for input).
   */
  datatype ConciergeOutcome = Finished(reason: Interrupted) | Aborted(error: ConciergeError) | Crashed | Waiting

  /** The conversations after a message from `from`: a zeroed record is created for a new sender, an existing one is kept. */
  function Admitted(cs: map<string, ChatChannelState>, from: string, hash: string): (r: map<string, ChatChannelState>)
    ensures r.Keys == cs.Keys + {hash}
    ensures forall k :: k in cs ==> r[k] == cs[k]
    ensures hash !in cs ==> r[hash] == FreshChannelState(from, hash)
  {
    if hash in cs then cs else cs[hash := FreshChannelState(from, hash)]
  }

  /** Message types the concierge consumes without a reply. */
  predicate IsSilent(typeUri: string)
  {
    typeUri == CHAT_DELIVERED || typeUri == CHAT_ACTIVITY || typeUri == PICKUP_STATUS
  }

  /** Whether the concierge's fallback reply answers a message of type `typeUri`. */
  predicate GetsFallback(typeUri: string)
  {
    typeUri != CONNECTION_SETUP && typeUri != CHAT_PRESENCE && !IsSilent(typeUri)
  }

  /** The `unwrap` of the new channel DID in a handshake fails. */
  predicate DirectPanics(m: Message)
  {
    m.from.Some? && m.typeUri == CONNECTION_SETUP && ConnectionResponseDid(m).None?
  }

  /** What one direct message does to concierge owner `o`, as a value. */
  function Directed(o: Owner, digest: Digest, agent: DIDCommAgent, m: Message, metaHash: string): Handling
  {
    if m.from.None? then Handling(Done, [DeleteMessage(metaHash)], o)
    else
      var from := m.from.value;
      var h := digest(from);
      var admitted := Admitted(o.Channels(), from, h);
      if m.typeUri == CONNECTION_SETUP then
        if ConnectionResponseDid(m).None? then Handling(Panicked, [DeleteMessage(metaHash)], o.WithChannels(admitted))
        else
          var newDid := m.body.channelDid.value;
          Handling(Done, [DeleteMessage(metaHash), ConnectionAccepted(from), Chat(newDid, agent.greeting, 0)],
                   o.WithChannels((admitted - {h})[digest(newDid) := FreshChannelState(newDid, digest(newDid)).(seqNo := 1)]))
      else if m.typeUri == CHAT_PRESENCE then Handling(Done, [DeleteMessage(metaHash), PresenceReply(from)], o.WithChannels(admitted))
      else if IsSilent(m.typeUri) then Handling(Done, [DeleteMessage(metaHash)], o.WithChannels(admitted))
      else
        Handling(Done, [DeleteMessage(metaHash), Chat(from, UNINTELLIGENT_REPLY, admitted[h].seqNo)],
                 o.WithChannels(BumpSeqNo(admitted, h)))
  }

  /**
   * A direct message is deleted first, sends nothing that touches the
   * workers or the configuration, and changes only the owner's
   * conversations, where every record it had is kept unless a handshake
   * moved the sender's record to the new DID.
   */
  lemma DirectedQuiet(o: Owner, digest: Digest, agent: DIDCommAgent, m: Message, metaHash: string)
    ensures var d := Directed(o, digest, agent, m, metaHash);
      && |d.effects| >= 1 && d.effects[0] == DeleteMessage(metaHash)
      && (forall e :: e in d.effects ==> !e.SpawnWorker? && !e.SendExit? && !e.SaveConfig? && !e.Terminate?)
      && d.owner == o.WithChannels(d.owner.Channels())
      && (d.status == Panicked <==> DirectPanics(m))
      && (m.from.Some? && !(m.typeUri == CONNECTION_SETUP && d.status == Done) ==>
            forall k :: k in o.Channels() ==> k in d.owner.Channels())
  {
    WithOwnChannels(o);
    var d := Directed(o, digest, agent, m, metaHash);
    if m.from.Some? {
      WithChannelsTwice(o, d.owner.Channels(), d.owner.Channels());
    }
  }

  /**
   * One direct message to the concierge's identity `agent`: deleted first,
   * dropped when anonymous, otherwise its sender gets a record if new and
   * the message is answered by type.
   */
  method HandleDirect(cell: ChannelStateCell, digest: Digest, agent: DIDCommAgent, m: Message, metaHash: string)
    returns (status: Status, effects: seq<Effect>)
    requires cell.owner.ConciergeOwner?
    modifies cell
    ensures Handling(status, effects, cell.owner) == Directed(old(cell.owner), digest, agent, m, metaHash)
    ensures cell.owner.ConciergeOwner? && cell.owner.concierge.agent == old(cell.owner.concierge.agent)
    ensures status == Done || status == Panicked
    ensures |effects| >= 1 && effects[0] == DeleteMessage(metaHash)
    ensures forall e :: e in effects ==> !e.SendExit? && !e.SaveConfig? && !e.SpawnWorker?
    ensures m.from.None? ==> status == Done && effects == [DeleteMessage(metaHash)] && cell.owner == old(cell.owner)
    ensures status == Panicked <==> m.from.Some? && m.typeUri == CONNECTION_SETUP && ConnectionResponseDid(m).None?
    ensures m.from.Some? ==>
      var from := m.from.value;
      var h := digest(from);
      var admitted := Admitted(old(cell.owner.Channels()), from, h);
      && (status == Panicked ==> effects == [DeleteMessage(metaHash)] && cell.owner == old(cell.owner).WithChannels(admitted))
      && (m.typeUri == CONNECTION_SETUP && status == Done ==>
            var newDid := m.body.channelDid.value;
            && effects == [DeleteMessage(metaHash), ConnectionAccepted(from), Chat(newDid, agent.greeting, 0)]
            && cell.owner == old(cell.owner).WithChannels(
                 (admitted - {h})[digest(newDid) := FreshChannelState(newDid, digest(newDid)).(seqNo := 1)]))
      && (m.typeUri == CHAT_PRESENCE ==>
            effects == [DeleteMessage(metaHash), PresenceReply(from)] && cell.owner == old(cell.owner).WithChannels(admitted))
      && (IsSilent(m.typeUri) && m.typeUri != CONNECTION_SETUP && m.typeUri != CHAT_PRESENCE ==>
            effects == [DeleteMessage(metaHash)] && cell.owner == old(cell.owner).WithChannels(admitted))
      && (GetsFallback(m.typeUri) ==>
            && effects == [DeleteMessage(metaHash), Chat(from, UNINTELLIGENT_REPLY, admitted[h].seqNo)]
            && cell.owner == old(cell.owner).WithChannels(BumpSeqNo(admitted, h)))
  {
    effects := [DeleteMessage(metaHash)];
    status := Done;
    if m.from.None? {
      return;
    }
    var from := m.from.value;
    var h := digest(from);
    ghost var o0 := cell.owner;
    if cell.GetChannelState(h).None? {
      var _ := cell.InsertChannelState(h, FreshChannelState(from, h));
    } else {
      WithOwnChannels(o0);
    }
    assert cell.owner == o0.WithChannels(Admitted(o0.Channels(), from, h));
    ghost var o1 := cell.owner;
    if m.typeUri == CONNECTION_SETUP {
      var newDid := ConnectionResponseDid(m);
      if newDid.None? {
        return Panicked, effects;
      }
      var greet := Rekey(cell, digest, from, newDid.value, agent.greeting);
      WithChannelsTwice(o0, o1.Channels(), cell.owner.Channels());
      effects := effects + [ConnectionAccepted(from), greet];
    } else if m.typeUri == CHAT_PRESENCE {
      effects := effects + [PresenceReply(from)];
    } else if IsSilent(m.typeUri) {
    } else {
      var sent := SendMessage(cell, digest, UNINTELLIGENT_REPLY, from);
      WithChannelsTwice(o0, o1.Channels(), cell.owner.Channels());
      effects := effects + [sent.value];
    }
  }

  /** `exits` tells every registered worker, through its own channel, to exit, once each. */
  predicate ExitsEach(exits: seq<Effect>, registry: map<string, nat>)
  {
    && |exits| == |registry|
    && (forall k :: 0 <= k < |exits| ==>
          exits[k].SendExit? && exits[k].model in registry && exits[k].channel == registry[exits[k].model])
    && (forall n :: n in registry ==> SendExit(n, registry[n]) in exits)
    && (forall i, j :: 0 <= i < j < |exits| ==> exits[i] != exits[j])
  }

  /** The clean-up loop over the registry, in any order. */
  method SendExits(registry: map<string, nat>) returns (exits: seq<Effect>)
    ensures ExitsEach(exits, registry)
  {
    exits := [];
    var remaining := registry.Keys;
    while remaining != {}
      invariant remaining <= registry.Keys
      invariant |exits| + |remaining| == |registry|
      invariant forall k :: 0 <= k < |exits| ==>
        exits[k].SendExit? && exits[k].model in registry - remaining && exits[k].channel == registry[exits[k].model]
      invariant forall n :: n in registry && n !in remaining ==> SendExit(n, registry[n]) in exits
      invariant forall i, j :: 0 <= i < j < |exits| ==> exits[i] != exits[j]
      decreases remaining
    {
      var name :| name in remaining;
      exits := exits + [SendExit(name, registry[name])];
      remaining := remaining - {name};
    }
  }

  /** The first start-up call that fails, if any. */
  function StartupError(startup: ConciergeStartup): (r: Option<ConciergeError>)
  {
    if !startup.profileOk then Some(ProfileAddFailed)
    else if !startup.websocketOk then Some(WebsocketFailed)
    else if !startup.directChannelOk then Some(DirectChannelFailed)
    else None
  }

  /**
   * The queue clean-up and live-delivery calls of start-up, up to the first
   * failing call (the profile, the websocket or the direct channel).
   */
  function StartupEffects(startup: ConciergeStartup): (r: seq<Effect>)
    ensures StartupError(startup).None? ==> r == [ClearInbound, ClearOutbound, EnableLiveDelivery]
    ensures StartupError(startup) == Some(ProfileAddFailed) <==> r == []
    ensures r != [] ==> |r| >= 2 && r[..2] == [ClearInbound, ClearOutbound]
    ensures EnableLiveDelivery in r <==> StartupError(startup) != Some(ProfileAddFailed) && StartupError(startup) != Some(WebsocketFailed)
  {
    if !startup.profileOk then []
    else if !startup.websocketOk then [ClearInbound, ClearOutbound]
    else [ClearInbound, ClearOutbound, EnableLiveDelivery]
  }

  /** The end of a run: the loop stopped and clean-up was reached. */
  predicate ShutDown(outcome: ConciergeOutcome)
  {
    outcome.Finished? || outcome == Aborted(SaveFailed)
  }

  /** An event after which the loop goes on: no stop, no failing model start, no panicking handshake. */
  predicate Continues(configured: set<string>, e: ConciergeEvent)
  {
    && !Stops(e)
    && !(e.StartModel? && e.modelName in configured && !e.profilesOk)
    && !(e.Direct? && DirectPanics(e.message))
  }

  /** The supervisor's state: the concierge owner, the worker registry, the channels handed out so far and the effects. */
  datatype Supervision = Supervision(owner: Owner, registry: map<string, nat>, spawned: nat, effects: seq<Effect>)

  /**
   * The supervisor's state after consuming `events` from concierge owner
   * `o`, with `configured` the names of the configured models. A start of
   * a configured model spawns a worker on the next channel and registers it
   * under its name, replacing an earlier one (`HashMap::insert`).
   */
  function Served(o: Owner, digest: Digest, agent: DIDCommAgent, configured: set<string>, events: seq<ConciergeEvent>): Supervision
  {
    if events == [] then Supervision(o, map[], 0, [])
    else ServeStep(Served(o, digest, agent, configured, events[..|events| - 1]), digest, agent, configured, events[|events| - 1])
  }

  /** One event of the loop, from state `s`, when it does not end the loop with an error. */
  function ServeStep(s: Supervision, digest: Digest, agent: DIDCommAgent, configured: set<string>, e: ConciergeEvent): Supervision
  {
    match e
    case WorkerReport => s
    case ExitCommand => s.(effects := s.effects + [Terminate(UserInt)])
    case StartModel(name, _) =>
      if name in configured then
        Supervision(s.owner, s.registry[name := s.spawned], s.spawned + 1, s.effects + [SpawnWorker(name, s.spawned)])
      else s
    case Direct(m, metaHash) =>
      var d := Directed(s.owner, digest, agent, m, metaHash);
      s.(owner := d.owner, effects := s.effects + d.effects)
    case Interrupt(_) => s
  }

  lemma ServedStep(o: Owner, digest: Digest, agent: DIDCommAgent, configured: set<string>, events: seq<ConciergeEvent>, k: nat)
    requires k < |events|
    ensures Served(o, digest, agent, configured, events[..k + 1]) ==
      ServeStep(Served(o, digest, agent, configured, events[..k]), digest, agent, configured, events[k])
  {
    assert events[..k + 1][..k] == events[..k];
  }

  /** The names of the models `events` asks to start. */
  function StartedNames(events: seq<ConciergeEvent>): set<string>
  {
    if events == [] then {}
    else
      var last := events[|events| - 1];
      StartedNames(events[..|events| - 1]) + (if last.StartModel? then {last.modelName} else {})
  }

  /** Worker channels are handed out in increasing order. */
  predicate SpawnsIncrease(effects: seq<Effect>)
  {
    forall i, j :: 0 <= i < j < |effects| && effects[i].SpawnWorker? && effects[j].SpawnWorker? ==>
      effects[i].channel < effects[j].channel
  }

  /**
   * The registry holds exactly the configured models that were asked to
   * start, each with the channel of its newest worker: a spawn for it is
   * among the effects, no spawn for it has a later channel, and channels
   * increase along the effects. Nothing in the loop exits a worker or saves.
   */
  lemma ServedRegistry(o: Owner, digest: Digest, agent: DIDCommAgent, configured: set<string>, events: seq<ConciergeEvent>)
    ensures var s := Served(o, digest, agent, configured, events);
      s.registry.Keys == StartedNames(events) * configured && RegistryFacts(s)
  {
    ServedKeys(o, digest, agent, configured, events);
    ServedFacts(o, digest, agent, configured, events);
  }

  /** The registry's names are the configured models asked to start. */
  lemma {:induction false} ServedKeys(o: Owner, digest: Digest, agent: DIDCommAgent, configured: set<string>, events: seq<ConciergeEvent>)
    ensures Served(o, digest, agent, configured, events).registry.Keys == StartedNames(events) * configured
  {
    if events != [] {
      var init := events[..|events| - 1];
      var e := events[|events| - 1];
      ServedKeys(o, digest, agent, configured, init);
      var s := Served(o, digest, agent, configured, init);
      var t := Served(o, digest, agent, configured, events);
      assert t == ServeStep(s, digest, agent, configured, e);
      assert StartedNames(events) == StartedNames(init) + (if e.StartModel? then {e.modelName} else {});
      if e.StartModel? && e.modelName in configured {
        assert t.registry == s.registry[e.modelName := s.spawned];
      } else {
        assert t.registry == s.registry;
      }
    }
  }

  /** The registry facts hold of every state of the fold. */
  lemma {:induction false} ServedFacts(o: Owner, digest: Digest, agent: DIDCommAgent, configured: set<string>, events: seq<ConciergeEvent>)
    ensures RegistryFacts(Served(o, digest, agent, configured, events))
  {
    if events != [] {
      var init := events[..|events| - 1];
      var e := events[|events| - 1];
      ServedFacts(o, digest, agent, configured, init);
      var s := Served(o, digest, agent, configured, init);
      var t := Served(o, digest, agent, configured, events);
      assert t == ServeStep(s, digest, agent, configured, e);
      match e
      case WorkerReport =>
      case ExitCommand =>
        QuietAppend(s, [Terminate(UserInt)]);
      case StartModel(name, _) =>
        if name in configured {
          SpawnAppend(s, name);
        } else {
          assert t == s;
        }
      case Direct(m, metaHash) =>
        var d := Directed(s.owner, digest, agent, m, metaHash);
        DirectedQuiet(s.owner, digest, agent, m, metaHash);
        QuietAppend(s, d.effects);
        assert t == s.(owner := d.owner, effects := s.effects + d.effects);
      case Interrupt(_) =>
    }
  }

  /** The registry facts of `ServedRegistry` for one state. */
  predicate RegistryFacts(s: Supervision)
  {
    && (forall n :: n in s.registry ==> SpawnWorker(n, s.registry[n]) in s.effects)
    && (forall e :: e in s.effects && e.SpawnWorker? ==>
          e.channel < s.spawned && e.model in s.registry && e.channel <= s.registry[e.model])
    && SpawnsIncrease(s.effects)
    && (forall e :: e in s.effects ==> !e.SendExit? && !e.SaveConfig?)
  }

  /** Effects without spawns, exits or saves keep the registry facts. */
  lemma QuietAppend(s: Supervision, more: seq<Effect>)
    requires RegistryFacts(s)
    requires forall e :: e in more ==> !e.SpawnWorker? && !e.SendExit? && !e.SaveConfig?
    ensures RegistryFacts(s.(effects := s.effects + more))
  {
  }

  /** Spawning a worker for `name` on the next channel keeps the registry facts. */
  lemma SpawnAppend(s: Supervision, name: string)
    requires RegistryFacts(s)
    ensures RegistryFacts(Supervision(s.owner, s.registry[name := s.spawned], s.spawned + 1, s.effects + [SpawnWorker(name, s.spawned)]))
  {
    var t := s.effects + [SpawnWorker(name, s.spawned)];
    forall i, j | 0 <= i < j < |t| && t[i].SpawnWorker? && t[j].SpawnWorker?
      ensures t[i].channel < t[j].channel
    {
      if j == |s.effects| {
        assert t[i] in s.effects;
      }
    }
  }

  /**
   * The loop consumed `Consumed(outcome, processed)` events, and the
   * registry, the concierge state and the `log` are those of the fold over
   * them; after a stop the log goes on with the clean-up.
   */
  ghost predicate LoopLogged(o: Owner, digest: Digest, agent: DIDCommAgent, configured: set<string>, events: seq<ConciergeEvent>,
                             outcome: ConciergeOutcome, processed: nat, registry: map<string, nat>, owner: Owner, log: seq<Effect>)
  {
    && Consumed(outcome, processed) <= |events|
    && var s := Served(o, digest, agent, configured, events[..Consumed(outcome, processed)]);
    && registry == s.registry && owner == s.owner
    && (ShutDown(outcome) ==> |log| >= |registry| + 1 && log[..|log| - 1 - |registry|] == s.effects)
    && (!ShutDown(outcome) ==> log == s.effects)
  }

  /** How many events a loop that ended with `outcome` consumed: the stopping or crashing one included. */
  function Consumed(outcome: ConciergeOutcome, processed: nat): nat
  {
    if outcome.Finished? || outcome == Aborted(SaveFailed) || outcome.Crashed? then processed + 1 else processed
  }

  /**
   * The `select!` loop of `Concierge::run`, after start-up. `Finished`
   * here means the loop stopped and clean-up is due; `processed` counts the
   * events consumed before the one that stopped, aborted or crashed it.
   */
  method Serve(shared: SharedState, digest: Digest, agent: DIDCommAgent, events: seq<ConciergeEvent>)
    returns (outcome: ConciergeOutcome, processed: nat, registry: map<string, nat>, effects: seq<Effect>)
    requires shared.Valid()
    modifies shared.concierge
    ensures shared.Valid()
    ensures processed <= |events|
    ensures forall j :: 0 <= j < processed ==> Continues(shared.models.Keys, events[j])
    ensures outcome.Finished? ==>
      processed < |events| && Stops(events[processed]) && outcome.reason == StopReason(events[processed])
    ensures outcome.Waiting? ==> processed == |events|
    ensures outcome.Crashed? ==> processed < |events| && events[processed].Direct? && DirectPanics(events[processed].message)
    ensures outcome.Aborted? ==>
      && outcome.error.ModelProfilesFailed?
      && processed < |events|
      && events[processed] == StartModel(outcome.error.modelName, false)
      && outcome.error.modelName in shared.models
    // The loop's state is the fold of the events it consumed.
    ensures Consumed(outcome, processed) <= |events|
    ensures var s := Served(old(shared.concierge.owner), digest, agent, shared.models.Keys, events[..Consumed(outcome, processed)]);
      registry == s.registry && shared.concierge.owner == s.owner && effects == s.effects
    ensures registry.Keys <= shared.models.Keys
    ensures forall j :: 0 <= j < processed && events[j].StartModel? && events[j].modelName in shared.models ==>
      events[j].modelName in registry
    ensures forall n :: n in registry ==> SpawnWorker(n, registry[n]) in effects
    ensures forall e :: e in effects ==> !e.SendExit? && !e.SaveConfig?
  {
    var spawned;
    outcome, processed, registry, spawned, effects := Select(shared, digest, agent, events);
    LoopFacts(old(shared.concierge.owner), digest, agent, shared.models.Keys, events, processed, Consumed(outcome, processed));
  }

  /**
   * The `select!` loop itself: each event in arrival order through the
   * `ServeStep` of the fold, until a stop, a failed model start or a
   * panicking handshake.
   */
  method Select(shared: SharedState, digest: Digest, agent: DIDCommAgent, events: seq<ConciergeEvent>)
    returns (outcome: ConciergeOutcome, processed: nat, registry: map<string, nat>, spawned: nat, effects: seq<Effect>)
    requires shared.Valid()
    modifies shared.concierge
    ensures shared.Valid()
    ensures processed <= |events|
    ensures forall j :: 0 <= j < processed ==> Continues(shared.models.Keys, events[j])
    ensures outcome.Finished? ==>
      processed < |events| && Stops(events[processed]) && outcome.reason == StopReason(events[processed])
    ensures outcome.Waiting? ==> processed == |events|
    ensures outcome.Crashed? ==> processed < |events| && events[processed].Direct? && DirectPanics(events[processed].message)
    ensures outcome.Aborted? ==>
      && outcome.error.ModelProfilesFailed?
      && processed < |events|
      && events[processed] == StartModel(outcome.error.modelName, false)
      && outcome.error.modelName in shared.models
    ensures Consumed(outcome, processed) <= |events|
    ensures Supervision(shared.concierge.owner, registry, spawned, effects) ==
      Served(old(shared.concierge.owner), digest, agent, shared.models.Keys, events[..Consumed(outcome, processed)])
  {
    ghost var o := shared.concierge.owner;
    ghost var configured := shared.models.Keys;
    effects := [];
    processed := 0;
    registry := map[];
    spawned := 0;
    while processed < |events|
      invariant processed <= |events|
      invariant forall j :: 0 <= j < processed ==> Continues(configured, events[j])
      invariant shared.concierge.owner.ConciergeOwner?
      invariant shared.Valid()
      invariant Supervision(shared.concierge.owner, registry, spawned, effects) ==
        Served(o, digest, agent, configured, events[..processed])
    {
      ServedStep(o, digest, agent, configured, events, processed);
      match events[processed] {
        case WorkerReport =>
        case ExitCommand =>
          effects := effects + [Terminate(UserInt)];
          outcome := Finished(UserInt);
          break;
        case StartModel(name, profilesOk) =>
          if name in shared.models {
            if !profilesOk {
              outcome := Aborted(ModelProfilesFailed(name));
              break;
            }
            effects := effects + [SpawnWorker(name, spawned)];
            registry := registry[name := spawned];
            spawned := spawned + 1;
          }
        case Direct(m, metaHash) =>
          var status, out := HandleDirect(shared.concierge, digest, agent, m, metaHash);
          effects := effects + out;
          if status == Panicked {
            outcome := Crashed;
            break;
          }
        case Interrupt(reason) =>
          outcome := Finished(reason);
          break;
      }
      processed := processed + 1;
    }
    if processed == |events| {
      outcome := Waiting;
    }
  }

  /** What the fold over the consumed events says about the registry and the effects. */
  lemma LoopFacts(o: Owner, digest: Digest, agent: DIDCommAgent, configured: set<string>, events: seq<ConciergeEvent>, processed: nat, consumed: nat)
    requires processed <= consumed <= |events|
    ensures var s := Served(o, digest, agent, configured, events[..consumed]);
      && s.registry.Keys <= configured
      && (forall j :: 0 <= j < processed && events[j].StartModel? && events[j].modelName in configured ==>
            events[j].modelName in s.registry)
      && (forall n :: n in s.registry ==> SpawnWorker(n, s.registry[n]) in s.effects)
      && (forall e :: e in s.effects ==> !e.SendExit? && !e.SaveConfig?)
  {
    ServedRegistry(o, digest, agent, configured, events[..consumed]);
    StartedWithin(events, processed, consumed);
  }

  /** A model asked to start among the first `n` events is asked to start among the first `m >= n`. */
  lemma {:induction false} StartedWithin(events: seq<ConciergeEvent>, n: nat, m: nat)
    requires n <= m <= |events|
    ensures forall j :: 0 <= j < n && events[j].StartModel? ==> events[j].modelName in StartedNames(events[..m])
  {
    if m > 0 {
      if n == m {
        StartedWithin(events, n - 1, m - 1);
      } else {
        StartedWithin(events, n, m - 1);
      }
      assert events[..m][..m - 1] == events[..m - 1];
    }
  }

  /** The clean-up: an exit for every registered worker, then the save of `config`. */
  predicate CleansUp(tail: seq<Effect>, registry: map<string, nat>, config: Config)
  {
    |tail| == |registry| + 1 && ExitsEach(tail[..|registry|], registry) && tail[|registry|] == SaveConfig(config)
  }

  /** `effects` ends with the clean-up for `registry` and `config`. */
  predicate EndsWithCleanUp(effects: seq<Effect>, registry: map<string, nat>, config: Config)
  {
    |effects| >= |registry| + 1 && CleansUp(effects[|effects| - 1 - |registry| ..], registry, config)
  }

  /** The two halves of an appended log. */
  lemma SplitAt(a: seq<Effect>, b: seq<Effect>)
    ensures (a + b)[..|a|] == a && (a + b)[|a|..] == b
    ensures forall e :: e in a ==> e in a + b
  {
  }

  /**
   * The start-up effects `pre` logged before the loop's and clean-up's
   * `rest` stay in front of them, and what `rest` says about the workers,
   * the exits and the clean-up still holds of the whole log.
   */
  lemma Prepended(pre: seq<Effect>, rest: seq<Effect>, registry: map<string, nat>, config: Config, shut: bool, quiet: bool)
    requires forall n :: n in registry ==> SpawnWorker(n, registry[n]) in rest
    requires forall e :: e in pre ==> !e.SendExit? && !e.SaveConfig?
    requires quiet ==> forall e :: e in rest ==> !e.SendExit? && !e.SaveConfig?
    requires shut ==> EndsWithCleanUp(rest, registry, config) && |rest| >= |registry| + 1
    ensures var effects := pre + rest;
      && effects[..|pre|] == pre
      && (forall n :: n in registry ==> SpawnWorker(n, registry[n]) in effects)
      && (quiet ==> forall e :: e in effects ==> !e.SendExit? && !e.SaveConfig?)
      && (shut ==>
            && EndsWithCleanUp(effects, registry, config)
            && |effects| >= |registry| + 1
            && effects[..|effects| - 1 - |registry|] == pre + rest[..|rest| - 1 - |registry|])
  {
    assert (pre + rest)[..|pre|] == pre;
    if shut {
      EndsWithCleanUpAfter(pre, rest, registry, config);
      assert (pre + rest)[..|pre + rest| - 1 - |registry|] == pre + rest[..|rest| - 1 - |registry|];
    }
  }

  /** Effects logged before a log that ends with the clean-up leave it at the end. */
  lemma EndsWithCleanUpAfter(pre: seq<Effect>, rest: seq<Effect>, registry: map<string, nat>, config: Config)
    requires EndsWithCleanUp(rest, registry, config)
    ensures EndsWithCleanUp(pre + rest, registry, config)
  {
    assert (pre + rest)[|pre + rest| - 1 - |registry| ..] == rest[|rest| - 1 - |registry| ..];
  }

  /** The clean-up after the loop: exits to the workers, then a snapshot of the state to save. */
  method CleanUp(shared: SharedState, registry: map<string, nat>) returns (tail: seq<Effect>)
    requires shared.Valid()
    ensures CleansUp(tail, registry, Config(shared.ModelValues(), shared.mediatorDid, shared.concierge.owner.concierge))
  {
    var exits := SendExits(registry);
    var config := shared.ToConfig();
    tail := exits + [SaveConfig(config)];
    assert tail[..|registry|] == exits;
  }

  /**
   * The part of `Concierge::run` after a successful start-up: the loop, then,
   * when it stopped, the exits and the save.
   */
  method Supervise(shared: SharedState, digest: Digest, events: seq<ConciergeEvent>, saveOk: bool)
    returns (outcome: ConciergeOutcome, processed: nat, registry: map<string, nat>, effects: seq<Effect>)
    requires shared.Valid()
    modifies shared.concierge
    ensures shared.Valid()
    ensures processed <= |events|
    ensures forall j :: 0 <= j < processed ==> !Stops(events[j])
    ensures registry.Keys <= shared.models.Keys
    ensures forall j :: 0 <= j < processed && events[j].StartModel? && events[j].modelName in shared.models ==>
      events[j].modelName in registry
    ensures forall n :: n in registry ==> SpawnWorker(n, registry[n]) in effects
    ensures outcome.Waiting? ==> processed == |events|
    ensures outcome.Crashed? ==> processed < |events| && events[processed].Direct?
    ensures outcome.Aborted? && outcome.error.ModelProfilesFailed? ==>
      && processed < |events|
      && events[processed] == StartModel(outcome.error.modelName, false)
      && outcome.error.modelName in shared.models
      && forall e :: e in effects ==> !e.SendExit? && !e.SaveConfig?
    ensures ShutDown(outcome) ==>
      && processed < |events| && Stops(events[processed])
      && (outcome.Finished? ==> outcome.reason == StopReason(events[processed]))
      && (outcome == Aborted(SaveFailed) <==> !saveOk)
      && EndsWithCleanUp(effects, registry, Config(shared.ModelValues(), shared.mediatorDid, shared.concierge.owner.concierge))
    ensures outcome.Finished? || outcome.Aborted? || outcome.Crashed? || outcome.Waiting?
    ensures forall j :: 0 <= j < processed ==> Continues(shared.models.Keys, events[j])
    ensures outcome.Crashed? ==> DirectPanics(events[processed].message)
    // The loop's state is the fold of the events it consumed; clean-up follows it.
    ensures Consumed(outcome, processed) <= |events|
    ensures LoopLogged(old(shared.concierge.owner), digest, old(shared.concierge.owner.concierge.agent), shared.models.Keys,
                       events, outcome, processed, registry, shared.concierge.owner, effects)
  {
    var agent := shared.concierge.owner.concierge.agent;
    outcome, processed, registry, effects := Serve(shared, digest, agent, events);
    if outcome.Finished? {
      var tail := CleanUp(shared, registry);
      ghost var served := effects;
      effects := effects + tail;
      SplitAt(served, tail);
      assert EndsWithCleanUp(effects, registry, Config(shared.ModelValues(), shared.mediatorDid, shared.concierge.owner.concierge));
      if !saveOk {
        outcome := Aborted(SaveFailed);
      }
    }
  }

  /**
   * `Concierge::run`: start-up, the loop, then clean-up: every started
   * worker is told to exit and the configuration is saved.
   */
  method Run(shared: SharedState, digest: Digest, startup: ConciergeStartup, events: seq<ConciergeEvent>, saveOk: bool)
    returns (outcome: ConciergeOutcome, processed: nat, registry: map<string, nat>, effects: seq<Effect>, ghost loop: seq<Effect>)
    requires shared.Valid()
    modifies shared.concierge
    ensures shared.Valid()
    ensures processed <= |events|
    ensures StartupError(startup).Some? ==>
      outcome == Aborted(StartupError(startup).value) && processed == 0 && registry == map[]
    ensures StartupError(startup).None? ==> |effects| >= 3 && effects[..3] == [ClearInbound, ClearOutbound, EnableLiveDelivery]
    ensures forall j :: 0 <= j < processed ==> !Stops(events[j])
    ensures registry.Keys <= shared.models.Keys
    ensures forall j :: 0 <= j < processed && events[j].StartModel? && events[j].modelName in shared.models ==>
      events[j].modelName in registry
    ensures forall n :: n in registry ==> SpawnWorker(n, registry[n]) in effects
    ensures outcome.Waiting? ==> processed == |events|
    ensures outcome.Crashed? ==> processed < |events| && events[processed].Direct?
    ensures outcome.Aborted? && outcome.error.ModelProfilesFailed? ==>
      && processed < |events|
      && events[processed] == StartModel(outcome.error.modelName, false)
      && outcome.error.modelName in shared.models
      && forall e :: e in effects ==> !e.SendExit? && !e.SaveConfig?
    ensures ShutDown(outcome) ==>
      && processed < |events| && Stops(events[processed])
      && (outcome.Finished? ==> outcome.reason == StopReason(events[processed]))
      && (outcome == Aborted(SaveFailed) <==> !saveOk)
      && EndsWithCleanUp(effects, registry, Config(shared.ModelValues(), shared.mediatorDid, shared.concierge.owner.concierge))
    ensures StartupError(startup).Some? ==>
      effects == StartupEffects(startup) && shared.concierge.owner == old(shared.concierge.owner)
    ensures forall j :: 0 <= j < processed ==> Continues(shared.models.Keys, events[j])
    ensures outcome.Crashed? ==> DirectPanics(events[processed].message)
    // After start-up, the `loop` log: the fold of the events consumed, then the clean-up.
    ensures StartupError(startup).None? ==>
      && effects == StartupEffects(startup) + loop
      && LoopLogged(old(shared.concierge.owner), digest, old(shared.concierge.owner.concierge.agent), shared.models.Keys,
                    events, outcome, processed, registry, shared.concierge.owner, loop)
  {
    var failure := StartupError(startup);
    var pre := StartupEffects(startup);
    if failure.Some? {
      outcome, processed, registry, effects, loop := Aborted(failure.value), 0, map[], pre, [];
      assert !ShutDown(outcome);
    } else {
      var rest;
      outcome, processed, registry, rest := Supervise(shared, digest, events, saveOk);
      Prepended(pre, rest, registry, Config(shared.ModelValues(), shared.mediatorDid, shared.concierge.owner.concierge),
                ShutDown(outcome), outcome.Aborted? && outcome.error.ModelProfilesFailed?);
      effects, loop := pre + rest, rest;
    }
  }
}
