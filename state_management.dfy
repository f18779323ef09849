/**
 * Conversation state and configuration: the per-remote-party records, the
 * two owners of such records (a model and the concierge), the configuration
 * record, and the shared state built from it.
 */
module StateManagement {
  import opened Wrappers

  /** A TCP port: Rust's `u16`. */
  type Port = p: int | 0 <= p < 0x1_0000

  /** State of one conversation, stored under the hash of the remote DID. */
  datatype ChatChannelState = ChatChannelState(
    remoteDid: string,
    remoteDidHash: string,
    activitySeqNo: nat,
    seqNo: nat)

  /** `ChatChannelState::default()`: empty DIDs and both counters at zero. */
  function DefaultChannelState(): (s: ChatChannelState)
    ensures s.seqNo == 0 && s.activitySeqNo == 0
    ensures s.remoteDid == [] && s.remoteDidHash == []
  {
    ChatChannelState([], [], 0, 0)
  }

  /** A record for a newly seen party: its DID and hash, the rest defaulted. */
  function FreshChannelState(did: string, hash: string): (s: ChatChannelState)
    ensures s == DefaultChannelState().(remoteDid := did, remoteDidHash := hash)
  {
    ChatChannelState(did, hash, 0, 0)
  }

  /** An agent identity through which a model or the concierge talks. */
  datatype DIDCommAgent = DIDCommAgent(did: string, name: string, greeting: string, image: string)

  /** A model served by the Ollama backend, with its identities and conversations. */
  datatype OllamaModel = OllamaModel(
    name: string,
    ollamaHost: string,
    ollamaPort: Port,
    dids: seq<DIDCommAgent>,
    channelState: map<string, ChatChannelState>)

  /** The concierge's own identity and conversations. */
  datatype ConciergeState = ConciergeState(agent: DIDCommAgent, channelState: map<string, ChatChannelState>)

  /** The configuration as it is stored on disk. */
  datatype Config = Config(models: map<string, OllamaModel>, mediatorDid: string, concierge: ConciergeState)

  /**
   * `OllamaModel::new`, given the DID that `create_did` produced for it
   * (`None` when DID creation failed, which the source propagates as an error).
   */
  function NewOllamaModel(host: string, port: Port, modelName: string, createdDid: Option<string>): (r: Option<OllamaModel>)
    ensures r.Some? <==> createdDid.Some?
    ensures r.Some? ==>
      && r.value.name == modelName && r.value.ollamaHost == host && r.value.ollamaPort == port
      && |r.value.dids| == 1
      && r.value.dids[0] == DIDCommAgent(createdDid.value, modelName, "Standard Greeting", "deepseek.png")
      && r.value.channelState == map[]
  {
    match createdDid
    case None => None
    case Some(did) =>
      Some(OllamaModel(modelName, host, port, [DIDCommAgent(did, modelName, "Standard Greeting", "deepseek.png")], map[]))
  }

  /**
   * The implementors of the `ChannelState` trait: a model or the concierge.
   * Both keep their conversations in a map keyed by DID hash; only a model
   * answers `get_model`.
   */
  datatype Owner = ModelOwner(model: OllamaModel) | ConciergeOwner(concierge: ConciergeState)
  {
    function Channels(): map<string, ChatChannelState>
    {
      match this
      case ModelOwner(m) => m.channelState
      case ConciergeOwner(c) => c.channelState
    }

    /** The same owner with its conversation map replaced; nothing else differs. */
    function WithChannels(cs: map<string, ChatChannelState>): (o: Owner)
      ensures o.Channels() == cs
      ensures o.ModelOwner? == ModelOwner?
      ensures ModelOwner? ==> o.model == model.(channelState := cs)
      ensures ConciergeOwner? ==> o.concierge == concierge.(channelState := cs)
    {
      match this
      case ModelOwner(m) => ModelOwner(m.(channelState := cs))
      case ConciergeOwner(c) => ConciergeOwner(c.(channelState := cs))
    }

    /** `get_model`: the model itself for a model, the trait default `None` for the concierge. */
    function GetModel(): (r: Option<OllamaModel>)
      ensures r.Some? <==> ModelOwner?
      ensures r.Some? ==> r.value == model && r.value.channelState == Channels()
    {
      if ModelOwner? then Some(model) else None
    }
  }

  lemma WithChannelsTwice(o: Owner, a: map<string, ChatChannelState>, b: map<string, ChatChannelState>)
    ensures o.WithChannels(a).WithChannels(b) == o.WithChannels(b)
  {
  }

  lemma WithOwnChannels(o: Owner)
    ensures o.WithChannels(o.Channels()) == o
  {
  }

  /** The record for `hash` with its message counter advanced by one. */
  function BumpSeqNo(cs: map<string, ChatChannelState>, hash: string): map<string, ChatChannelState>
    requires hash in cs
  {
    cs[hash := cs[hash].(seqNo := cs[hash].seqNo + 1)]
  }

  /** The record for `hash` with its activity counter advanced by one. */
  function BumpActivitySeqNo(cs: map<string, ChatChannelState>, hash: string): map<string, ChatChannelState>
    requires hash in cs
  {
    cs[hash := cs[hash].(activitySeqNo := cs[hash].activitySeqNo + 1)]
  }

  /**
   * An owner of conversation state behind its lock (`Arc<Mutex<T>>` with
   * `T: ChannelState`). Access is exclusive and sequential.
   */
  class ChannelStateCell {
    var owner: Owner

    constructor (o: Owner)
      ensures owner == o
    {
      owner := o;
    }

    /** `get_channel_state`: the record stored under `hash`, if any; nothing is created. */
    function GetChannelState(hash: string): (r: Option<ChatChannelState>)
      reads this
      ensures r.Some? <==> hash in owner.Channels()
      ensures r.Some? ==> r.value == owner.Channels()[hash]
    {
      if hash in owner.Channels() then Some(owner.Channels()[hash]) else None
    }

    /** `remove_channel_state`: returns the removed record; an absent key changes nothing. */
    method RemoveChannelState(hash: string) returns (prev: Option<ChatChannelState>)
      modifies this
      ensures prev == old(GetChannelState(hash))
      ensures owner == old(owner.WithChannels(owner.Channels() - {hash}))
      ensures hash !in owner.Channels()
      ensures prev.None? ==> owner == old(owner)
    {
      prev := GetChannelState(hash);
      if prev.None? {
        assert owner.Channels() - {hash} == owner.Channels();
        WithOwnChannels(owner);
      }
      owner := owner.WithChannels(owner.Channels() - {hash});
    }

    /** `insert_channel_state`: returns the record previously stored under `hash`, if any. */
    method InsertChannelState(hash: string, state: ChatChannelState) returns (prev: Option<ChatChannelState>)
      modifies this
      ensures prev == old(GetChannelState(hash))
      ensures owner == old(owner.WithChannels(owner.Channels()[hash := state]))
      ensures GetChannelState(hash) == Some(state)
      ensures forall h :: h != hash ==> GetChannelState(h) == old(GetChannelState(h))
    {
      prev := GetChannelState(hash);
      owner := owner.WithChannels(owner.Channels()[hash := state]);
    }

    /**
     * The counter step of `send_message`: read `seq_no` of the record for
     * `hash` and advance it by one. `None` is the `unwrap` on a missing record.
     */
    method NextSeqNo(hash: string) returns (seqNo: Option<nat>)
      modifies this
      ensures seqNo.Some? <==> hash in old(owner.Channels())
      ensures seqNo.None? ==> owner == old(owner)
      ensures seqNo.Some? ==>
        && seqNo.value == old(owner.Channels()[hash].seqNo)
        && owner == old(owner.WithChannels(BumpSeqNo(owner.Channels(), hash)))
    {
      var rec := GetChannelState(hash);
      if rec.None? {
        return None;
      }
      seqNo := Some(rec.value.seqNo);
      owner := owner.WithChannels(BumpSeqNo(owner.Channels(), hash));
    }

    /** The counter step of `i_am_thinking`, on `activity_seq_no`. */
    method NextActivitySeqNo(hash: string) returns (activitySeqNo: Option<nat>)
      modifies this
      ensures activitySeqNo.Some? <==> hash in old(owner.Channels())
      ensures activitySeqNo.None? ==> owner == old(owner)
      ensures activitySeqNo.Some? ==>
        && activitySeqNo.value == old(owner.Channels()[hash].activitySeqNo)
        && owner == old(owner.WithChannels(BumpActivitySeqNo(owner.Channels(), hash)))
    {
      var rec := GetChannelState(hash);
      if rec.None? {
        return None;
      }
      activitySeqNo := Some(rec.value.activitySeqNo);
      owner := owner.WithChannels(BumpActivitySeqNo(owner.Channels(), hash));
    }
  }

  /**
   * The state shared by the concierge and the setup code: every configured
   * model behind its own lock, the mediator DID and the concierge's state.
   */
  class SharedState {
    var models: map<string, ChannelStateCell>
    const mediatorDid: string
    const concierge: ChannelStateCell

    ghost predicate Valid()
      reads this, models.Values, concierge
    {
      && concierge.owner.ConciergeOwner?
      && forall n :: n in models ==> models[n].owner.ModelOwner?
    }

    /** The model values behind the locks. */
    ghost function ModelValues(): (m: map<string, OllamaModel>)
      reads this, models.Values
      requires forall n :: n in models ==> models[n].owner.ModelOwner?
      ensures m.Keys == models.Keys
    {
      map n | n in models :: models[n].owner.model
    }

    constructor (mediator: string, conciergeCell: ChannelStateCell)
      ensures models == map[] && mediatorDid == mediator && concierge == conciergeCell
    {
      models := map[];
      mediatorDid := mediator;
      concierge := conciergeCell;
    }

    /** `Config::from_config`: every model behind a fresh lock; names, values, mediator and concierge kept. */
    static method FromConfig(c: Config) returns (s: SharedState)
      ensures fresh(s) && fresh(s.concierge) && s.Valid()
      ensures s.models.Keys == c.models.Keys
      ensures s.ModelValues() == c.models
      ensures s.mediatorDid == c.mediatorDid
      ensures s.concierge.owner == ConciergeOwner(c.concierge)
      ensures forall n :: n in s.models ==> fresh(s.models[n]) && s.models[n] != s.concierge
      ensures forall a, b :: a in s.models && b in s.models && a != b ==> s.models[a] != s.models[b]
    {
      var cell := new ChannelStateCell(ConciergeOwner(c.concierge));
      s := new SharedState(c.mediatorDid, cell);
      var remaining := c.models.Keys;
      while remaining != {}
        invariant remaining <= c.models.Keys
        invariant s.models.Keys == c.models.Keys - remaining
        invariant forall n :: n in s.models ==> s.models[n].owner == ModelOwner(c.models[n])
        invariant fresh(s) && s.concierge == cell && fresh(cell) && cell.owner == ConciergeOwner(c.concierge)
        invariant forall n :: n in s.models ==> fresh(s.models[n]) && s.models[n] != cell
        invariant forall a, b :: a in s.models && b in s.models && a != b ==> s.models[a] != s.models[b]
        decreases remaining
      {
        var name :| name in remaining;
        var m := new ChannelStateCell(ModelOwner(c.models[name]));
        s.models := s.models[name := m];
        remaining := remaining - {name};
      }
    }

    /** `SharedState::to_config`: a snapshot of every model, the mediator and the concierge. */
    method ToConfig() returns (c: Config)
      requires Valid()
      ensures c == Config(ModelValues(), mediatorDid, concierge.owner.concierge)
    {
      var newModels: map<string, OllamaModel> := map[];
      var remaining := models.Keys;
      while remaining != {}
        invariant remaining <= models.Keys
        invariant newModels.Keys == models.Keys - remaining
        invariant forall n :: n in newModels ==> newModels[n] == models[n].owner.model
        decreases remaining
      {
        var name :| name in remaining;
        newModels := newModels[name := models[name].owner.model];
        remaining := remaining - {name};
      }
      c := Config(newModels, mediatorDid, concierge.owner.concierge);
    }

    /** `add_model`: inserts or overwrites the entry for `name`, behind a fresh lock. */
    method AddModel(name: string, model: OllamaModel)
      requires Valid()
      modifies this
      ensures Valid()
      ensures ModelValues() == old(ModelValues())[name := model]
      ensures fresh(models[name])
      ensures forall n :: n in models && n != name ==> models[n] == old(models[n])
    {
      var cell := new ChannelStateCell(ModelOwner(model));
      models := models[name := cell];
    }

    /** `remove_model`: deletes the entry for `name` when present, a no-op otherwise. */
    method RemoveModel(name: string)
      requires Valid()
      modifies this
      ensures Valid()
      ensures ModelValues() == old(ModelValues()) - {name}
      ensures name !in old(models) ==> models == old(models)
      ensures forall n :: n in models ==> models[n] == old(models[n])
    {
      if name in models {
        models := models - {name};
      }
    }
  }

  /** `from_config` followed by `to_config` gives back the configuration it started from. */
  method ConfigRoundTrip(c: Config) returns (c': Config)
    ensures c' == c
  {
    var s := SharedState.FromConfig(c);
    c' := s.ToConfig();
  }
}
