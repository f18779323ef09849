/**
 * Handling of inbound messages by a model: classification of the type URI
 * and body, the command and effect tables, the counter stamping of outbound
 * chat and activity messages, and the connection handshake.
 */
module ChatMessages {
  import opened Wrappers
  import opened Strings
  import opened StateManagement
  import opened Effects
  import opened Chunker

  const CONNECTION_SETUP := "https://affinidi.com/atm/client-actions/connection-setup"
  const CHAT_PRESENCE := "https://affinidi.com/atm/client-actions/chat-presence"
  const CHAT_EFFECT := "https://affinidi.com/atm/client-actions/chat-effect"
  const CHAT_MESSAGE := "https://affinidi.com/atm/client-actions/chat-message"
  const CHAT_DELIVERED := "https://affinidi.com/atm/client-actions/chat-delivered"
  const CHAT_ACTIVITY := "https://affinidi.com/atm/client-actions/chat-activity"
  const PICKUP_STATUS := "https://didcomm.org/messagepickup/3.0/status"

  const ATTACHMENTS_REPLY := "Unfortunately I can't handle attachments yet.. Hopefully one day I will be able to!"
  /** The `/help` reply, with the source's indentation inside the text. */
  const HELP_TEXT := "Help:" +
    "\n          /help - Display this help message" +
    "\n          /think - Status of the think tokens being displayed" +
    "\n          /think on|off - Turn think tokens on or off" +
    "\n          /dids - Display the DID's for this chat" +
    "\n        "
  const DIDS_HEADER := "DIDs:\nAgent: "
  const UNKNOWN_COMMAND := "ERROR: unknown command: "
  const UNKNOWN_COMMAND_HINT := "\nUse /help to show commands"
  const BALLOON_PROMPT := "I give you a balloon"
  const CONFETTI_PROMPT := "Let's celebrate"
  const FALLBACK_PROMPT := "I don't know what to do with this"

  /** The messaging SDK's reading of a type URI: the pickup status reply, another type it knows, or any other URI. */
  datatype MessageType = MessagePickupStatusResponse | SdkKnown(name: string) | Other(uri: string)

  /**
   * The parts of a JSON body the handlers read: `text` of a chat message,
   * `effect` of a chat effect, `channel_did` of a connection setup, and
   * whether the body is a well-formed pickup status reply.
   */
  datatype Body = Body(text: Option<string>, effect: Option<string>, channelDid: Option<string>, pickupStatus: bool)

  /**
   * An inbound message after decryption. `sdkType` is the SDK's parse of
   * `typeUri` (`None` when it fails); `threaded` says that both thread ids
   * (`thid`, `pthid`) are present.
   */
  datatype Message = Message(
    id: string,
    typeUri: string,
    sdkType: Option<MessageType>,
    from: Option<string>,
    body: Body,
    hasAttachments: bool,
    threaded: bool)

  /** The hash under which a DID's conversation is stored (SHA-256 in the source; nothing about it is assumed). */
  type Digest = string -> string

  /** What the generation backend does with one prompt. */
  datatype Generation = BackendUnavailable | Streamed(events: seq<StreamEvent>, end: StreamEnd)

  datatype HandlerError = UnknownMessageType | NoFrom | MalformedBody

  /** How a handler ended: normally, with an error result, or by panicking on an `unwrap`. */
  datatype Status = Done | Failed(error: HandlerError) | Panicked

  /** Where `handle_message` sends a message. */
  datatype Route =
    | Unparseable
    | Anonymous
    | PickupStatus
    | PickupStatusMalformed
    | ConnectionSetup(from: string)
    | PresenceRoute(from: string)
    | EffectRoute(from: string, prompt: string)
    | EffectMalformed
    | ChatMalformed(from: string)
    | AttachmentRejected(from: string)
    | CommandRoute(from: string, text: string)
    | PromptRoute(from: string, text: string)
    | Ignored

  /** A chat message with a sender, a text body and no attachments. */
  predicate IsPlainChat(m: Message)
  {
    && m.sdkType == Some(Other(CHAT_MESSAGE))
    && m.from.Some?
    && m.body.text.Some?
    && !m.hasAttachments
  }

  /** The prompt a chat effect stands for. */
  function EffectPrompt(effect: string): (r: string)
    ensures r == BALLOON_PROMPT <==> effect == "balloons"
    ensures r == CONFETTI_PROMPT <==> effect == "confetti"
    ensures r == FALLBACK_PROMPT <==> effect != "balloons" && effect != "confetti"
  {
    if effect == "balloons" then BALLOON_PROMPT
    else if effect == "confetti" then CONFETTI_PROMPT
    else FALLBACK_PROMPT
  }

  /** The reply of the command table to `text`, sent by `agentDid` to `remoteDid`. */
  function CommandReply(text: string, agentDid: string, remoteDid: string): (r: string)
    ensures r == HELP_TEXT <==> LowerAscii(text) == "/help"
    ensures LowerAscii(text) == "/dids" <==> StartsWith(r, DIDS_HEADER)
    ensures LowerAscii(text) == "/dids" ==> r == DIDS_HEADER + agentDid + "\nClient: " + remoteDid
    ensures LowerAscii(text) != "/help" && LowerAscii(text) != "/dids" <==>
      r == UNKNOWN_COMMAND + text + UNKNOWN_COMMAND_HINT
  {
    if LowerAscii(text) == "/help" then
      assert HELP_TEXT[0] == 'H' && DIDS_HEADER[0] == 'D';
      HELP_TEXT
    else if LowerAscii(text) == "/dids" then
      var r := DIDS_HEADER + agentDid + "\nClient: " + remoteDid;
      assert r[0] == 'D' && HELP_TEXT[0] == 'H';
      assert (UNKNOWN_COMMAND + text + UNKNOWN_COMMAND_HINT)[0] == 'E';
      r
    else
      var r := UNKNOWN_COMMAND + text + UNKNOWN_COMMAND_HINT;
      assert r[0] == 'E' && HELP_TEXT[0] == 'H' && DIDS_HEADER[0] == 'D';
      r
  }

  /** The type-URI and body match of `handle_message`. */
  function Classify(m: Message): (r: Route)
    ensures r == Unparseable <==> m.sdkType.None?
    ensures r == Anonymous <==> m.sdkType.Some? && m.from.None?
    ensures r.CommandRoute? <==> IsPlainChat(m) && StartsWith(m.body.text.value, "/")
    ensures r.PromptRoute? <==> IsPlainChat(m) && !StartsWith(m.body.text.value, "/")
    ensures r.CommandRoute? || r.PromptRoute? ==> r.from == m.from.value && r.text == m.body.text.value
    ensures r.AttachmentRejected? <==>
      m.sdkType == Some(Other(CHAT_MESSAGE)) && m.from.Some? && m.body.text.Some? && m.hasAttachments
    ensures r.EffectRoute? <==> m.sdkType == Some(Other(CHAT_EFFECT)) && m.from.Some? && m.body.effect.Some?
    ensures r.EffectRoute? ==> r.prompt == EffectPrompt(m.body.effect.value)
    ensures r == EffectMalformed <==> m.sdkType == Some(Other(CHAT_EFFECT)) && m.from.Some? && m.body.effect.None?
    ensures r.ChatMalformed? <==> m.sdkType == Some(Other(CHAT_MESSAGE)) && m.from.Some? && m.body.text.None?
    ensures r.ConnectionSetup? <==> m.sdkType == Some(Other(CONNECTION_SETUP)) && m.from.Some?
    ensures r.PresenceRoute? <==> m.sdkType == Some(Other(CHAT_PRESENCE)) && m.from.Some?
    ensures r == PickupStatus <==>
      m.sdkType == Some(MessagePickupStatusResponse) && m.from.Some? && m.body.pickupStatus
    ensures r == PickupStatusMalformed <==>
      m.sdkType == Some(MessagePickupStatusResponse) && m.from.Some? && !m.body.pickupStatus
    ensures r == Ignored <==>
      && m.sdkType.Some? && m.from.Some?
      && (|| m.sdkType.value.SdkKnown?
          || (m.sdkType.value.Other? && m.sdkType.value.uri !in [CONNECTION_SETUP, CHAT_PRESENCE, CHAT_EFFECT, CHAT_MESSAGE]))
    ensures (r.ConnectionSetup? || r.PresenceRoute? || r.EffectRoute? || r.ChatMalformed? ||
             r.AttachmentRejected? || r.CommandRoute? || r.PromptRoute?) ==> m.from == Some(r.from)
  {
    if m.sdkType.None? then Unparseable
    else if m.from.None? then Anonymous
    else
      var from := m.from.value;
      match m.sdkType.value
      case MessagePickupStatusResponse =>
        if m.body.pickupStatus then PickupStatus else PickupStatusMalformed
      case SdkKnown(_) => Ignored
      case Other(t) =>
        if t == CONNECTION_SETUP then ConnectionSetup(from)
        else if t == CHAT_PRESENCE then PresenceRoute(from)
        else if t == CHAT_EFFECT then
          (if m.body.effect.Some? then EffectRoute(from, EffectPrompt(m.body.effect.value)) else EffectMalformed)
        else if t == CHAT_MESSAGE then
          (if m.body.text.None? then ChatMalformed(from)
           else if m.hasAttachments then AttachmentRejected(from)
           else if StartsWith(m.body.text.value, "/") then CommandRoute(from, m.body.text.value)
           else PromptRoute(from, m.body.text.value))
        else Ignored
  }

  /** The first identity in `dids` with DID `did` (`iter().find`). */
  function FindAgent(dids: seq<DIDCommAgent>, did: string): (r: Option<DIDCommAgent>)
    ensures r.None? <==> forall i :: 0 <= i < |dids| ==> dids[i].did != did
    ensures r.Some? ==> r.value.did == did
    ensures r.Some? ==>
      exists i :: 0 <= i < |dids| && dids[i] == r.value && (forall j :: 0 <= j < i ==> dids[j].did != did)
  {
    if dids == [] then None
    else if dids[0].did == did then Some(dids[0])
    else
      var r := FindAgent(dids[1..], did);
      assert forall i :: 0 < i < |dids| ==> dids[i] == dids[1..][i - 1];
      r
  }

  /**
   * The DID `send_connection_response` returns: the body's `channel_did`.
   * `None` stands for its `unwrap` panicking on a missing `channel_did` or
   * missing thread ids.
   */
  function ConnectionResponseDid(m: Message): (r: Option<string>)
    ensures r.Some? <==> m.body.channelDid.Some? && m.threaded
    ensures r.Some? ==> r.value == m.body.channelDid.value
  {
    if m.body.channelDid.Some? && m.threaded then m.body.channelDid else None
  }

  /** `send_message` to `to`: stamps the record's `seq_no` and advances it; `None` is the `unwrap` on a missing record. */
  method SendMessage(cell: ChannelStateCell, digest: Digest, text: string, to: string) returns (sent: Option<Effect>)
    modifies cell
    ensures sent.Some? <==> digest(to) in old(cell.owner.Channels())
    ensures sent.None? ==> cell.owner == old(cell.owner)
    ensures sent.Some? ==>
      && sent.value == Chat(to, text, old(cell.owner.Channels()[digest(to)].seqNo))
      && cell.owner == old(cell.owner.WithChannels(BumpSeqNo(cell.owner.Channels(), digest(to))))
  {
    var seqNo := cell.NextSeqNo(digest(to));
    if seqNo.None? {
      return None;
    }
    sent := Some(Chat(to, text, seqNo.value));
  }

  /** `i_am_thinking` to `to`: stamps the record's `activity_seq_no` and advances it. */
  method IAmThinking(cell: ChannelStateCell, digest: Digest, to: string) returns (sent: Option<Effect>)
    modifies cell
    ensures sent.Some? <==> digest(to) in old(cell.owner.Channels())
    ensures sent.None? ==> cell.owner == old(cell.owner)
    ensures sent.Some? ==>
      && sent.value == Activity(to, old(cell.owner.Channels()[digest(to)].activitySeqNo))
      && cell.owner == old(cell.owner.WithChannels(BumpActivitySeqNo(cell.owner.Channels(), digest(to))))
  {
    var activitySeqNo := cell.NextActivitySeqNo(digest(to));
    if activitySeqNo.None? {
      return None;
    }
    sent := Some(Activity(to, activitySeqNo.value));
  }

  // ---- Stamping a list of signals with a conversation's counters ----

  datatype Stamped = Stamped(effects: seq<Effect>, record: ChatChannelState)

  /** The effects of sending `sigs` to `to` in order, starting from record `rec`, and the record afterwards. */
  function Stamp(to: string, rec: ChatChannelState, sigs: seq<Signal>): Stamped
  {
    if sigs == [] then Stamped([], rec)
    else
      var p := Stamp(to, rec, sigs[..|sigs| - 1]);
      match sigs[|sigs| - 1]
      case Typing =>
        Stamped(p.effects + [Activity(to, p.record.activitySeqNo)],
                p.record.(activitySeqNo := p.record.activitySeqNo + 1))
      case Presence =>
        Stamped(p.effects + [PresenceReply(to)], p.record)
      case Say(t) =>
        Stamped(p.effects + [Chat(to, t, p.record.seqNo)], p.record.(seqNo := p.record.seqNo + 1))
  }

  /** Sending `a` and then `b` is sending `a + b`. */
  lemma {:induction false} StampAppend(to: string, rec: ChatChannelState, a: seq<Signal>, b: seq<Signal>)
    ensures var sa := Stamp(to, rec, a); var sb := Stamp(to, sa.record, b);
      Stamp(to, rec, a + b) == Stamped(sa.effects + sb.effects, sb.record)
  {
    if b == [] {
      assert a + b == a;
    } else {
      var init := b[..|b| - 1];
      StampAppend(to, rec, a, init);
      assert (a + b)[..|a + b| - 1] == a + init;
      assert (a + b)[|a + b| - 1] == b[|b| - 1];
    }
  }

  /** A chat, activity or presence message to `to`: what stamping produces. */
  predicate SentTo(e: Effect, to: string)
  {
    (e.Chat? || e.Activity? || e.PresenceReply?) && e.to == to
  }

  /** The sequence numbers of the chat messages among `effects`, in order. */
  function ChatSeqNos(effects: seq<Effect>): seq<nat>
  {
    if effects == [] then []
    else
      var last := effects[|effects| - 1];
      ChatSeqNos(effects[..|effects| - 1]) + (if last.Chat? then [last.seqNo] else [])
  }

  /** The texts of the chat messages among `effects`, in order. */
  function ChatTexts(effects: seq<Effect>): seq<string>
  {
    if effects == [] then []
    else
      var last := effects[|effects| - 1];
      ChatTexts(effects[..|effects| - 1]) + (if last.Chat? then [last.text] else [])
  }

  /**
   * N chat messages sent to one party carry the consecutive sequence
   * numbers starting at the record's counter, in send order, with the
   * intended texts; the counter ends N higher and the record keeps its DID.
   */
  lemma StampNumbersChats(to: string, rec: ChatChannelState, sigs: seq<Signal>)
    ensures var st := Stamp(to, rec, sigs);
      && ChatTexts(st.effects) == SayTexts(sigs)
      && |ChatSeqNos(st.effects)| == |SayTexts(sigs)|
      && (forall k :: 0 <= k < |SayTexts(sigs)| ==> ChatSeqNos(st.effects)[k] == rec.seqNo + k)
      && st.record.seqNo == rec.seqNo + |SayTexts(sigs)|
      && st.record.remoteDid == rec.remoteDid && st.record.remoteDidHash == rec.remoteDidHash
      && forall e :: e in st.effects ==> SentTo(e, to)
  {
    StampTexts(to, rec, sigs);
    StampSeqNos(to, rec, sigs);
  }

  /** The texts half: the chats carry the intended texts, all to `to`, and the record keeps its DID. */
  lemma {:induction false} StampTexts(to: string, rec: ChatChannelState, sigs: seq<Signal>)
    ensures var st := Stamp(to, rec, sigs);
      && ChatTexts(st.effects) == SayTexts(sigs)
      && st.record.remoteDid == rec.remoteDid && st.record.remoteDidHash == rec.remoteDidHash
      && forall e :: e in st.effects ==> SentTo(e, to)
  {
    if sigs != [] {
      var init := sigs[..|sigs| - 1];
      var s := sigs[|sigs| - 1];
      StampTexts(to, rec, init);
      SayTextsAppend(init, [s]);
      assert init + [s] == sigs;
      var p := Stamp(to, rec, init);
      var st := Stamp(to, rec, sigs);
      assert st.effects[..|st.effects| - 1] == p.effects;
      var last := st.effects[|st.effects| - 1];
      assert st.effects == p.effects + [last];
      assert SentTo(last, to);
      if s.Say? {
        assert SayTexts([s]) == [s.text];
        assert ChatTexts(st.effects) == ChatTexts(p.effects) + [s.text];
      } else {
        assert SayTexts([s]) == [];
        assert ChatTexts(st.effects) == ChatTexts(p.effects);
      }
    }
  }

  /** The numbers half: consecutive sequence numbers from the record's counter, which ends past them. */
  lemma {:induction false} StampSeqNos(to: string, rec: ChatChannelState, sigs: seq<Signal>)
    ensures var st := Stamp(to, rec, sigs);
      && |ChatSeqNos(st.effects)| == |SayTexts(sigs)|
      && (forall k :: 0 <= k < |SayTexts(sigs)| ==> ChatSeqNos(st.effects)[k] == rec.seqNo + k)
      && st.record.seqNo == rec.seqNo + |SayTexts(sigs)|
  {
    if sigs != [] {
      var init := sigs[..|sigs| - 1];
      var s := sigs[|sigs| - 1];
      StampSeqNos(to, rec, init);
      SayTextsAppend(init, [s]);
      assert init + [s] == sigs;
      var p := Stamp(to, rec, init);
      var st := Stamp(to, rec, sigs);
      assert st.effects[..|st.effects| - 1] == p.effects;
      if s.Say? {
        assert SayTexts([s]) == [s.text];
        assert ChatSeqNos(st.effects) == ChatSeqNos(p.effects) + [p.record.seqNo];
        assert st.record.seqNo == p.record.seqNo + 1;
      } else {
        assert SayTexts([s]) == [];
        assert ChatSeqNos(st.effects) == ChatSeqNos(p.effects);
        assert st.record.seqNo == p.record.seqNo;
      }
    }
  }

  /** One signal sent to `to`, whose record exists. */
  method DeliverOne(cell: ChannelStateCell, digest: Digest, to: string, signal: Signal) returns (e: Effect)
    requires digest(to) in cell.owner.Channels()
    modifies cell
    ensures var st := Stamp(to, old(cell.owner.Channels()[digest(to)]), [signal]);
      && [e] == st.effects
      && cell.owner == old(cell.owner.WithChannels(cell.owner.Channels()[digest(to) := st.record]))
  {
    assert [signal][..0] == [];
    match signal {
      case Typing =>
        var sent := IAmThinking(cell, digest, to);
        e := sent.value;
      case Presence =>
        e := PresenceReply(to);
        assert cell.owner.Channels()[digest(to) := cell.owner.Channels()[digest(to)]] == cell.owner.Channels();
      case Say(t) =>
        var sent := SendMessage(cell, digest, t, to);
        e := sent.value;
    }
  }

  /**
   * The sends of the chunker's loop and final flush, through the record of
   * `to`, which the opening typing signal has shown to exist.
   */
  method Deliver(cell: ChannelStateCell, digest: Digest, to: string, signals: seq<Signal>) returns (effects: seq<Effect>)
    requires digest(to) in cell.owner.Channels()
    modifies cell
    ensures var st := Stamp(to, old(cell.owner.Channels()[digest(to)]), signals);
      && effects == st.effects
      && cell.owner == old(cell.owner.WithChannels(cell.owner.Channels()[digest(to) := st.record]))
  {
    var h := digest(to);
    ghost var o0 := cell.owner;
    ghost var c0 := cell.owner.Channels();
    ghost var rec0 := c0[h];
    effects := [];
    var k := 0;
    while k < |signals|
      invariant 0 <= k <= |signals|
      invariant effects == Stamp(to, rec0, signals[..k]).effects
      invariant cell.owner == o0.WithChannels(c0[h := Stamp(to, rec0, signals[..k]).record])
    {
      ghost var done := Stamp(to, rec0, signals[..k]);
      var e := DeliverOne(cell, digest, to, signals[k]);
      effects := effects + [e];
      StampAppend(to, rec0, signals[..k], [signals[k]]);
      assert signals[..k + 1] == signals[..k] + [signals[k]];
      WithChannelsTwice(o0, c0[h := done.record], cell.owner.Channels());
      k := k + 1;
    }
    assert signals[..|signals|] == signals;
  }

  /**
   * `handle_prompt`: asks the backend for a completion of `prompt`, sends
   * the opening typing signal, runs the chunker over the stream and sends
   * what it produced. The `unwrap`s on the model, the backend and the record
   * of `to` panic.
   */
  method HandlePrompt(cell: ChannelStateCell, digest: Digest, prompt: string, to: string, gen: Generation)
    returns (status: Status, effects: seq<Effect>)
    modifies cell
    ensures status == Done || status == Panicked
    ensures status == Done <==>
      old(cell.owner).ModelOwner? && gen.Streamed? && digest(to) in old(cell.owner.Channels())
    ensures status == Panicked ==> cell.owner == old(cell.owner)
    ensures old(cell.owner).ModelOwner? ==>
      |effects| >= 1 && effects[0] == GenerateRequest(old(cell.owner).model.name, prompt)
    ensures forall k :: 1 <= k < |effects| ==> SentTo(effects[k], to)
    ensures old(cell.owner).ConciergeOwner? ==> effects == []
    ensures status == Done ==>
      var st := Stamp(to, old(cell.owner.Channels()[digest(to)]), [Typing] + PromptSignals(gen.events, gen.end));
      && effects == [GenerateRequest(old(cell.owner).model.name, prompt)] + st.effects
      && cell.owner == old(cell.owner.WithChannels(cell.owner.Channels()[digest(to) := st.record]))
    ensures Handling(status, effects, cell.owner) == PromptHandling(old(cell.owner), digest, prompt, to, gen)
  {
    var model := cell.owner.GetModel();
    if model.None? {
      return Panicked, [];
    }
    effects := [GenerateRequest(model.value.name, prompt)];
    if gen.BackendUnavailable? {
      return Panicked, effects;
    }
    var reply;
    status, reply := ThinkThenStream(cell, digest, to, gen);
    effects := effects + reply;
  }

  /**
   * `handle_prompt` once the backend streams: the typing signal, then the
   * chunker's signals, all stamped in order through the party's record.
   * The typing signal panics when the party has no record.
   */
  method ThinkThenStream(cell: ChannelStateCell, digest: Digest, to: string, gen: Generation)
    returns (status: Status, effects: seq<Effect>)
    requires gen.Streamed?
    modifies cell
    ensures status == Done || status == Panicked
    ensures status == Done <==> digest(to) in old(cell.owner.Channels())
    ensures status == Panicked ==> effects == [] && cell.owner == old(cell.owner)
    ensures forall k :: 0 <= k < |effects| ==> SentTo(effects[k], to)
    ensures status == Done ==>
      var st := Stamp(to, old(cell.owner.Channels()[digest(to)]), [Typing] + PromptSignals(gen.events, gen.end));
      && effects == st.effects
      && cell.owner == old(cell.owner.WithChannels(cell.owner.Channels()[digest(to) := st.record]))
  {
    ghost var o0 := cell.owner;
    ghost var c0 := cell.owner.Channels();
    var opening := IAmThinking(cell, digest, to);
    if opening.None? {
      return Panicked, [];
    }
    ghost var rec0 := c0[digest(to)];
    ghost var rec1 := rec0.(activitySeqNo := rec0.activitySeqNo + 1);
    ghost var o1 := cell.owner;
    assert o1.Channels()[digest(to)] == rec1;
    var signals := ChunkStream(gen.events, gen.end);
    var sent := Deliver(cell, digest, to, signals);
    ghost var st1 := Stamp(to, rec1, signals);
    assert sent == st1.effects;
    OpeningThenSignals(to, rec0, signals);
    WithChannelsTwice(o0, BumpActivitySeqNo(c0, digest(to)), o1.Channels()[digest(to) := st1.record]);
    assert o1.Channels()[digest(to) := st1.record] == c0[digest(to) := st1.record];
    assert opening.value == Activity(to, rec0.activitySeqNo);
    effects := [opening.value] + sent;
    StampNumbersChats(to, rec0, [Typing] + signals);
    status := Done;
  }

  /** The opening typing signal followed by the chunker's signals. */
  lemma OpeningThenSignals(to: string, rec: ChatChannelState, signals: seq<Signal>)
    ensures var rec1 := rec.(activitySeqNo := rec.activitySeqNo + 1);
      Stamp(to, rec, [Typing] + signals) ==
        Stamped([Activity(to, rec.activitySeqNo)] + Stamp(to, rec1, signals).effects, Stamp(to, rec1, signals).record)
  {
    StampAppend(to, rec, [Typing], signals);
    assert [Typing][..0] == [];
  }

  /**
   * The state change of a handshake: the record of the old DID goes, a
   * zeroed record for the new DID comes, and the greeting is sent to it.
   */
  method Rekey(cell: ChannelStateCell, digest: Digest, oldDid: string, newDid: string, greeting: string)
    returns (greet: Effect)
    modifies cell
    ensures greet == Chat(newDid, greeting, 0)
    ensures cell.owner == old(cell.owner.WithChannels(
      (cell.owner.Channels() - {digest(oldDid)})[digest(newDid) := FreshChannelState(newDid, digest(newDid)).(seqNo := 1)]))
  {
    ghost var o0 := cell.owner;
    var _ := cell.RemoveChannelState(digest(oldDid));
    var newHash := digest(newDid);
    var _ := cell.InsertChannelState(newHash, FreshChannelState(newDid, newHash));
    ghost var o1 := cell.owner;
    var sent := SendMessage(cell, digest, greeting, newDid);
    greet := sent.value;
    WithChannelsTwice(o0, o0.Channels() - {digest(oldDid)}, o1.Channels());
    WithChannelsTwice(o0, o1.Channels(), cell.owner.Channels());
  }

  /**
   * The connection-setup branch of `handle_message`: answer the handshake
   * through the identity `agentDid`, move the conversation from the
   * sender's DID to the DID it chose for the channel, and greet it there.
   */
  method HandleConnectionSetup(cell: ChannelStateCell, digest: Digest, agentDid: string, m: Message, from: string)
    returns (status: Status, effects: seq<Effect>)
    modifies cell
    ensures status == Done || status == Panicked
    ensures status == Panicked ==> effects == [] && cell.owner == old(cell.owner)
    ensures status == Done <==>
      old(cell.owner).ModelOwner? && FindAgent(old(cell.owner).model.dids, agentDid).Some? && ConnectionResponseDid(m).Some?
    ensures status == Done ==>
      var newDid := m.body.channelDid.value;
      && effects == [ConnectionAccepted(from), Chat(newDid, FindAgent(old(cell.owner).model.dids, agentDid).value.greeting, 0)]
      && cell.owner == old(cell.owner.WithChannels(
           (cell.owner.Channels() - {digest(from)})[digest(newDid) := FreshChannelState(newDid, digest(newDid)).(seqNo := 1)]))
    ensures Handling(status, effects, cell.owner) == SetupHandling(old(cell.owner), digest, agentDid, m, from)
  {
    var model := cell.owner.GetModel();
    if model.None? {
      return Panicked, [];
    }
    var agent := FindAgent(model.value.dids, agentDid);
    if agent.None? {
      return Panicked, [];
    }
    var newDid := ConnectionResponseDid(m);
    if newDid.None? {
      return Panicked, [];
    }
    var greet := Rekey(cell, digest, from, newDid.value, agent.value.greeting);
    effects := [ConnectionAccepted(from), greet];
    status := Done;
  }

  /**
   * A chat message that is answered without the backend (attachments, and
   * commands): it is acknowledged, then `text` is sent back to its sender.
   */
  method AckAndReply(cell: ChannelStateCell, digest: Digest, m: Message, from: string, text: string)
    returns (status: Status, effects: seq<Effect>)
    modifies cell
    ensures status == Done <==> digest(from) in old(cell.owner.Channels())
    ensures status != Done ==>
      status == Panicked && effects == [DeliveryAck(from, m.id)] && cell.owner == old(cell.owner)
    ensures status == Done ==>
      && effects == [DeliveryAck(from, m.id), Chat(from, text, old(cell.owner.Channels()[digest(from)].seqNo))]
      && cell.owner == old(cell.owner.WithChannels(BumpSeqNo(cell.owner.Channels(), digest(from))))
    ensures Handling(status, effects, cell.owner) == ReplyHandling(old(cell.owner), digest, m, from, text)
  {
    effects := [DeliveryAck(from, m.id)];
    var sent := SendMessage(cell, digest, text, from);
    if sent.None? {
      return Panicked, effects;
    }
    effects := effects + [sent.value];
    status := Done;
  }

  // ---- What handling a message does, as a value ----

  /** The result of a handler: how it ended, what it sent, and the owner's state afterwards. */
  datatype Handling = Handling(status: Status, effects: seq<Effect>, owner: Owner)

  /** `handle_prompt` of `prompt` for `to` on owner `o`. */
  function PromptHandling(o: Owner, digest: Digest, prompt: string, to: string, gen: Generation): Handling
  {
    if !o.ModelOwner? then Handling(Panicked, [], o)
    else
      var request := [GenerateRequest(o.model.name, prompt)];
      if gen.BackendUnavailable? || digest(to) !in o.Channels() then Handling(Panicked, request, o)
      else
        var st := Stamp(to, o.Channels()[digest(to)], [Typing] + PromptSignals(gen.events, gen.end));
        Handling(Done, request + st.effects, o.WithChannels(o.Channels()[digest(to) := st.record]))
  }

  /** The ack of `m`, then `text` sent back to `from` on owner `o`. */
  function ReplyHandling(o: Owner, digest: Digest, m: Message, from: string, text: string): Handling
  {
    var ack := [DeliveryAck(from, m.id)];
    if digest(from) !in o.Channels() then Handling(Panicked, ack, o)
    else
      Handling(Done, ack + [Chat(from, text, o.Channels()[digest(from)].seqNo)],
               o.WithChannels(BumpSeqNo(o.Channels(), digest(from))))
  }

  /** The connection-setup branch on owner `o`. */
  function SetupHandling(o: Owner, digest: Digest, agentDid: string, m: Message, from: string): Handling
  {
    if !o.ModelOwner? || FindAgent(o.model.dids, agentDid).None? || ConnectionResponseDid(m).None? then
      Handling(Panicked, [], o)
    else
      var newDid := m.body.channelDid.value;
      Handling(Done,
               [ConnectionAccepted(from), Chat(newDid, FindAgent(o.model.dids, agentDid).value.greeting, 0)],
               o.WithChannels((o.Channels() - {digest(from)})[digest(newDid) := FreshChannelState(newDid, digest(newDid)).(seqNo := 1)]))
  }

  /** `handle_message` of `m` on owner `o`, reached through the identity `agentDid`. */
  function Handled(o: Owner, digest: Digest, agentDid: string, m: Message, gen: Generation): Handling
  {
    HandledRoute(o, digest, agentDid, m, Classify(m), gen)
  }

  /** The branch of `handle_message` for `route`. */
  function HandledRoute(o: Owner, digest: Digest, agentDid: string, m: Message, route: Route, gen: Generation): Handling
  {
    match route
    case Unparseable => Handling(Failed(UnknownMessageType), [], o)
    case Anonymous => Handling(Failed(NoFrom), [], o)
    case PickupStatus => Handling(Done, [], o)
    case PickupStatusMalformed => Handling(Failed(MalformedBody), [], o)
    case ConnectionSetup(from) => SetupHandling(o, digest, agentDid, m, from)
    case PresenceRoute(from) => Handling(Done, [PresenceReply(from)], o)
    case EffectRoute(from, prompt) => PromptHandling(o, digest, prompt, from, gen)
    case EffectMalformed => Handling(Done, [], o)
    case ChatMalformed(from) => Handling(Failed(MalformedBody), [DeliveryAck(from, m.id)], o)
    case AttachmentRejected(from) => ReplyHandling(o, digest, m, from, ATTACHMENTS_REPLY)
    case CommandRoute(from, text) => ReplyHandling(o, digest, m, from, CommandReply(text, agentDid, from))
    case PromptRoute(from, text) =>
      var p := PromptHandling(o, digest, text, from, gen);
      Handling(p.status, [DeliveryAck(from, m.id)] + p.effects, p.owner)
    case Ignored => Handling(Done, [], o)
  }

  /**
   * An `unwrap` on the way fails: `get_model` on the concierge, the
   * addressed identity or the new channel DID missing in a handshake, the
   * backend unreachable, or no record for the party a reply is stamped for.
   */
  predicate HandlerPanics(o: Owner, digest: Digest, agentDid: string, m: Message, gen: Generation)
  {
    RoutePanics(o, digest, agentDid, m, Classify(m), gen)
  }

  predicate RoutePanics(o: Owner, digest: Digest, agentDid: string, m: Message, route: Route, gen: Generation)
  {
    match route
    case ConnectionSetup(_) =>
      !o.ModelOwner? || FindAgent(o.model.dids, agentDid).None? || ConnectionResponseDid(m).None?
    case AttachmentRejected(from) => digest(from) !in o.Channels()
    case CommandRoute(from, _) => digest(from) !in o.Channels()
    case PromptRoute(from, _) => !o.ModelOwner? || gen.BackendUnavailable? || digest(from) !in o.Channels()
    case EffectRoute(from, _) => !o.ModelOwner? || gen.BackendUnavailable? || digest(from) !in o.Channels()
    case _ => false
  }

  /**
   * The handler panics exactly when one of its `unwrap`s fails. A panic
   * leaves the state as it was and has sent nothing to the party: at most
   * the ack and the generation request went out.
   */
  lemma HandlerPanicsExactly(o: Owner, digest: Digest, agentDid: string, m: Message, gen: Generation)
    ensures var r := Handled(o, digest, agentDid, m, gen);
      && (r.status == Panicked <==> HandlerPanics(o, digest, agentDid, m, gen))
      && (r.status == Panicked ==> r.owner == o && forall e :: e in r.effects ==> e.DeliveryAck? || e.GenerateRequest?)
  {
    RoutePanicsExactly(o, digest, agentDid, m, Classify(m), gen);
  }

  lemma RoutePanicsExactly(o: Owner, digest: Digest, agentDid: string, m: Message, route: Route, gen: Generation)
    ensures var r := HandledRoute(o, digest, agentDid, m, route, gen);
      && (r.status == Panicked <==> RoutePanics(o, digest, agentDid, m, route, gen))
      && (r.status == Panicked ==> r.owner == o && forall e :: e in r.effects ==> e.DeliveryAck? || e.GenerateRequest?)
  {
  }

  /** A message to a party or a request to the backend: what a message handler may send. */
  predicate Outgoing(e: Effect)
  {
    e.Chat? || e.Activity? || e.PresenceReply? || e.DeliveryAck? || e.ConnectionAccepted? || e.GenerateRequest?
  }

  /**
   * `handle_message` only talks to parties and to the backend: nothing it
   * sends deletes a message or touches the workers or the configuration.
   */
  lemma HandledDeletesNothing(o: Owner, digest: Digest, agentDid: string, m: Message, gen: Generation)
    ensures forall e :: e in Handled(o, digest, agentDid, m, gen).effects ==>
      Outgoing(e) && !e.DeleteMessage? && !e.SpawnWorker? && !e.SendExit? && !e.SaveConfig?
  {
    RouteOutgoing(o, digest, agentDid, m, Classify(m), gen);
  }

  lemma RouteOutgoing(o: Owner, digest: Digest, agentDid: string, m: Message, route: Route, gen: Generation)
    ensures forall e :: e in HandledRoute(o, digest, agentDid, m, route, gen).effects ==> Outgoing(e)
  {
    var r := HandledRoute(o, digest, agentDid, m, route, gen);
    match route
    case EffectRoute(from, prompt) =>
      PromptOutgoing(o, digest, prompt, from, gen);
    case PromptRoute(from, text) =>
      var p := PromptHandling(o, digest, text, from, gen);
      assert r.effects == [DeliveryAck(from, m.id)] + p.effects;
      PromptOutgoing(o, digest, text, from, gen);
    case _ =>
  }

  /** A prompt sends the generation request and then only messages to its party. */
  lemma PromptOutgoing(o: Owner, digest: Digest, prompt: string, to: string, gen: Generation)
    ensures forall e :: e in PromptHandling(o, digest, prompt, to, gen).effects ==> Outgoing(e)
  {
    var p := PromptHandling(o, digest, prompt, to, gen);
    if p.status == Done {
      var sigs := [Typing] + PromptSignals(gen.events, gen.end);
      var st := Stamp(to, o.Channels()[digest(to)], sigs);
      StampTexts(to, o.Channels()[digest(to)], sigs);
      assert p.effects == [GenerateRequest(o.model.name, prompt)] + st.effects;
    }
  }

  /** After the generation request, a prompt only sends messages to its party. */
  lemma PromptSentTo(o: Owner, digest: Digest, prompt: string, to: string, gen: Generation)
    ensures var p := PromptHandling(o, digest, prompt, to, gen);
      && (|p.effects| >= 1 ==> p.effects[0].GenerateRequest?)
      && forall k :: 1 <= k < |p.effects| ==> SentTo(p.effects[k], to)
  {
    var p := PromptHandling(o, digest, prompt, to, gen);
    if o.ModelOwner? && !gen.BackendUnavailable? && digest(to) in o.Channels() {
      var rec := o.Channels()[digest(to)];
      var sigs := [Typing] + PromptSignals(gen.events, gen.end);
      var st := Stamp(to, rec, sigs);
      var request := [GenerateRequest(o.model.name, prompt)];
      assert p.effects == request + st.effects;
      StampTexts(to, rec, sigs);
      forall k | 1 <= k < |p.effects|
        ensures SentTo(p.effects[k], to)
      {
        assert p.effects[k] == st.effects[k - 1];
        assert st.effects[k - 1] in st.effects;
      }
    } else {
      assert |p.effects| <= 1;
    }
  }

  lemma {:induction false} ChatSeqNosAppend(a: seq<Effect>, b: seq<Effect>)
    ensures ChatSeqNos(a + b) == ChatSeqNos(a) + ChatSeqNos(b)
  {
    if b == [] {
      assert a + b == a;
    } else {
      ChatSeqNosAppend(a, b[..|b| - 1]);
      assert (a + b)[..|a + b| - 1] == a + b[..|b| - 1];
    }
  }

  /** Stamping never lowers the activity counter. */
  lemma {:induction false} StampActivityGrows(to: string, rec: ChatChannelState, sigs: seq<Signal>)
    ensures Stamp(to, rec, sigs).record.activitySeqNo >= rec.activitySeqNo
  {
    if sigs != [] {
      StampActivityGrows(to, rec, sigs[..|sigs| - 1]);
    }
  }

  /**
   * `o2` is `o` with its conversations changed at most in the record under
   * `h`, which keeps its DID, has its message counter advanced by `chats`
   * and its activity counter not lowered.
   */
  predicate OnlySenderAdvanced(o: Owner, o2: Owner, h: string, chats: nat)
  {
    && o2 == o.WithChannels(o2.Channels())
    && o2.Channels().Keys == o.Channels().Keys
    && (forall k :: k in o.Channels() && k != h ==> o2.Channels()[k] == o.Channels()[k])
    && (h in o.Channels() ==>
          && o2.Channels()[h].remoteDid == o.Channels()[h].remoteDid
          && o2.Channels()[h].remoteDidHash == o.Channels()[h].remoteDidHash
          && o2.Channels()[h].seqNo == o.Channels()[h].seqNo + chats
          && o2.Channels()[h].activitySeqNo >= o.Channels()[h].activitySeqNo)
    && (h !in o.Channels() ==> chats == 0)
  }

  /** Replacing the record under `h` by one with the same DID, `n` more messages and no less activity. */
  lemma AdvanceFrame(o: Owner, h: string, rec: ChatChannelState, n: nat)
    requires h in o.Channels()
    requires rec.remoteDid == o.Channels()[h].remoteDid && rec.remoteDidHash == o.Channels()[h].remoteDidHash
    requires rec.seqNo == o.Channels()[h].seqNo + n && rec.activitySeqNo >= o.Channels()[h].activitySeqNo
    ensures OnlySenderAdvanced(o, o.WithChannels(o.Channels()[h := rec]), h, n)
  {
    var o2 := o.WithChannels(o.Channels()[h := rec]);
    WithChannelsTwice(o, o.Channels()[h := rec], o2.Channels());
  }

  /** A prompt, after any prefix without chat messages, advances only its party's record, by the chats it sent. */
  lemma PromptFrame(o: Owner, digest: Digest, prompt: string, to: string, gen: Generation, pre: seq<Effect>)
    requires forall e :: e in pre ==> !e.Chat?
    ensures var p := PromptHandling(o, digest, prompt, to, gen);
      OnlySenderAdvanced(o, p.owner, digest(to), |ChatSeqNos(pre + p.effects)|)
  {
    var p := PromptHandling(o, digest, prompt, to, gen);
    if p.status == Done {
      var rec := o.Channels()[digest(to)];
      var sigs := [Typing] + PromptSignals(gen.events, gen.end);
      var st := Stamp(to, rec, sigs);
      var noChats := pre + [GenerateRequest(o.model.name, prompt)];
      assert pre + p.effects == noChats + st.effects;
      NoChats(noChats);
      ChatSeqNosAppend(noChats, st.effects);
      StampNumbersChats(to, rec, sigs);
      StampActivityGrows(to, rec, sigs);
      AdvanceFrame(o, digest(to), st.record, |ChatSeqNos(st.effects)|);
    } else {
      UnchangedFrame(o, digest(to), pre + p.effects);
    }
  }

  /** Effects without chat messages carry no sequence numbers. */
  lemma {:induction false} NoChats(effects: seq<Effect>)
    requires forall e :: e in effects ==> !e.Chat?
    ensures ChatSeqNos(effects) == []
  {
    if effects != [] {
      NoChats(effects[..|effects| - 1]);
      assert effects[|effects| - 1] in effects;
    }
  }

  /** A reply advances only the sender's record, by the one chat message it sends. */
  lemma ReplyFrame(o: Owner, digest: Digest, m: Message, from: string, text: string)
    ensures var r := ReplyHandling(o, digest, m, from, text);
      OnlySenderAdvanced(o, r.owner, digest(from), |ChatSeqNos(r.effects)|)
  {
    var r := ReplyHandling(o, digest, m, from, text);
    var ack := DeliveryAck(from, m.id);
    if r.status == Done {
      var e := r.effects;
      assert ChatSeqNos([ack]) == [] by {
        assert [ack][..0] == [];
      }
      assert |e| == 2 && e[..1] == [ack] && e[1].Chat?;
      assert ChatSeqNos(e) == [e[1].seqNo];
      var rec := o.Channels()[digest(from)];
      assert BumpSeqNo(o.Channels(), digest(from)) == o.Channels()[digest(from) := rec.(seqNo := rec.seqNo + 1)];
      AdvanceFrame(o, digest(from), rec.(seqNo := rec.seqNo + 1), 1);
    } else {
      UnchangedFrame(o, digest(from), r.effects);
    }
  }

  /** A handler that changes nothing and sends no chat message advances nothing. */
  lemma UnchangedFrame(o: Owner, h: string, effects: seq<Effect>)
    requires forall e :: e in effects ==> !e.Chat?
    ensures OnlySenderAdvanced(o, o, h, |ChatSeqNos(effects)|)
  {
    NoChats(effects);
    WithOwnChannels(o);
  }

  /**
   * Handling changes only the owner's conversations. Outside a handshake
   * only the sender's record can change: it keeps its DID, its message
   * counter advances by exactly the number of chat messages sent, and its
   * activity counter never goes down.
   */
  lemma HandledFrame(o: Owner, digest: Digest, agentDid: string, m: Message, gen: Generation)
    ensures var r := Handled(o, digest, agentDid, m, gen);
      && r.owner == o.WithChannels(r.owner.Channels())
      && (m.from.Some? && !Classify(m).ConnectionSetup? ==>
            OnlySenderAdvanced(o, r.owner, digest(m.from.value), |ChatSeqNos(r.effects)|))
  {
    var route := Classify(m);
    RouteFrame(o, digest, agentDid, m, route, gen);
    if m.from.Some? && (route.PickupStatus? || route.PickupStatusMalformed? || route.EffectMalformed? || route.Ignored?) {
      UnchangedFrame(o, digest(m.from.value), []);
    }
  }

  /** The frame of each branch: the sender's record alone advances, and branches without a sender change nothing. */
  lemma RouteFrame(o: Owner, digest: Digest, agentDid: string, m: Message, route: Route, gen: Generation)
    ensures var r := HandledRoute(o, digest, agentDid, m, route, gen);
      && r.owner == o.WithChannels(r.owner.Channels())
      && ((route.PresenceRoute? || route.EffectRoute? || route.ChatMalformed? ||
           route.AttachmentRejected? || route.CommandRoute? || route.PromptRoute?) ==>
            OnlySenderAdvanced(o, r.owner, digest(route.from), |ChatSeqNos(r.effects)|))
      && ((route.PickupStatus? || route.PickupStatusMalformed? || route.EffectMalformed? || route.Ignored?) ==>
            r == Handling(r.status, [], o))
  {
    var r := HandledRoute(o, digest, agentDid, m, route, gen);
    WithOwnChannels(o);
    match route
    case EffectRoute(from, prompt) =>
      PromptFrame(o, digest, prompt, from, gen, []);
      assert [] + r.effects == r.effects;
    case PromptRoute(from, text) =>
      PromptFrame(o, digest, text, from, gen, [DeliveryAck(from, m.id)]);
    case AttachmentRejected(from) =>
      ReplyFrame(o, digest, m, from, ATTACHMENTS_REPLY);
    case CommandRoute(from, text) =>
      ReplyFrame(o, digest, m, from, CommandReply(text, agentDid, from));
    case ConnectionSetup(from) =>
      if r.status == Done {
        WithChannelsTwice(o, r.owner.Channels(), r.owner.Channels());
      }
    case PresenceRoute(from) =>
      UnchangedFrame(o, digest(from), r.effects);
    case ChatMalformed(from) =>
      UnchangedFrame(o, digest(from), r.effects);
    case _ =>
  }

  /**
   * `handle_message` for the model behind `cell`, reached through the
   * identity `agentDid`. `gen` is what the backend streams if the message
   * leads to a prompt.
   */
  method HandleMessage(cell: ChannelStateCell, digest: Digest, agentDid: string, m: Message, gen: Generation)
    returns (status: Status, effects: seq<Effect>)
    modifies cell
    ensures Handling(status, effects, cell.owner) == Handled(old(cell.owner), digest, agentDid, m, gen)
  {
    var route := Classify(m);
    ghost var o := cell.owner;
    assert Handled(o, digest, agentDid, m, gen) == HandledRoute(o, digest, agentDid, m, route, gen);
    effects := [];
    match route {
      case Unparseable =>
        status := Failed(UnknownMessageType);
      case Anonymous =>
        status := Failed(NoFrom);
      case PickupStatus =>
        status := Done;
      case PickupStatusMalformed =>
        status := Failed(MalformedBody);
      case ConnectionSetup(from) =>
        status, effects := HandleConnectionSetup(cell, digest, agentDid, m, from);
      case PresenceRoute(from) =>
        effects := [PresenceReply(from)];
        status := Done;
      case EffectRoute(from, prompt) =>
        status, effects := HandlePrompt(cell, digest, prompt, from, gen);
      case EffectMalformed =>
        status := Done;
      case ChatMalformed(from) =>
        effects := [DeliveryAck(from, m.id)];
        status := Failed(MalformedBody);
      case AttachmentRejected(from) =>
        status, effects := AckAndReply(cell, digest, m, from, ATTACHMENTS_REPLY);
      case CommandRoute(from, text) =>
        status, effects := AckAndReply(cell, digest, m, from, CommandReply(text, agentDid, from));
      case PromptRoute(from, text) =>
        var promptEffects;
        status, promptEffects := HandlePrompt(cell, digest, text, from, gen);
        effects := [DeliveryAck(from, m.id)] + promptEffects;
      case Ignored =>
        status := Done;
    }
  }
}
