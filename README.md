# didcomm-ai-bridge core, modelled in Dafny

The bridge gives each locally served Ollama model a DIDComm identity. Users
message those identities through a mediator. A *concierge* supervises the
*model workers*. Each worker turns an inbound chat message into a prompt,
streams the backend's answer, cuts it into chat messages and sends them
back. This project models the bookkeeping and message-handling rules of
that core. Transport, cryptography, the LLM backend and the terminal are
replaced by inputs, and by effects that are recorded in order instead of
performed.

Modules:

- `StateManagement` (`state_management.dfy`):
  - the per-conversation record `ChatChannelState`;
  - the two owners of conversation maps, a model and the concierge, joined in `Owner`;
  - `ChannelStateCell`, which stands for the `Arc<Mutex<_>>` around an owner, with get/insert/remove and the two counter steps;
  - the configuration and `SharedState`, with `from_config`, `to_config`, `add_model` and `remove_model`.
- `Effects` (`effects.dfy`): the outbox vocabulary. It covers chat messages, typing signals, presence replies, acks, the connection response, generation requests, deletions, queue clean-up, worker start and exit, and the configuration save.
- `Chunker` (`chunker.dfy`): the fragment loop of `handle_prompt`.
  - `ChunkStream` is the imperative loop over `think_flag` and `output`.
  - `PromptSignals` is its specification.
  - Reference definitions (`VisibleText`, `AfterThink`, `Kept`) and lemmas relate it to what the user should see.
- `ChatMessages` (`chat_messages.dfy`): the dispatch of `handle_message`, the command and effect tables, `send_message`/`i_am_thinking` counter stamping, `handle_prompt`, and the connection handshake.
- `ModelAgent` (`model_agent.dfy`): the worker loop `ModelAgent::run`.
- `ConciergeHandler` (`concierge.dfy`): the supervisor `Concierge::run`, with its direct-message handling, the worker registry and shutdown.
- `SetupWizard` (`setup_wizard.dfy`): the DID-method choice, the Ollama address parser, and the model-selection reconciliation of `add_ollama_models`.

Conventions:

- **The hash.** `sha256::digest` is a function-typed parameter `digest`. No property of it is assumed, not even injectivity.
- **Panics.** An `unwrap` that panics is an outcome: `Panicked`/`Crashed`, or `None` from `SendMessage`/`IAmThinking`. Examples are `get_model()` on the concierge, a missing record for the addressee, a missing `channel_did` or thread id in a connection setup, and an unavailable backend.
- **Message types.** The SDK's `MessageType::from_str` is not part of this model. Its result is a field of the inbound message: `None` when parsing fails, otherwise the pickup status reply, another SDK type, or `Other(uri)`.
- **Backend stream.** The backend's stream is an input: a sequence of fragment batches and typing-timer ticks, then how it ended (end of stream, stream error or the 30-second timeout).
- **Event order.** The order in which a `select!` loop sees its inputs is an input sequence of events.

Behaviour of the code that a reader might not expect:

- A chunk is flushed only on a fragment that is exactly `".\n\n"`. Only a fragment that is exactly `"\n\n"` is dropped. Any other fragment, even one ending a sentence, is buffered.
- On timeout the timeout text is sent and then the buffer is still flushed once more (`src/chat_messages.rs:328-331, 374`). The timeout text does not replace the flush.
- Only the concierge creates a record for an unseen sender (`src/agents/concierge/concierge_handler.rs:154-164`). The model worker does not. A command, prompt or attachment from a sender with no record panics in `send_message`/`i_am_thinking`, and that ends the worker (`RunWorker` returns `Crashed`).
- `StartModel` for a model that is already running replaces its registry entry. Only the newest worker of that name is sent `Exit` at shutdown. `Run` states that the registry is the one the `Served` fold builds, and `ServedRegistry` proves that fold keeps the newest worker per name. The exits go to exactly that registry.
- A fresh `ModelAgent::start` always succeeds. Of the `?`s in `StartModel`, only profile creation can abort the concierge.

## Model

| member | source | states |
|---|---|---|
| StateManagement.DefaultChannelState | src/agents/state_management/mod.rs:48-58 | a default record has both counters at zero and empty DID strings |
| StateManagement.FreshChannelState | src/chat_messages.rs:117-124 | a record for a newly seen party is the default record with that DID and its hash |
| StateManagement.NewOllamaModel | src/agents/state_management/mod.rs:94-114 | succeeds exactly when DID creation does; the model has exactly one identity (the created DID, named after the model, greeting "Standard Greeting", image "deepseek.png"), the given host and port, and no conversations |
| StateManagement.Owner.WithChannels | src/agents/state_management/mod.rs:200-246 | a trait update replaces the conversation map only: same kind of owner, every other field kept |
| StateManagement.Owner.GetModel | src/agents/state_management/mod.rs:195-223 | `get_model` answers exactly for a model, with the model itself; the concierge's trait default is `None` |
| StateManagement.ChannelStateCell.GetChannelState | src/agents/state_management/mod.rs:201-207 | a lookup finds exactly the stored keys, returns the stored record and creates nothing |
| StateManagement.ChannelStateCell.RemoveChannelState | src/agents/state_management/mod.rs:209-211 | returns the previous record, leaves the key absent, changes only that key, and changes nothing when the key was absent |
| StateManagement.ChannelStateCell.InsertChannelState | src/agents/state_management/mod.rs:213-219 | returns the previous record; afterwards the key maps to the new record and every other key is unchanged |
| StateManagement.ChannelStateCell.NextSeqNo | src/chat_messages.rs:390-399 | fails exactly when no record exists, changing nothing; otherwise yields the current `seq_no` and advances only that counter of only that record by one |
| StateManagement.ChannelStateCell.NextActivitySeqNo | src/chat_messages.rs:511-520 | the same for `activity_seq_no` |
| StateManagement.SharedState.FromConfig | src/agents/state_management/mod.rs:32-44 | every model behind its own new lock, distinct from every other model's and from the concierge's; model names, model values, mediator DID and concierge state preserved |
| StateManagement.SharedState.ToConfig | src/agents/state_management/mod.rs:134-147 | the configuration is a snapshot of every model value, the mediator DID and the concierge state |
| StateManagement.SharedState.AddModel | src/agents/state_management/mod.rs:160-165 | inserts or overwrites the entry for the name; other entries keep their locks |
| StateManagement.SharedState.RemoveModel | src/agents/state_management/mod.rs:168-177 | deletes the entry when present and leaves the map unchanged otherwise |
| StateManagement.ConfigRoundTrip | src/agents/state_management/mod.rs:32-147 | `from_config` followed by `to_config` gives back the configuration |
| Chunker.ChunkStream | src/chat_messages.rs:315-374 | the imperative fragment loop sends exactly the signals of the step-function specification `PromptSignals` |
| Chunker.ChunkBatch | src/chat_messages.rs:340-360 | one batch of fragments through the loop's `think_flag` and `output` gives exactly the state and the sends of the batch specification `RunBatch` |
| Chunker.RunBatchAppend | src/chat_messages.rs:340-360 | running two batches one after the other is running their concatenation: the state carries over and the sends concatenate |
| Chunker.StaysHidden | src/chat_messages.rs:342-357 | while no fragment contains `</think>` the loop stays thinking, buffers nothing and sends nothing |
| Chunker.Buffered | src/chat_messages.rs:342-354 | once visible, fragments that are neither ".\n\n" nor "\n\n" are appended to the buffer in order and nothing is sent |
| Chunker.PreambleHidden | src/chat_messages.rs:342-357 | `<think>`, `ignored`, `</think>` leave the loop visible with an empty buffer and nothing sent: the closing marker itself is not buffered |
| Chunker.SentenceBuffered | src/chat_messages.rs:342-354 | after `Hello`, ` world.`, `\n\n` the buffer holds "Hello world." and nothing is sent: a sentence end inside a fragment does not flush, and a bare paragraph break is dropped |
| Chunker.RunEventsAgrees | src/chat_messages.rs:326-372 | after any prefix of the stream: still thinking iff no fragment held the marker, with nothing sent or buffered; sent texts plus buffer equal the visible non-dropped fragments; one message per ".\n\n" fragment, each ending with it |
| Chunker.VisibleTextDelivered | src/chat_messages.rs:326-374 | the chat messages of a prompt concatenate to the visible text, minus bare paragraph breaks; on timeout the timeout text comes just before the final flush |
| Chunker.ThinkingSuppressed | src/chat_messages.rs:315-357 | until a fragment containing `</think>` arrives nothing is buffered or sent; once visible, the stream never goes back to thinking |
| Chunker.LoopFlushes | src/chat_messages.rs:343-353 | during the loop, one message per visible ".\n\n" fragment, each ending with it |
| Chunker.PreambleThenSentence | src/chat_messages.rs:339-374 | the fragments `<think>`, `ignored`, `</think>`, `Hello`, ` world.`, `\n\n` yield exactly one message, "Hello world." |
| ChatMessages.EffectPrompt | src/chat_messages.rs:216-222 | `balloons` and only it gives "I give you a balloon"; `confetti` and only it gives "Let's celebrate"; everything else gives the fallback prompt |
| ChatMessages.CommandReply | src/chat_messages.rs:252-270 | the help text iff the lower-cased text is `/help`; the DID listing (agent, then client) iff it is `/dids`; otherwise the unknown-command error quoting the original text |
| ChatMessages.Classify | src/chat_messages.rs:56-193 | one if-and-only-if per route in terms of the message: a parse failure, then a missing sender, is rejected first; a pickup status goes to the status route iff its body parses and to the malformed route iff not; a handshake, a presence message, an effect with an `effect` field (carrying its mapped prompt) and an effect without one each go to their own route; a chat message goes to the malformed route iff it has no text, to the rejection iff it has text and attachments, to the command table iff it has text, no attachments and starts with "/", and to the prompt otherwise; exactly the known SDK types and every other URI (chat-activity included) are ignored |
| ChatMessages.FindAgent | src/chat_messages.rs:100-106 | the first identity with the DID, or none exactly when no identity has it |
| ChatMessages.ConnectionResponseDid | src/didcomm_messages/oob_connection.rs:65-106 | the new DID is the body's `channel_did`; missing it or a thread id is a panic |
| ChatMessages.SendMessage | src/chat_messages.rs:380-399 | panics exactly when no record exists for the addressee, changing nothing; otherwise the message is stamped with the record's `seq_no`, which advances by one |
| ChatMessages.IAmThinking | src/chat_messages.rs:502-520 | the same for the typing signal and `activity_seq_no` |
| ChatMessages.StampNumbersChats | src/chat_messages.rs:390-399 | N messages to one party carry consecutive sequence numbers from the record's counter, in order, with their texts; the counter ends N higher; every effect goes to that party |
| ChatMessages.StampAppend | src/chat_messages.rs:390-399 | sending one list of signals and then another is sending their concatenation, through the record the first left behind |
| ChatMessages.Deliver | src/chat_messages.rs:326-374 | the loop's sends are stamped in order through the addressee's record, and only that record changes |
| ChatMessages.ThinkThenStream | src/chat_messages.rs:325-374 | panics exactly when the addressee has no record, changing nothing; otherwise the opening typing signal and then the chunker's signals are stamped in order through that record, and every effect goes to the addressee |
| ChatMessages.HandlePrompt | src/chat_messages.rs:278-378 | status, effects and new state are those of the specification `PromptHandling`; the generation request comes first; completes exactly for a model with an available backend and a record for the addressee; then sends the opening typing signal and the chunker's signals, stamped in order; a panic leaves the state unchanged |
| ChatMessages.Rekey | src/chat_messages.rs:112-126 | the record of the old DID is removed, a zeroed record for the new DID inserted, and the greeting sent to the new DID as its message 0 |
| ChatMessages.HandleConnectionSetup | src/chat_messages.rs:92-127 | status, effects and new state are those of `SetupHandling`; completes exactly for a model holding the addressed identity and a body naming the new DID; then the connection response, and the identity's greeting as message 0 of a zeroed record for the new DID, whose counter ends at 1; the sender's record is removed; a panic changes nothing |
| ChatMessages.AckAndReply | src/chat_messages.rs:137-162 | status, effects and new state are those of `ReplyHandling`; the ack comes first; panics exactly when the sender has no record, leaving only the ack and no change; otherwise the reply is stamped with the sender's `seq_no`, which advances by one |
| ChatMessages.HandleMessage | src/chat_messages.rs:46-196 | status, effects and new state are exactly those of the specification `Handled`, the branch chosen by `Classify`: unparseable or anonymous is an error with no effects and no change; a pickup status with a malformed body is an error with no change; presence is answered without a change; a handshake re-keys and greets; chat messages are acked first; attachments get only the fixed reply and commands the table's reply, each advancing the sender's counter by one; prompts and effects are stamped through the sender's record; a malformed chat body is an error after the ack; ignored types change nothing |
| ChatMessages.HandlerPanicsExactly | src/chat_messages.rs:46-196 | the handler panics exactly when an `unwrap` fails (`HandlerPanics`: `get_model` on the concierge, a missing identity or new DID in a handshake, an unavailable backend, or no record for the party); a panic changes nothing and has sent at most the ack and the generation request |
| ChatMessages.HandledDeletesNothing | src/chat_messages.rs:46-196 | a handler only sends messages to parties and requests to the backend: it never deletes a message, starts or stops a worker, or saves |
| ChatMessages.HandledFrame | src/chat_messages.rs:46-196 | handling changes only the owner's conversations; outside a handshake only the sender's record changes, keeping its DID, its message counter advancing by exactly the number of chat messages sent, its activity counter never going down |
| ChatMessages.PromptSentTo | src/chat_messages.rs:278-378 | a prompt's first effect is the generation request and every later one goes to the prompt's party |
| ModelAgent.RunWorker | src/agents/model.rs:74-107 | clears the inbox, then enables live delivery; a live-delivery or direct-channel failure aborts with no change; the first Exit stops with `UserInt`; otherwise it stops only at a handler panic, which `HandlerPanics` predicts from the state the earlier messages left; the state and effects are the `Worked` fold of the messages taken, plus the panicking handler's effects; the deletions are exactly the handled messages' hashes, in order |
| ModelAgent.Listen | src/agents/model.rs:86-101 | every message taken was handled without a panic from the state before it; the state and effects are the `Worked` fold; a crash happens exactly at a message whose handler panics |
| ModelAgent.HandleAndDelete | src/agents/model.rs:95-100 | crashes exactly when the handler panics (`HandlerPanics`); the effects are the handler's, then the deletion of the message's hash exactly once as the last effect unless it crashed; the new state is the handler's |
| ModelAgent.WorkedDeletions | src/agents/model.rs:95-100 | the deletions of a run are the hashes of the messages it took, one each, in arrival order |
| ModelAgent.WorkedKeepsModel | src/agents/model.rs:86-101 | handling messages changes only the model's conversations, never its configuration |
| ModelAgent.EveryMessageDeleted | src/agents/model.rs:95-100 | without an Exit, the hashes to delete are those of every message, one each, in arrival order |
| ConciergeHandler.Admitted | src/agents/concierge/concierge_handler.rs:154-164 | a new sender gets a zeroed record; existing records are kept as they are |
| ConciergeHandler.HandleDirect | src/agents/concierge/concierge_handler.rs:144-222 | status, effects and new state are those of the specification `Directed`; the message is deleted first; anonymous ones change nothing; a handshake panics exactly when its body lacks `channel_did` or the thread id; handshake re-keys and greets; presence is answered; delivered, activity and pickup status are silent; anything else gets the fixed reply stamped from the sender's record |
| ConciergeHandler.DirectedQuiet | src/agents/concierge/concierge_handler.rs:144-222 | a direct message is deleted first, never spawns, exits or terminates a worker or saves, changes only the conversations, panics exactly on a handshake without a new DID, and keeps every earlier record unless a handshake moved it |
| ConciergeHandler.ServedRegistry | src/agents/concierge/concierge_handler.rs:121-142 | the registry holds exactly the configured models asked to start, each with its newest worker: a spawn for it is among the effects, channels increase along the effects and none of its spawns has a later channel; the loop sends no exit and saves nothing |
| ConciergeHandler.SendExits | src/agents/concierge/concierge_handler.rs:231-234 | one exit per registered worker, on its own channel, no duplicates, nothing else |
| ConciergeHandler.CleanUp | src/agents/concierge/concierge_handler.rs:231-237 | the exits, then the save of a snapshot of the shared state |
| ConciergeHandler.StartupEffects | src/agents/concierge/concierge_handler.rs:86-96 | a failed profile registration does nothing; otherwise both queues are cleared first, and live delivery is enabled exactly when the websocket call succeeds |
| ConciergeHandler.Serve | src/agents/concierge/concierge_handler.rs:109-228 | stops at the first Exit (`UserInt`, after terminating) or interrupt (its reason); only a profile failure for a configured model aborts; it crashes exactly at a handshake without a new DID; every earlier event continues the loop; registry, concierge state and effects are the `Served` fold of the events consumed; every configured model named by a start command is registered, and only configured models, each with its worker spawned; no exit and no save |
| ConciergeHandler.Select | src/agents/concierge/concierge_handler.rs:109-228 | the `select!` loop: registry, spawn counter, concierge state and effects are exactly the `Served` fold of the events consumed; every earlier event continues the loop; it stops at the first Exit or interrupt, aborts only on a profile failure for a configured model, and crashes exactly at a handshake without a new DID |
| ConciergeHandler.Supervise | src/agents/concierge/concierge_handler.rs:109-239 | the loop's guarantees; registry and state are the `Served` fold; when the loop stopped, the fold's effects are followed by one exit per registered worker and then the snapshot save; the save fails exactly when saving does; a crash or an abort in the loop ends with the fold's effects, so no exit and no save |
| ConciergeHandler.Run | src/agents/concierge/concierge_handler.rs:80-240 | a start-up failure aborts with exactly the start-up effects up to the failing call and no change; otherwise the start-up effects, then the `Served` fold of the events consumed, whose registry it returns; the log after start-up (`loop`) is that fold's effects, followed after a stop by exactly one exit per registered worker and the save of the configuration; an abort in the loop sends no exit and saves nothing |
| SetupWizard.DidMethodFor | src/setup_wizard.rs:69-84 | index 0 is `did:key`, any other `did:peer` |
| SetupWizard.ParseOllamaAddress | src/setup_wizard.rs:90-126 | accepted exactly when the text matches `^(http://[^:]*):(\d+)$` with a 16-bit port; the host keeps its scheme and has no further colon; a match with a larger port is refused |
| SetupWizard.AddressRoundTrip | src/setup_wizard.rs:91-124 | a host without a colon after the scheme, a colon and the decimal port parse back to that host and port |
| SetupWizard.DefaultAddress | src/setup_wizard.rs:90-124 | the default `http://localhost:11434` parses to `("http://localhost", 11434)` |
| SetupWizard.PortTooLarge | src/setup_wizard.rs:122 | port 65536 is refused, not truncated |
| SetupWizard.ComputeDefaults | src/setup_wizard.rs:146-152 | entry i is true exactly when listed model i is already configured |
| SetupWizard.EnableSelected | src/setup_wizard.rs:162-175 | each selection in turn is added as a freshly created model, stopping at the first failed DID creation |
| SetupWizard.RemoveDeselected | src/setup_wizard.rs:178-184 | removes exactly the listed names that were configured and are not selected |
| SetupWizard.AddOllamaModels | src/setup_wizard.rs:129-187 | a listing failure changes nothing; a DID failure keeps the additions made before it; success adds every selection, then removes the deselected |
| SetupWizard.EnabledShape | src/setup_wizard.rs:162-175 | after the additions: the old models plus the chosen names, each holding its newly created model, every other model untouched |
| SetupWizard.Reconciled | src/setup_wizard.rs:146-184 | with distinct names and selections: a listed model ends configured iff it was selected, each selected one freshly created, and unlisted models untouched |

## Left out

- Transport and cryptography are recorded as effects and not modelled: packing, forwarding, sending, acks, presence, the connection response, and queue clean-up. The source ignores their failures (`let _ =`), with these exceptions:
  - the `?` on live delivery and the direct channel at start-up, which are modelled;
  - `send_connection_response` unwraps the packing result and the forwarding result (`src/didcomm_messages/oob_connection.rs:132-133, 143-144`). A failure there is a panic, not an error return. The model takes both to succeed, so it does not capture that panic.
- `send_connection_response` reads the identity's vCard image with `std::fs::read(path).unwrap()` (`src/didcomm_messages/oob_connection.rs:53-55`). A missing file is a panic. The model takes the read to succeed and does not capture that panic.
- `sha256::digest` is an uninterpreted parameter, so no property of it is used.
- The Ollama backend is an input: the stream, its availability and the model listing. UUIDs, clocks and timers are replaced by the event sequence and the `Timeout` end.
- Writes to stdout and their `?`: a failing terminal write would end `handle_prompt` early without the final flush, and that path is not modelled.
- `ChatMessages.CommandReply`: lower-cases ASCII letters only, where Rust's `to_lowercase` is Unicode-wide. This changes no comparison result: the only non-ASCII character that lower-cases to an ASCII letter is the Kelvin sign, which becomes `k`, and `k` is in neither command word.
- `SetupWizard.ParseOllamaAddress`: `\d` is read as ASCII digits. A non-ASCII decimal digit also ends in an error in the source (the `u16` parse fails), but the model reports it as "not an address" rather than as a parse error.
- `ChatMessages.HandleMessage`: the `Other` arm is compared with the type URI the SDK returned. For the SDK's own types, the source prints and returns `Ok`, and so does the model.
- The message counters are unbounded naturals. The source's `u64` counters cannot realistically wrap.
- The interactive prompts (mediator choice, address input, the multi-select) and the styling of terminal output are not modelled. Their results are inputs.
- `SharedState::load`/`save` and `Config::load`/`save` are file I/O. Saving is an effect, and its failure is an input.
- The keyring deletion in `remove_model`, and DID and key generation, are not modelled. DID creation is an input, given per selection.
- `src/didcomm_messages/clear_messages.rs` is not part of this model; its loops are driven by remote results. Clearing is an effect.
- `src/agents/concierge.rs`, `src/config.rs`, `src/main.rs` and `src/activate.rs` are an older generation of the code whose calls do not match the current signatures. They are not part of this model. The worker loop of `src/agents/model.rs` is modelled against the current `handle_message` and the state-management `OllamaModel`.
- Concurrency: locks are exclusive and sequential access to one `ChannelStateCell`. Workers and the concierge are modelled one at a time, and the interleaving of their sends is not captured.
