/**
 * What the core asks its collaborators to do, recorded in order instead of
 * performed: sends through the messaging transport, requests to the
 * generation backend, worker commands and configuration saves.
 */
module Effects {
  import opened StateManagement

  /** Why a supervisor or worker loop ended (`termination::Interrupted`). */
  datatype Interrupted = UserInt | OtherInterrupt(reason: string)

  datatype Effect =
    /** `send_message`: a chat message stamped with the conversation's `seqNo`. */
    | Chat(to: string, text: string, seqNo: nat)
    /** `i_am_thinking`: a chat-activity signal stamped with `activitySeqNo`. */
    | Activity(to: string, activitySeqNo: nat)
    /** `handle_presence`: a presence reply. */
    | PresenceReply(to: string)
    /** `ack_message`: a chat-delivered acknowledgement of message `messageId`. */
    | DeliveryAck(to: string, messageId: string)
    /** `send_connection_response`: a connection-accepted reply. */
    | ConnectionAccepted(to: string)
    /** `generate_stream`: a generation request to the backend. */
    | GenerateRequest(model: string, prompt: string)
    /** `delete_message_background`: deletion of a consumed inbound message. */
    | DeleteMessage(metaHash: string)
    /** `clear_inbound_messages` / `clear_outbound_messages`: queue clean-up at start. */
    | ClearInbound
    | ClearOutbound
    /** `profile_enable_websocket`: live delivery switched on. */
    | EnableLiveDelivery
    /** `terminator.terminate`: broadcast of an interrupt to the host process. */
    | Terminate(reason: Interrupted)
    /** A model worker started, with the id of its command channel. */
    | SpawnWorker(model: string, channel: nat)
    /** `ModelAction::Exit` sent on a worker's command channel. */
    | SendExit(model: string, channel: nat)
    /** `SharedState::save` of this configuration. */
    | SaveConfig(config: Config)
}
