/**
 * The fluent-forward client as the firehose handler uses it: an opaque
 * SendMessage that may succeed or fail. The wire protocol is not modelled.
 */
module Fluent {
  import opened Wrappers

  /** protocol.Message: a tag, a time in Unix seconds and a record map. */
  datatype Message = Message(tag: string, timestamp: int, record: map<string, string>)

  /** The error SendMessage reports; only ever logged by the handler. */
  datatype SendError = SendError(reason: string)

  class Client {
    /** Every message handed to SendMessage, in call order, whatever its outcome. */
    ghost var attempts: seq<Message>

    constructor ()
      ensures attempts == []
    {
      attempts := [];
    }

    /**
     * forwardClient.SendMessage(msg). Whether the send succeeds depends on
     * the network, so callers may assume nothing about the error returned.
     */
    method SendMessage(msg: Message) returns (err: Option<SendError>)
      modifies this
      ensures attempts == old(attempts) + [msg]
    {
      attempts := attempts + [msg];
      err := *;
    }
  }
}
