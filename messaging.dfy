/** The message service that forgotPassword hands its notification to. Only the fact that a
    message was handed over, and with which arguments, is recorded; delivery is not modelled. */
module Messaging {

  /** The kind of a message; the other values of the Java enum play no part here. */
  datatype MessageType = PasswordReset | OtherMessageType

  /** The arguments of one `sendMessage` call. */
  datatype Message = Message(
    userId: string,
    email: string,
    messageType: MessageType,
    subject: string,
    htmlContent: string)

  /** A message service that logs every message handed to it, in order. */
  class MessageService {
    var sent: seq<Message>

    constructor ()
      ensures sent == []
    {
      sent := [];
    }

    method SendMessage(userId: string, email: string, messageType: MessageType, subject: string, htmlContent: string)
      modifies this
      ensures sent == old(sent) + [Message(userId, email, messageType, subject, htmlContent)]
    {
      sent := sent + [Message(userId, email, messageType, subject, htmlContent)];
    }
  }
}
