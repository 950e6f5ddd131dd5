/** The values the attachment processor works on: host objects from the mail
    service, configuration rules and the per-level context objects.

    JavaScript compares these objects by reference (`indexOf` uses `===`).
    Each datatype below that stands for a host object or a configuration
    object carries a `handle` that plays the part of that reference: two
    values are the same object exactly when they are equal. */
module Contexts {
  import opened Wrappers

  /** A mail thread, opaque to this model (read only by code outside it). */
  datatype Thread = Thread(handle: nat)

  /** An attachment of a message. */
  datatype Attachment = Attachment(handle: nat)

  /** A message; `attachments` is what `getAttachments()` returns, the same
      sequence on every call. */
  datatype Message = Message(handle: nat, attachments: seq<Attachment>)

  /** An attachment-level rule (`AttachmentConfig`). */
  datatype AttachmentConfig = AttachmentConfig(handle: nat)

  /** A message-level rule (`MessageConfig`); `handler`, the ordered list of
      attachment rules nested in it, may be undefined. */
  datatype MessageConfig = MessageConfig(handle: nat, handler: Option<seq<AttachmentConfig>>)

  /** The global configuration, opaque to this model. */
  datatype Config = Config(handle: nat)

  /** The thread being processed. */
  datatype ThreadContext = ThreadContext(thread: Thread)

  /** The message being processed, the rule it matched and its position in
      its thread. */
  datatype MessageContext = MessageContext(message: Message, messageConfig: MessageConfig, index: int)

  /** One (rule, attachment) pairing: the attachment's position in its message
      and the rule's position in the message rule's `handler` list. */
  datatype AttachmentContext = AttachmentContext(
    attachmentConfig: AttachmentConfig,
    attachment: Attachment,
    index: int,
    ruleIndex: int)

  /** The traversal state shared by the processors of all levels. Its
      contexts may be missing; the attachment slot is overwritten by the
      attachment processor. */
  class ProcessingContext {
    var config: Config
    var threadContext: Option<ThreadContext>
    var messageContext: Option<MessageContext>
    var attachmentContext: Option<AttachmentContext>

    constructor (config: Config, threadContext: Option<ThreadContext>, messageContext: Option<MessageContext>)
      ensures this.config == config
      ensures this.threadContext == threadContext
      ensures this.messageContext == messageContext
      ensures attachmentContext == None
    {
      this.config := config;
      this.threadContext := threadContext;
      this.messageContext := messageContext;
      attachmentContext := None;
    }
  }
}
