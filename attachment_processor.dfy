/** The attachment processor: it crosses a list of attachment rules with the
    attachments of the current message, stores each attachment context in the
    shared processing context and hands it off to the substitution-map
    builder. */
module AttachmentProcessing {
  import opened Wrappers
  import opened Contexts
  import opened Sequences
  import opened AttachmentTrace

  /** Why construction fails: a context the processor needs is missing. */
  datatype WiringError = NoThreadContext | NoMessageContext
  {
    /** The text of the thrown error. */
    function Text(): string
    {
      match this
      case NoThreadContext => "Parameter processingContext has no threadContext set!"
      case NoMessageContext => "Parameter processingContext has no messageContext set!"
    }
  }

  /** The constructor's checks, in the order it makes them: the thread
      context first, then the message context. */
  function CheckWiring(threadContext: Option<ThreadContext>, messageContext: Option<MessageContext>)
    : (r: Result<(ThreadContext, MessageContext), WiringError>)
    ensures r.Success? <==> threadContext.Some? && messageContext.Some?
    ensures r.Success? ==> r.value == (threadContext.value, messageContext.value)
    ensures threadContext.None? ==> r == Failure(NoThreadContext)
    ensures r == Failure(NoMessageContext) <==> threadContext.Some? && messageContext.None?
  {
    match threadContext
    case None => Failure(NoThreadContext)
    case Some(tc) =>
      match messageContext
      case None => Failure(NoMessageContext)
      case Some(mc) => Success((tc, mc))
  }

  /** When both contexts are missing, the missing thread context is the one
      reported. */
  lemma ThreadCheckComesFirst(messageContext: Option<MessageContext>)
    ensures CheckWiring(None, messageContext).Failure?
    ensures CheckWiring(None, messageContext).error.Text() == "Parameter processingContext has no threadContext set!"
  {
  }

  class AttachmentProcessor {
    var config: Config
    var threadContext: ThreadContext
    var messageContext: MessageContext
    var processingContext: ProcessingContext

    /** Every `processAttachment` call made so far, in order. */
    ghost var handoffs: seq<Handoff>

    /** Builds a processor from the two contexts that `processingContext`
        holds; `Create` is the checked entry point. */
    constructor (processingContext: ProcessingContext, threadContext: ThreadContext, messageContext: MessageContext)
      requires processingContext.threadContext == Some(threadContext)
      requires processingContext.messageContext == Some(messageContext)
      ensures this.processingContext == processingContext
      ensures config == processingContext.config
      ensures this.threadContext == threadContext
      ensures this.messageContext == messageContext
      ensures handoffs == []
    {
      this.processingContext := processingContext;
      config := processingContext.config;
      this.threadContext := threadContext;
      this.messageContext := messageContext;
      handoffs := [];
    }

    /** Construction: fails fast when the processing context lacks its thread
        or its message context, and otherwise copies the config and both
        contexts from it. The processing context is left unchanged. */
    static method Create(processingContext: ProcessingContext) returns (r: Result<AttachmentProcessor, WiringError>)
      ensures var tc, mc := processingContext.threadContext, processingContext.messageContext;
        match CheckWiring(tc, mc)
        case Failure(e) => r == Failure(e)
        case Success(_) =>
          r.Success? && fresh(r.value) &&
          r.value.processingContext == processingContext &&
          r.value.config == processingContext.config &&
          r.value.threadContext == tc.value &&
          r.value.messageContext == mc.value &&
          r.value.handoffs == []
    {
      match CheckWiring(processingContext.threadContext, processingContext.messageContext)
      case Failure(e) =>
        r := Failure(e);
      case Success(contexts) =>
        var p := new AttachmentProcessor(processingContext, contexts.0, contexts.1);
        r := Success(p);
    }

    /** Processes each rule in turn, all of them, in the order given. */
    method ProcessAttachmentRules(rules: seq<AttachmentConfig>)
      modifies this`handoffs, processingContext`attachmentContext
      ensures handoffs == old(handoffs) + RulesTrace(threadContext, messageContext, rules)
      ensures processingContext.attachmentContext
           == LastPairingSlot(old(processingContext.attachmentContext), messageContext, rules)
      ensures config == old(config) && threadContext == old(threadContext)
      ensures messageContext == old(messageContext) && processingContext == old(processingContext)
      ensures processingContext.config == old(processingContext.config)
      ensures processingContext.threadContext == old(processingContext.threadContext)
      ensures processingContext.messageContext == old(processingContext.messageContext)
    {
      ghost var tc, mc, slot0 := threadContext, messageContext, processingContext.attachmentContext;
      for i := 0 to |rules|
        invariant handoffs == old(handoffs) + RulesTrace(tc, mc, rules[..i])
        invariant processingContext.attachmentContext == LastPairingSlot(slot0, mc, rules[..i])
      {
        ProcessAttachmentRule(rules[i]);
        RulesTracePrefix(tc, mc, rules, i);
        LastPairingSlotPrefix(slot0, mc, rules, i);
      }
      assert rules[..|rules|] == rules;
    }

    /** Crosses `rule` with every attachment of the current message: builds
        the attachment context from the two `indexOf` lookups, stores it in
        the shared slot and hands it off. */
    method ProcessAttachmentRule(rule: AttachmentConfig)
      modifies this`handoffs, processingContext`attachmentContext
      ensures handoffs == old(handoffs) + RuleTrace(threadContext, messageContext, rule)
      ensures processingContext.attachmentContext
           == LastPairingSlot(old(processingContext.attachmentContext), messageContext, [rule])
      ensures config == old(config) && threadContext == old(threadContext)
      ensures messageContext == old(messageContext) && processingContext == old(processingContext)
      ensures processingContext.config == old(processingContext.config)
      ensures processingContext.threadContext == old(processingContext.threadContext)
      ensures processingContext.messageContext == old(processingContext.messageContext)
    {
      ghost var tc, mc, slot0 := threadContext, messageContext, processingContext.attachmentContext;
      var attachments := messageContext.message.attachments;
      for k := 0 to |attachments|
        invariant handoffs == old(handoffs) + RuleSteps(tc, mc, rule, attachments[..k])
        invariant processingContext.attachmentContext
               == if k == 0 then slot0 else Some(ContextFor(mc, rule, attachments[k - 1]))
      {
        var attachment := attachments[k];
        var attachmentContext := AttachmentContext(
          rule,
          attachment,
          IndexOf(messageContext.message.attachments, attachment),
          IndexOf(HandlerOf(messageContext.messageConfig), rule));
        processingContext.attachmentContext := Some(attachmentContext);
        ProcessAttachment(attachmentContext);
        RuleStepsPrefix(tc, mc, rule, attachments, k);
      }
      assert attachments[..|attachments|] == attachments;
    }

    /** Hands one attachment context off to the substitution-map builder with
        the thread, the message index, the attachment index, the message rule
        and the rule index. */
    method ProcessAttachment(attachmentContext: AttachmentContext)
      modifies this`handoffs
      ensures handoffs == old(handoffs) + [Handoff(attachmentContext, RequestFor(threadContext, messageContext, attachmentContext))]
    {
      handoffs := handoffs + [Handoff(attachmentContext, RequestFor(threadContext, messageContext, attachmentContext))];
    }
  }
}
