/** What the attachment processor hands off downstream, as a function of the
    contexts it was built with and the rules it is given.

    Every call of `processAttachment` builds a substitution map from five
    arguments; the map builder itself is outside this model, so a hand-off is
    recorded as the attachment context it was called with together with
    those five arguments. */
module AttachmentTrace {
  import opened Wrappers
  import opened Contexts
  import opened Sequences

  /** The arguments of one `buildSubstitutionMap` call. */
  datatype SubstitutionRequest = SubstitutionRequest(
    thread: Thread,
    messageIndex: int,
    attachmentIndex: int,
    messageConfig: MessageConfig,
    ruleIndex: int)

  /** One call of `processAttachment`. */
  datatype Handoff = Handoff(context: AttachmentContext, request: SubstitutionRequest)

  /** The message rule's attachment rules, an absent list read as empty
      (`handler || []`). */
  function HandlerOf(messageConfig: MessageConfig): (r: seq<AttachmentConfig>)
  {
    match messageConfig.handler
    case None => []
    case Some(rules) => rules
  }

  /** The attachment context built for `rule` and `attachment`. */
  function ContextFor(mc: MessageContext, rule: AttachmentConfig, attachment: Attachment): (r: AttachmentContext)
  {
    AttachmentContext(
      rule,
      attachment,
      IndexOf(mc.message.attachments, attachment),
      IndexOf(HandlerOf(mc.messageConfig), rule))
  }

  /** The arguments `processAttachment` passes to the map builder. */
  function RequestFor(tc: ThreadContext, mc: MessageContext, ctx: AttachmentContext): (r: SubstitutionRequest)
  {
    SubstitutionRequest(tc.thread, mc.index, ctx.index, mc.messageConfig, ctx.ruleIndex)
  }

  /** The hand-off made for one (rule, attachment) pairing. */
  function StepFor(tc: ThreadContext, mc: MessageContext, rule: AttachmentConfig, attachment: Attachment): (r: Handoff)
  {
    var ctx := ContextFor(mc, rule, attachment);
    Handoff(ctx, RequestFor(tc, mc, ctx))
  }

  /** The hand-offs made for `rule` after visiting the attachments `visited`,
      in visiting order. */
  function RuleSteps(tc: ThreadContext, mc: MessageContext, rule: AttachmentConfig, visited: seq<Attachment>): (t: seq<Handoff>)
    ensures |t| == |visited|
    ensures forall i {:trigger t[i]} :: 0 <= i < |t| ==> t[i] == StepFor(tc, mc, rule, visited[i])
  {
    if visited == [] then []
    else RuleSteps(tc, mc, rule, visited[..|visited| - 1]) + [StepFor(tc, mc, rule, visited[|visited| - 1])]
  }

  /** The hand-offs `processAttachmentRule(rule)` makes: one per attachment of
      the current message. */
  function RuleTrace(tc: ThreadContext, mc: MessageContext, rule: AttachmentConfig): (r: seq<Handoff>)
  {
    RuleSteps(tc, mc, rule, mc.message.attachments)
  }

  /** The hand-offs `processAttachmentRules(rules)` makes: the per-rule traces
      one after another, in the order of `rules`. */
  function RulesTrace(tc: ThreadContext, mc: MessageContext, rules: seq<AttachmentConfig>): (r: seq<Handoff>)
  {
    if rules == [] then []
    else RulesTrace(tc, mc, rules[..|rules| - 1]) + RuleTrace(tc, mc, rules[|rules| - 1])
  }

  /** The shared attachment slot after the hand-offs `added`, which each
      stored their context in it first; `slot` is what it held before. */
  function SlotAfter(slot: Option<AttachmentContext>, added: seq<Handoff>): (r: Option<AttachmentContext>)
  {
    if added == [] then slot else Some(added[|added| - 1].context)
  }

  /** The shared attachment slot after `rules` are processed: the context of
      the last rule and the last attachment, or `slot`, what it held before,
      when there is no rule or no attachment. */
  function LastPairingSlot(slot: Option<AttachmentContext>, mc: MessageContext, rules: seq<AttachmentConfig>): (r: Option<AttachmentContext>)
  {
    var atts := mc.message.attachments;
    if rules == [] || atts == [] then slot
    else Some(ContextFor(mc, rules[|rules| - 1], atts[|atts| - 1]))
  }

  // ---------------------------------------------------------------------
  // Count and order

  lemma {:induction false} MulStep(m: nat, n: nat)
    requires 0 < m
    ensures (m - 1) * n + n == m * n
  {
  }

  lemma {:induction false} MulLe(a: nat, b: nat, n: nat)
    requires a <= b
    ensures a * n <= b * n
  {
  }

  /** Every rule is crossed with every attachment: `|rules| * |attachments|`
      hand-offs, none when the message has no attachment. */
  lemma {:induction false} RulesTraceLength(tc: ThreadContext, mc: MessageContext, rules: seq<AttachmentConfig>)
    ensures |RulesTrace(tc, mc, rules)| == |rules| * |mc.message.attachments|
    ensures mc.message.attachments == [] ==> RulesTrace(tc, mc, rules) == []
  {
    if rules != [] {
      RulesTraceLength(tc, mc, rules[..|rules| - 1]);
      MulStep(|rules|, |mc.message.attachments|);
    }
  }

  /** Rules form the outer loop and attachments the inner one: the pairing of
      rule `r` with attachment `i` is hand-off number `r * |attachments| + i`. */
  lemma {:induction false} RulesTraceAt(tc: ThreadContext, mc: MessageContext, rules: seq<AttachmentConfig>, r: nat, i: nat)
    requires r < |rules| && i < |mc.message.attachments|
    ensures r * |mc.message.attachments| + i < |RulesTrace(tc, mc, rules)|
    ensures RulesTrace(tc, mc, rules)[r * |mc.message.attachments| + i]
         == StepFor(tc, mc, rules[r], mc.message.attachments[i])
  {
    var n := |mc.message.attachments|;
    var front := rules[..|rules| - 1];
    RulesTraceLength(tc, mc, rules);
    RulesTraceLength(tc, mc, front);
    if r < |rules| - 1 {
      MulLe(r + 1, |rules| - 1, n);
      RulesTraceAt(tc, mc, front, r, i);
    }
  }

  /** One more attachment visited adds its hand-off. */
  lemma RuleStepsPrefix(tc: ThreadContext, mc: MessageContext, rule: AttachmentConfig, atts: seq<Attachment>, k: nat)
    requires k < |atts|
    ensures RuleSteps(tc, mc, rule, atts[..k + 1]) == RuleSteps(tc, mc, rule, atts[..k]) + [StepFor(tc, mc, rule, atts[k])]
  {
    assert atts[..k + 1][..k] == atts[..k];
  }

  /** One more rule processed moves the slot on as that rule alone would. */
  lemma LastPairingSlotPrefix(slot: Option<AttachmentContext>, mc: MessageContext, rules: seq<AttachmentConfig>, i: nat)
    requires i < |rules|
    ensures LastPairingSlot(slot, mc, rules[..i + 1]) == LastPairingSlot(LastPairingSlot(slot, mc, rules[..i]), mc, [rules[i]])
  {
  }

  /** One more rule processed adds that rule's hand-offs. */
  lemma RulesTracePrefix(tc: ThreadContext, mc: MessageContext, rules: seq<AttachmentConfig>, i: nat)
    requires i < |rules|
    ensures RulesTrace(tc, mc, rules[..i + 1]) == RulesTrace(tc, mc, rules[..i]) + RuleTrace(tc, mc, rules[i])
  {
    assert rules[..i + 1][..i] == rules[..i];
  }

  /** Processing two lists of rules one after the other hands off the same as
      processing their concatenation. */
  lemma {:induction false} RulesTraceAppend(tc: ThreadContext, mc: MessageContext, rs1: seq<AttachmentConfig>, rs2: seq<AttachmentConfig>)
    ensures RulesTrace(tc, mc, rs1 + rs2) == RulesTrace(tc, mc, rs1) + RulesTrace(tc, mc, rs2)
  {
    if rs2 == [] {
      assert rs1 + rs2 == rs1;
    } else {
      var front := rs2[..|rs2| - 1];
      assert (rs1 + rs2)[..|rs1 + rs2| - 1] == rs1 + front;
      RulesTraceAppend(tc, mc, rs1, front);
    }
  }

  /** The hand-offs are exactly the pairings of a listed rule with an
      attachment of the message. */
  lemma {:induction false} RulesTraceMembers(tc: ThreadContext, mc: MessageContext, rules: seq<AttachmentConfig>, h: Handoff)
    ensures h in RulesTrace(tc, mc, rules)
        <==> exists rule, a :: rule in rules && a in mc.message.attachments && h == StepFor(tc, mc, rule, a)
  {
    var atts := mc.message.attachments;
    if rules != [] {
      var front, last := rules[..|rules| - 1], rules[|rules| - 1];
      assert rules == front + [last];
      RulesTraceMembers(tc, mc, front, h);
      var steps := RuleTrace(tc, mc, last);
      if h in steps {
        var i :| 0 <= i < |steps| && steps[i] == h;
        assert last in rules && atts[i] in atts;
      }
      if exists rule, a :: rule in rules && a in atts && h == StepFor(tc, mc, rule, a) {
        var rule, a :| rule in rules && a in atts && h == StepFor(tc, mc, rule, a);
        if rule !in front {
          assert rule == last;
          var i :| 0 <= i < |atts| && atts[i] == a;
          assert steps[i] == h;
        }
      }
    }
  }

  // ---------------------------------------------------------------------
  // The two indices and the hand-off arguments

  /** Every recorded attachment index is the first position of that
      attachment in the message's list, so it lies within the list. */
  lemma AttachmentIndexIsFirstOccurrence(tc: ThreadContext, mc: MessageContext, rules: seq<AttachmentConfig>)
    ensures forall h :: h in RulesTrace(tc, mc, rules) ==>
      var atts, k := mc.message.attachments, h.request.attachmentIndex;
      0 <= k < |atts| && atts[k] == h.context.attachment && h.context.attachment !in atts[..k]
  {
    forall h | h in RulesTrace(tc, mc, rules)
      ensures 0 <= h.request.attachmentIndex < |mc.message.attachments|
      ensures h.context.attachment !in mc.message.attachments[..h.request.attachmentIndex]
    {
      RulesTraceMembers(tc, mc, rules, h);
      IndexOfIsFirst(mc.message.attachments, h.context.attachment);
    }
  }

  /** When the message's attachments are distinct, the attachment index of
      the pairing of rule `r` with attachment `i` is the loop position `i`. */
  lemma AttachmentIndexIsLoopPosition(tc: ThreadContext, mc: MessageContext, rules: seq<AttachmentConfig>, r: nat, i: nat)
    requires r < |rules| && i < |mc.message.attachments|
    requires Distinct(mc.message.attachments)
    ensures r * |mc.message.attachments| + i < |RulesTrace(tc, mc, rules)|
    ensures RulesTrace(tc, mc, rules)[r * |mc.message.attachments| + i].request.attachmentIndex == i
  {
    RulesTraceAt(tc, mc, rules, r, i);
    IndexOfElement(mc.message.attachments, i);
  }

  /** Every recorded rule index is the rule's first position in the message
      rule's `handler` list, and -1 exactly when `handler` is absent or does
      not hold the rule. */
  lemma RuleIndexIsFirstInHandler(tc: ThreadContext, mc: MessageContext, rules: seq<AttachmentConfig>)
    ensures forall h :: h in RulesTrace(tc, mc, rules) ==>
      var handler, rule, k := mc.messageConfig.handler, h.context.attachmentConfig, h.request.ruleIndex;
      (k == -1 <==> handler == None || rule !in handler.value) &&
      (k != -1 ==> handler.Some? && 0 <= k < |handler.value| && handler.value[k] == rule && rule !in handler.value[..k])
  {
    forall h | h in RulesTrace(tc, mc, rules)
      ensures h.context.ruleIndex == IndexOf(HandlerOf(mc.messageConfig), h.context.attachmentConfig)
      ensures var k := h.context.ruleIndex; 0 <= k ==> h.context.attachmentConfig !in HandlerOf(mc.messageConfig)[..k]
    {
      RulesTraceMembers(tc, mc, rules, h);
      IndexOfIsFirst(HandlerOf(mc.messageConfig), h.context.attachmentConfig);
    }
  }

  /** The rule index depends on the rule only: all hand-offs made under the
      same rule carry the same rule index. */
  lemma RuleIndexUniformPerRule(tc: ThreadContext, mc: MessageContext, rules: seq<AttachmentConfig>)
    ensures forall h1, h2 ::
      h1 in RulesTrace(tc, mc, rules) && h2 in RulesTrace(tc, mc, rules) &&
      h1.context.attachmentConfig == h2.context.attachmentConfig
      ==> h1.request.ruleIndex == h2.request.ruleIndex
  {
    forall h | h in RulesTrace(tc, mc, rules)
      ensures h.request.ruleIndex == IndexOf(HandlerOf(mc.messageConfig), h.context.attachmentConfig)
    {
      RulesTraceMembers(tc, mc, rules, h);
    }
  }

  /** Every hand-off passes the current thread, the message's index and the
      message rule unchanged, and the indices of the context it was made for. */
  lemma HandoffArguments(tc: ThreadContext, mc: MessageContext, rules: seq<AttachmentConfig>)
    ensures forall h :: h in RulesTrace(tc, mc, rules) ==>
      h.request == SubstitutionRequest(tc.thread, mc.index, h.context.index, mc.messageConfig, h.context.ruleIndex)
  {
    forall h | h in RulesTrace(tc, mc, rules)
      ensures h.request == RequestFor(tc, mc, h.context)
    {
      RulesTraceMembers(tc, mc, rules, h);
    }
  }

  // ---------------------------------------------------------------------
  // The shared attachment slot

  lemma SlotAfterAppend(slot: Option<AttachmentContext>, a: seq<Handoff>, b: seq<Handoff>)
    ensures SlotAfter(SlotAfter(slot, a), b) == SlotAfter(slot, a + b)
  {
    if b != [] {
      assert (a + b)[|a + b| - 1] == b[|b| - 1];
    } else {
      assert a + b == a;
    }
  }

  /** The slot always ends up holding the context of the last hand-off made:
      the context built for the last rule and the last attachment. Without a
      rule or an attachment it keeps what it held. */
  lemma {:induction false} SlotHoldsLastPairing(tc: ThreadContext, mc: MessageContext, rules: seq<AttachmentConfig>, slot: Option<AttachmentContext>)
    ensures SlotAfter(slot, RulesTrace(tc, mc, rules)) == LastPairingSlot(slot, mc, rules)
  {
    if rules != [] {
      var front := rules[..|rules| - 1];
      SlotAfterAppend(slot, RulesTrace(tc, mc, front), RuleTrace(tc, mc, rules[|rules| - 1]));
      SlotHoldsLastPairing(tc, mc, front, slot);
      RulesTraceLength(tc, mc, front);
    }
  }

  // ---------------------------------------------------------------------
  // Scenarios

  /** Two rules listed in `handler` and two attachments give four hand-offs,
      rule-major, with rule indices 0, 0, 1, 1 and attachment indices
      0, 1, 0, 1. */
  lemma TwoRulesTwoAttachments(tc: ThreadContext, ruleA: AttachmentConfig, ruleB: AttachmentConfig,
                               a0: Attachment, a1: Attachment, msgHandle: nat, cfgHandle: nat, index: int)
    requires ruleA != ruleB && a0 != a1
    ensures var mc := MessageContext(Message(msgHandle, [a0, a1]), MessageConfig(cfgHandle, Some([ruleA, ruleB])), index);
      var t := RulesTrace(tc, mc, [ruleA, ruleB]);
      |t| == 4 &&
      t[0].context == AttachmentContext(ruleA, a0, 0, 0) &&
      t[1].context == AttachmentContext(ruleA, a1, 1, 0) &&
      t[2].context == AttachmentContext(ruleB, a0, 0, 1) &&
      t[3].context == AttachmentContext(ruleB, a1, 1, 1)
  {
    var mc := MessageContext(Message(msgHandle, [a0, a1]), MessageConfig(cfgHandle, Some([ruleA, ruleB])), index);
    var rules := [ruleA, ruleB];
    RulesTraceLength(tc, mc, rules);
    RulesTraceAt(tc, mc, rules, 0, 0);
    RulesTraceAt(tc, mc, rules, 0, 1);
    RulesTraceAt(tc, mc, rules, 1, 0);
    RulesTraceAt(tc, mc, rules, 1, 1);
    assert [a0, a1][1..] == [a1];
    assert [ruleA, ruleB][1..] == [ruleB];
  }

  /** A message rule without `handler` makes every rule index -1. */
  lemma NoHandlerMeansUnmatched(tc: ThreadContext, mc: MessageContext, rules: seq<AttachmentConfig>)
    requires mc.messageConfig.handler == None
    ensures forall h :: h in RulesTrace(tc, mc, rules) ==> h.request.ruleIndex == -1
  {
    RuleIndexIsFirstInHandler(tc, mc, rules);
  }
}
