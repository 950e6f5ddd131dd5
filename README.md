# Attachment processing in gmail2gdrive, modelled in Dafny

gmail2gdrive walks mail threads, their messages and their attachments, and
matches them against user-defined rules. This project models the
attachment level of that traversal, the `AttachmentProcessor` class:

- **Construction.** The processor is built from a shared *processing
  context*. It fails fast when that context has no thread context, or when
  it has no message context. The thread check comes first. On success the
  processor copies the config and both contexts.
- **`processAttachmentRules(rules)`.** Runs `processAttachmentRule` for
  every rule, in the order given, and never stops early.
- **`processAttachmentRule(rule)`.** Visits every attachment of the current
  message. For each one it builds an *attachment context* from two
  `indexOf` lookups. The first gives the attachment's position in the
  message's attachment list. The second gives the rule's position in the
  message rule's `handler` list, where a missing list reads as empty
  (`handler || []`). The processor then writes the context into the shared
  `attachmentContext` slot, overwriting what was there, and calls
  `processAttachment` with it.
- **`processAttachment(ctx)`.** Hands the thread, the message index, the
  attachment index, the message rule and the rule index to the
  substitution-map builder.

Files:

- `wrappers.dfy` defines `Option`, which stands for `undefined`, and
  `Result`, which stands for a thrown error.
- `contexts.dfy` defines the host objects, the rules and the context
  objects as values, plus the shared `ProcessingContext` as a class with
  mutable fields.
- `sequences.dfy` models JavaScript's `indexOf`.
- `attachment_trace.dfy` is the specification. It gives the sequence of
  hand-offs that a call makes as a function of its inputs. The lemmas prove
  the count, the order, the index properties and the slot contents.
  `HandlerOf` stands for `handler || []` (`AttachmentProcessor.ts:49`), and
  `ContextFor` for the attachment context built at lines 45-50.
- `attachment_processor.dfy` holds the class `AttachmentProcessor`. Its
  methods carry the source's loops, and each method's `ensures` ties its
  effect to the specification functions. `WiringError.Text` gives the
  messages thrown at lines 28 and 33.

JavaScript objects are compared by reference. Every value that stands for
an object carries a `handle`, so two values are equal exactly when they are
the same object. A *hand-off* is one `processAttachment` call. The
processor keeps every hand-off in a ghost field, `handoffs`. Each entry
records the attachment context the call received and the five arguments it
passed on.

## Model

| member | source | states |
|---|---|---|
| `Sequences.IndexOf` | src/processors/AttachmentProcessor.ts:48-49 | `indexOf` returns -1 exactly when the element is absent. Otherwise it returns a position in range that holds the element. |
| `Sequences.IndexOfIsFirst` | src/processors/AttachmentProcessor.ts:48-49 | The position `indexOf` finds is the first one: the element does not occur before it. |
| `Sequences.IndexOfElement` | src/processors/AttachmentProcessor.ts:44-48 | Looking up the element at position `i` gives a position no later than `i`. The result is exactly `i` when the list has no duplicates. |
| `AttachmentTrace.RuleSteps` | src/processors/AttachmentProcessor.ts:44-53 | Visiting attachments under one rule makes one hand-off per visited attachment. Hand-off `i` is the one built for attachment `i` under that rule. |
| `AttachmentTrace.RulesTraceLength` | src/processors/AttachmentProcessor.ts:37-54 | Processing `rules` makes exactly `|rules| * |attachments|` hand-offs, and none when the message has no attachment. |
| `AttachmentTrace.RulesTraceAt` | src/processors/AttachmentProcessor.ts:37-54 | The rule is the outer loop and the attachment the inner one: hand-off `r * |attachments| + i` pairs rule `r` with attachment `i`. |
| `AttachmentTrace.RulesTraceAppend` | src/processors/AttachmentProcessor.ts:37-41 | Processing `rs1 ++ rs2` makes the hand-offs of `rs1` followed by those of `rs2`. So the whole trace is the per-rule traces concatenated, with no rule skipped. |
| `AttachmentTrace.RulesTraceMembers` | src/processors/AttachmentProcessor.ts:37-54 | A hand-off is made if and only if it is the pairing of a listed rule with an attachment of the message. |
| `AttachmentTrace.AttachmentIndexIsFirstOccurrence` | src/processors/AttachmentProcessor.ts:44-48 | Every recorded attachment index lies in `[0, |attachments|)`. The list holds the hand-off's attachment at that index, and nowhere before it. |
| `AttachmentTrace.AttachmentIndexIsLoopPosition` | src/processors/AttachmentProcessor.ts:44-48 | When the attachments are distinct, the recorded attachment index equals the inner loop's position. |
| `AttachmentTrace.RuleIndexIsFirstInHandler` | src/processors/AttachmentProcessor.ts:49 | Every recorded rule index is -1 exactly when `handler` is absent or does not hold the rule. Otherwise it is the rule's first position in `handler`. |
| `AttachmentTrace.RuleIndexUniformPerRule` | src/processors/AttachmentProcessor.ts:49 | All hand-offs made under the same rule carry the same rule index. |
| `AttachmentTrace.NoHandlerMeansUnmatched` | src/processors/AttachmentProcessor.ts:49 | When the message rule has no `handler`, every rule index is -1. |
| `AttachmentTrace.HandoffArguments` | src/processors/AttachmentProcessor.ts:56-64 | Every hand-off passes the same thread, the message context's index and the message rule. It also passes the attachment and rule indices of its own context. |
| `AttachmentTrace.SlotHoldsLastPairing` | src/processors/AttachmentProcessor.ts:44-51 | The slot ends up holding the context of the last hand-off, which is the context built for the last rule and the last attachment. With no rule or no attachment the slot keeps its old value. |
| `AttachmentTrace.TwoRulesTwoAttachments` | src/processors/AttachmentProcessor.ts:37-54 | With `handler = [A, B]` and attachments `[a0, a1]` there are exactly four hand-offs, in the order (A,a0), (A,a1), (B,a0), (B,a1). Their (attachment index, rule index) pairs are (0,0), (1,0), (0,1), (1,1). |
| `AttachmentProcessing.CheckWiring` | src/processors/AttachmentProcessor.ts:25-34 | Construction succeeds exactly when both contexts are present, and then yields those two contexts. A missing thread context is always the error reported. A missing message context is reported only when the thread context is present. |
| `AttachmentProcessing.ThreadCheckComesFirst` | src/processors/AttachmentProcessor.ts:25-29 | Without a thread context, construction fails with the thread-context message, whatever the message context is. |
| `AttachmentProcessing.AttachmentProcessor.constructor` | src/processors/AttachmentProcessor.ts:18-35 | Requires the two contexts to be the ones the processing context holds, which is what the checks at lines 25-34 establish. The processor keeps the processing context, copies its config and stores those two contexts. It starts with no hand-off. |
| `AttachmentProcessing.AttachmentProcessor.Create` | src/processors/AttachmentProcessor.ts:18-35 | Returns the wiring error when a context is missing, and then builds no processor. Otherwise it returns a fresh processor whose config and contexts are those of the processing context. |
| `AttachmentProcessing.AttachmentProcessor.ProcessAttachmentRules` | src/processors/AttachmentProcessor.ts:37-41 | Appends exactly `RulesTrace(rules)` to the hand-offs, and the slot ends as `LastPairingSlot`. Nothing else changes: not the config, not the processor's or the processing context's thread and message contexts, not the processing-context reference. |
| `AttachmentProcessing.AttachmentProcessor.ProcessAttachmentRule` | src/processors/AttachmentProcessor.ts:43-54 | Appends one hand-off per attachment, in list order. The slot ends holding the last attachment's context, or keeps its value when there are no attachments. Only the slot and the hand-offs change. |
| `AttachmentProcessing.AttachmentProcessor.ProcessAttachment` | src/processors/AttachmentProcessor.ts:56-67 | Appends one hand-off carrying the thread, the message index, the context's attachment index, the message rule and the context's rule index. |

## Left out

- `gmailApp`, the host mail service, is left out. Each message's attachment list is a given, immutable sequence. `getAttachments()` is called twice at `AttachmentProcessor.ts:44` and `:48`, and the model assumes both calls return the same sequence of the same objects. If the host returned new wrapper objects on the second call, the `indexOf` at line 48 would find nothing. The model does not cover that case.
- `actionProvider.getActions()` and the `actions` field (line 23) are left out. This is a foreign call, and the code shown never uses its result.
- The `logger` field, the assignment to `PatternUtil.logger` (line 57) and the two `log` calls (lines 65-66) are left out. They are I/O only.
- `PatternUtil.buildSubstitutionMap` is not part of this model. A hand-off records the arguments it was called with and nothing about the map it builds. The model also does not cover an error thrown by the builder: every hand-off is assumed to return.
- Pattern evaluation, date formatting, conflict strategies and storing an attachment are left out. They appear only in the commented-out `processAttachmentRule_old` (lines 69-94), which is not live code.
- The message and thread processors and `GmailProcessor` are not part of this model. `GmailProcessor.spec.ts` only counts mocked `search` calls on a class outside the model.
- The contents of `Config`, `ThreadContext` and `MessageContext` are left out, apart from the fields this class reads: `thread`, `message`, `messageConfig` and `index`. `ProcessingContext` is modelled by its four slots. Its constructor in `contexts.dfy` is a convenience for building one, not a model of its source.
- JavaScript truthiness is reduced to present or absent. The checks at lines 25 and 30 test object-valued fields, which are falsy only when `undefined` or `null`.
- `processAttachmentRule` stores a context in the slot before each hand-off. The model checks the slot only between top-level calls, not what a nested collaborator could observe during a hand-off.
- `processAttachment` only builds the substitution map and logs it (lines 56-67). The code evaluates no pattern and calls no action dispatcher, so the model has neither.
- Nothing in this class catches an error (lines 37-67), so there is no per-item error isolation to model: an exception thrown during a hand-off ends the whole traversal.
