# Outgoing message mutation stage

A model of NServiceBus's `MutateOutgoingMessageBehavior`, the pipeline stage
that lets every registered outgoing message mutator (`IMutateOutgoingMessages`)
rewrite an outgoing logical message before it continues down the outgoing
pipeline. One invocation of the stage:

1. looks up the incoming logical message and the incoming physical message in
   the context's extension bag, with lookups that report absence instead of
   failing;
2. builds a mutator context from the current outgoing instance and the
   outgoing header dictionary, plus the incoming instance and incoming headers,
   or null for each one the bag does not hold;
3. calls every mutator the builder resolves, one after another, each on the
   same mutator context;
4. replaces the context's message instance with the mutator context's final
   outgoing message only if the mutator context reports `MessageInstanceChanged`;
5. calls the rest of the pipeline (`next`).

Modules:

- `Wrappers`: `Option`, standing for a reference that may be null.
- `Messages`: message references (`Ref`, where `Null` is C#'s null), header
  maps, the incoming logical and physical messages, and `HeaderDictionary`, the
  mutable header dictionary that the outgoing context and the mutator context
  share by reference.
- `Extensions`: the extension bag as a map from a type key to a value of that
  type (possibly a stored null), its `Set` and the two non-throwing lookups the
  stage uses, which report whether a value was found and which.
- `Mutation`: the mutator context as a class (`MutateOutgoingMessageContext`),
  mutators as arbitrary transformers of what they can see and change of it,
  and `RunMutators`, the specification of the mutator loop, with its lemmas.
- `MutateOutgoingMessageBehavior`: the outgoing context and the `next`
  continuation as classes, `Invoke` (the stage itself, with its loop), and
  `StageEffect`, a function giving the effect of one invocation on values.
  `Invoke`'s postcondition equates the new state of the context and of the
  continuation with `StageEffect` of the old state. The properties the stage
  promises are lemmas about `StageEffect` and `RunMutators`.

Modelling choices:

- A message instance is opaque to the stage, so it is modelled by its identity
  (`Ref`). "The same reference goes forward" is equality of `Ref`s.
- The outgoing headers are one `HeaderDictionary` object held by both the
  outgoing context and the mutator context. A header edit made by a mutator is
  therefore on the outgoing context at once, with no update step. This holds
  even when a later mutator faults.
- A mutator is a function from the mutator context's contents to the outgoing
  message, header content and change flag it leaves behind, plus an optional
  fault. The flag is independent of the outgoing message: the C# body of the
  mutator context's setter is not in the source files modelled, so the model
  does not guess how it raises the flag. A mutator that
  faults may already have made changes, and they stay.
- The mutator context's change flag starts clear. That is C#'s default for a
  `bool` field; the C# body of the context's constructor is not in the source
  files modelled.
- `next` is a `Continuation` object. Each call records a snapshot of the
  outgoing context's instance and headers, so the record shows both how many
  times `next` ran and what it saw. The rest of the pipeline ends with a given
  outcome, and a fault from it propagates out of the stage.
- Awaiting is modelled as plain sequential calls. The builder's `BuildAll`
  is an input sequence of mutators.

The two lookups at
src/NServiceBus.Core/Pipeline/MutateInstanceMessage/MutateOutgoingMessageBehavior.cs:15-25
are independent, so either incoming message can be present without the other;
`IncomingLookupsIndependent` states this. The stage keeps only each lookup's
out value and applies `?.` to it, so the mutators get null for an incoming
message that is absent and also for one stored in the bag as null;
`StoredNullLikeAbsent` states this. The incoming instance is also null when the
incoming logical message's own instance is null; `IncomingInstanceNullIff`
states all three cases.

## Model

| member | source | states |
|---|---|---|
| `Extensions.TryGetLogicalMessage` | src/NServiceBus.Core/Pipeline/MutateInstanceMessage/MutateOutgoingMessageBehavior.cs:15-16 | the lookup of the incoming logical message reports found exactly when the bag holds a value under its type, and then returns the stored value, which may be null; absence is a result, not a failure |
| `Extensions.TryGetIncomingMessage` | src/NServiceBus.Core/Pipeline/MutateInstanceMessage/MutateOutgoingMessageBehavior.cs:18-19 | the lookup of the incoming physical message reports found exactly when the bag holds a value under its type, and then returns the stored value, which may be null |
| `Extensions.SetThenTryGet` | src/NServiceBus.Core/Pipeline/MutateInstanceMessage/MutateOutgoingMessageBehavior.cs:15-19 | a value stored in the bag, null included, is found again by the lookup for its type |
| `Extensions.LookupsIndependent` | src/NServiceBus.Core/Pipeline/MutateInstanceMessage/MutateOutgoingMessageBehavior.cs:15-19 | storing a value of any other type leaves each lookup's result unchanged, so the two lookups do not depend on each other |
| `Mutation.RunMutators` | src/NServiceBus.Core/Pipeline/MutateInstanceMessage/MutateOutgoingMessageBehavior.cs:27-30 | the mutator loop: without a fault every mutator is called; with a fault between one and all of them are; no mutator can change the incoming instance or headers |
| `Mutation.FaultIsFinal` | src/NServiceBus.Core/Pipeline/MutateInstanceMessage/MutateOutgoingMessageBehavior.cs:27-30 | once the mutators up to some position have faulted, no later mutator changes anything |
| `Mutation.RunMutatorsAppend` | src/NServiceBus.Core/Pipeline/MutateInstanceMessage/MutateOutgoingMessageBehavior.cs:27-30 | running mutators a then b is running b over the context a left, and b never runs when a faulted |
| `Mutation.MutatorSeesPredecessor` | src/NServiceBus.Core/Pipeline/MutateInstanceMessage/MutateOutgoingMessageBehavior.cs:27-30 | after a sequence of mutators completes, the next mutator is called with the context as they left it |
| `Mutation.SecondMutatorSeesFirst` | src/NServiceBus.Core/Pipeline/MutateInstanceMessage/MutateOutgoingMessageBehavior.cs:27-30 | with mutators A then B, B is called with the context A produced, not the original one |
| `Mutation.FaultStopsAtMutator` | src/NServiceBus.Core/Pipeline/MutateInstanceMessage/MutateOutgoingMessageBehavior.cs:27-30 | when the loop faults, every mutator before the last one called completed, and the last one was called with the context they left and raised the fault |
| `Mutation.ThrowingMutatorStopsLoop` | src/NServiceBus.Core/Pipeline/MutateInstanceMessage/MutateOutgoingMessageBehavior.cs:27-30 | when the mutators before position k complete and the one at k faults, the loop ends there with k+1 mutators called and that mutator's changes in place |
| `Mutation.FlagStaysClear` | src/NServiceBus.Core/Pipeline/MutateInstanceMessage/MutateOutgoingMessageBehavior.cs:27-32 | if the flag starts clear and no mutator raises it, it is still clear after the loop |
| `Mutation.MutateOutgoingMessageContext.constructor` | src/NServiceBus.Core/Pipeline/MutateInstanceMessage/MutateOutgoingMessageBehavior.cs:21-25 | the mutator context holds the given outgoing instance, the outgoing header dictionary itself, the incoming instance and headers, and a clear change flag |
| `Mutation.MutateOutgoingMessageContext.Apply` | src/NServiceBus.Core/Pipeline/MutateInstanceMessage/MutateOutgoingMessageBehavior.cs:29 | one mutator call leaves its changes on the mutator context (header changes on the shared dictionary) and returns its fault, if any |
| `MutateOutgoingMessageBehavior.OutgoingLogicalMessageContext.UpdateMessageInstance` | src/NServiceBus.Core/Pipeline/MutateInstanceMessage/MutateOutgoingMessageBehavior.cs:34 | the given instance becomes the context's message instance |
| `MutateOutgoingMessageBehavior.Continuation.Call` | src/NServiceBus.Core/Pipeline/MutateInstanceMessage/MutateOutgoingMessageBehavior.cs:37 | each call of next records the context's instance and headers as it sees them, and returns the rest of the pipeline's outcome |
| `MutateOutgoingMessageBehavior.InitialView` | src/NServiceBus.Core/Pipeline/MutateInstanceMessage/MutateOutgoingMessageBehavior.cs:15-25 | the mutator context starts with the current instance and headers and a clear flag; its incoming instance is null when the bag has no incoming logical message or holds a null for it, and that message's instance otherwise; its incoming headers are absent exactly when the bag has no incoming physical message or holds a null for it, and otherwise they are that message's headers |
| `MutateOutgoingMessageBehavior.Invoke` | src/NServiceBus.Core/Pipeline/MutateInstanceMessage/MutateOutgoingMessageBehavior.cs:13-38 | the stage leaves the context's instance and headers, the record of next's calls and the outcome exactly as StageEffect gives them for the old state |
| `MutateOutgoingMessageBehavior.IncomingInstanceNullIff` | src/NServiceBus.Core/Pipeline/MutateInstanceMessage/MutateOutgoingMessageBehavior.cs:15-24 | the incoming instance given to the mutators is null exactly when the bag has no incoming logical message, holds a null for it, or holds one whose instance is null |
| `MutateOutgoingMessageBehavior.StoredNullLikeAbsent` | src/NServiceBus.Core/Pipeline/MutateInstanceMessage/MutateOutgoingMessageBehavior.cs:15-25 | for the mutators, a null stored under an incoming message's type gives the same incoming instance and headers as no entry at all |
| `MutateOutgoingMessageBehavior.IncomingLookupsIndependent` | src/NServiceBus.Core/Pipeline/MutateInstanceMessage/MutateOutgoingMessageBehavior.cs:15-25 | storing an incoming physical message does not change the incoming instance given to the mutators, and storing an incoming logical message does not change the incoming headers |
| `MutateOutgoingMessageBehavior.ReplyCarriesIncoming` | src/NServiceBus.Core/Pipeline/MutateInstanceMessage/MutateOutgoingMessageBehavior.cs:15-25 | with both incoming messages in the bag the mutators get their instance and headers; with an empty bag they get null for both |
| `MutateOutgoingMessageBehavior.NextCalledIffMutatorsComplete` | src/NServiceBus.Core/Pipeline/MutateInstanceMessage/MutateOutgoingMessageBehavior.cs:27-37 | next is called exactly when every mutator was called and none faulted, and the stage then ends as next does; otherwise it ends with the mutator's fault |
| `MutateOutgoingMessageBehavior.NoMutatorsPassThrough` | src/NServiceBus.Core/Pipeline/MutateInstanceMessage/MutateOutgoingMessageBehavior.cs:27-37 | with no mutators the instance and headers are unchanged and next is called once |
| `MutateOutgoingMessageBehavior.InstanceReplacedOnlyWhenFlagged` | src/NServiceBus.Core/Pipeline/MutateInstanceMessage/MutateOutgoingMessageBehavior.cs:32-35 | with the flag clear the original reference goes forward; with it raised and no fault the mutator context's final outgoing message goes forward; a different instance goes forward only in that case |
| `MutateOutgoingMessageBehavior.ClearFlagKeepsInstance` | src/NServiceBus.Core/Pipeline/MutateInstanceMessage/MutateOutgoingMessageBehavior.cs:27-35 | when no mutator raises the change flag, the original reference goes forward whatever the mutators did to the outgoing message |
| `MutateOutgoingMessageBehavior.FaultingMutatorStopsStage` | src/NServiceBus.Core/Pipeline/MutateInstanceMessage/MutateOutgoingMessageBehavior.cs:27-37 | a mutator that faults stops the stage: no later mutator, no instance update and no call of next; the stage ends with that fault and the header changes made so far stay |

## Left out

- Asynchrony: `Task`, `await` and `ConfigureAwait(false)` are modelled as plain sequential calls. There is no interleaving within one invocation.
- Dependency injection: `Builder.BuildAll<IMutateOutgoingMessages>()` is an input sequence of mutators, in the order the builder returns them.
- What individual mutators do is user code. Each mutator is an arbitrary function of the mutator context. A mutator's own state, and any effect it has outside the mutator context, is not modelled.
- The C# bodies of `MutateOutgoingMessageContext`'s constructor and of its `OutgoingMessage` setter are not in the source files modelled. The model assumes a clear initial flag that the mutators set directly.
- Mutators are modelled as unable to change the incoming headers. In C#, the incoming physical message's header dictionary is also reachable through the mutator context; edits to it are not modelled.
- The C# body of `OutgoingLogicalMessageContext.UpdateMessageInstance` is not in the source files modelled. The model assumes a plain replacement of the instance reference; any message-type bookkeeping it does is left out.
- `next` stands for the rest of the pipeline. It is modelled as observing the context and ending with a given outcome. What the later stages change is outside this stage.
- The extension bag's parent bag and `GetOrCreate` are not part of this model. Only `Set` and the two lookups the stage uses are modelled.
- src/host/NServiceBus.Host/Program.cs is process bootstrap: configuration files, assembly scanning, reflection and service registration. It is I/O with no stage logic, so it is left out.
- src/NServiceBus.Core.Tests/DataBus/When_applying_the_databus_message_mutator_to_null_properties.cs exercises `DataBusSendBehavior`. `DataBusSendBehavior`, its serializer and `Conventions` are not part of this model.
