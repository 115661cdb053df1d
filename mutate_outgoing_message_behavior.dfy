/**
 * MutateOutgoingMessageBehavior: the pipeline stage that lets every registered
 * outgoing mutator rewrite the outgoing logical message before it goes on.
 * It looks up the incoming messages that may be in the context's bag, builds a
 * mutator context, runs the mutators one after another, replaces the context's
 * message instance only when a mutator reported a change, and then calls the
 * rest of the pipeline.
 */
module MutateOutgoingMessageBehavior {
  import opened Wrappers
  import opened Messages
  import opened Extensions
  import opened Mutation

  /** How an invocation ends: normally, or with the fault that propagated out of it. */
  datatype Outcome = Success | Fault(error: string)

  /** The builder's registrations; BuildAll resolves them afresh on each call, in order. */
  datatype Builder = Builder(outgoingMutators: seq<Mutator>) {
    function BuildAll(): seq<Mutator> {
      outgoingMutators
    }
  }

  /** What the rest of the pipeline sees of the outgoing context when it is called. */
  datatype Snapshot = Snapshot(instance: Ref, headers: Headers)

  /** The parts of OutgoingLogicalMessageContext that this stage reads and changes. */
  class OutgoingLogicalMessageContext {
    var messageInstance: Ref
    const headers: HeaderDictionary
    const extensions: ContextBag
    const builder: Builder

    constructor (messageInstance: Ref, headers: HeaderDictionary,
                 extensions: ContextBag, builder: Builder)
      ensures this.messageInstance == messageInstance
      ensures this.headers == headers
      ensures this.extensions == extensions
      ensures this.builder == builder
    {
      this.messageInstance := messageInstance;
      this.headers := headers;
      this.extensions := extensions;
      this.builder := builder;
    }

    /** Makes `newInstance` the message that goes forward; nothing else changes. */
    method UpdateMessageInstance(newInstance: Ref)
      modifies this
      ensures messageInstance == newInstance
    {
      messageInstance := newInstance;
    }
  }

  /**
   * The `next` continuation: the rest of the pipeline. It records what it saw
   * of the context each time it is called and ends with a fixed outcome.
   */
  class Continuation {
    const result: Outcome
    var observed: seq<Snapshot>

    constructor (result: Outcome)
      ensures this.result == result && observed == []
    {
      this.result := result;
      this.observed := [];
    }

    method Call(context: OutgoingLogicalMessageContext) returns (r: Outcome)
      modifies this
      ensures observed == old(observed) + [Snapshot(context.messageInstance, context.headers.entries)]
      ensures r == result
    {
      observed := observed + [Snapshot(context.messageInstance, context.headers.entries)];
      r := result;
    }
  }

  /**
   * The mutator context the stage builds: the current outgoing instance and
   * headers, the incoming logical message's instance (null when the bag holds
   * none, or holds a null) and the incoming physical message's headers (absent
   * when the bag holds none, or holds a null), and a clear change flag.
   */
  function InitialView(instance: Ref, headers: Headers, bag: ContextBag): (v: MutatorView)
    ensures v.outgoingMessage == instance && v.outgoingHeaders == headers
    ensures !v.messageInstanceChanged
    ensures LogicalMessageKey !in bag || bag[LogicalMessageKey].logical.None? ==> v.incomingMessage == Null
    ensures LogicalMessageKey in bag && bag[LogicalMessageKey].logical.Some? ==>
              v.incomingMessage == bag[LogicalMessageKey].logical.value.instance
    ensures v.incomingHeaders.None? <==>
              IncomingMessageKey !in bag || bag[IncomingMessageKey].incoming.None?
    ensures IncomingMessageKey in bag && bag[IncomingMessageKey].incoming.Some? ==>
              v.incomingHeaders == Some(bag[IncomingMessageKey].incoming.value.headers)
  {
    // As in the source, only TryGet's out value is kept; its bool is not looked at.
    var incomingLogicalMessage := TryGetLogicalMessage(bag).OrNull();
    var incomingPhysicalMessage := TryGetIncomingMessage(bag).OrNull();
    MutatorView(
      instance,
      headers,
      if incomingLogicalMessage.Some? then incomingLogicalMessage.value.instance else Null,
      if incomingPhysicalMessage.Some? then Some(incomingPhysicalMessage.value.headers) else None,
      false)
  }

  /** The result of one invocation of the stage, as values. */
  datatype Effect = Effect(
    instance: Ref,          // the message instance that goes forward
    headers: Headers,       // the outgoing headers afterwards
    nextCalled: bool,       // whether the rest of the pipeline was called
    outcome: Outcome,       // how the invocation ends
    mutatorsInvoked: nat)   // how many mutators were called

  /**
   * What one invocation does to an outgoing context holding `instance`,
   * `headers` and `bag`, with mutators `ms`, when the rest of the pipeline
   * ends with `nextResult`.
   */
  function StageEffect(instance: Ref, headers: Headers, bag: ContextBag,
                       ms: seq<Mutator>, nextResult: Outcome): Effect
  {
    var run := RunMutators(ms, InitialView(instance, headers, bag));
    if run.fault.Some? then
      Effect(instance, run.view.outgoingHeaders, false, Fault(run.fault.value), run.invoked)
    else
      var forward := if run.view.messageInstanceChanged then run.view.outgoingMessage else instance;
      Effect(forward, run.view.outgoingHeaders, true, nextResult, run.invoked)
  }

  /**
   * Invoke: the stage itself. The new state of the context and of the
   * continuation, and the outcome, are those StageEffect gives for the old
   * state; `invoked` counts the mutators called.
   */
  method Invoke(context: OutgoingLogicalMessageContext, next: Continuation)
    returns (outcome: Outcome, ghost invoked: nat)
    modifies context, context.headers, next
    ensures var e := StageEffect(old(context.messageInstance), old(context.headers.entries),
                                 context.extensions, context.builder.BuildAll(), next.result);
            && context.messageInstance == e.instance
            && context.headers.entries == e.headers
            && outcome == e.outcome
            && invoked == e.mutatorsInvoked
            && next.observed == old(next.observed) + (if e.nextCalled then [Snapshot(e.instance, e.headers)] else [])
  {
    var incomingLogicalMessage := TryGetLogicalMessage(context.extensions).OrNull();
    var incomingPhysicalMessage := TryGetIncomingMessage(context.extensions).OrNull();

    var mutatorContext := new MutateOutgoingMessageContext(
      context.messageInstance,
      context.headers,
      if incomingLogicalMessage.Some? then incomingLogicalMessage.value.instance else Null,
      if incomingPhysicalMessage.Some? then Some(incomingPhysicalMessage.value.headers) else None);
    ghost var start := mutatorContext.View();
    assert start == InitialView(old(context.messageInstance), old(context.headers.entries), context.extensions);

    var mutators := context.builder.BuildAll();
    var i := 0;
    while i < |mutators|
      invariant 0 <= i <= |mutators|
      invariant RunMutators(mutators[..i], start) == Run(mutatorContext.View(), i, None)
      invariant context.messageInstance == old(context.messageInstance)
      invariant next.observed == old(next.observed)
    {
      var fault := mutatorContext.Apply(mutators[i]);
      assert mutators[..i + 1][..i] == mutators[..i];
      if fault.Some? {
        FaultIsFinal(mutators, i + 1, start);
        return Fault(fault.value), i + 1;
      }
      i := i + 1;
    }
    assert mutators[..i] == mutators;

    if mutatorContext.messageInstanceChanged {
      context.UpdateMessageInstance(mutatorContext.outgoingMessage);
    }

    outcome := next.Call(context);
    invoked := |mutators|;
  }

  /**
   * The incoming instance handed to the mutators is null exactly when the bag
   * holds no incoming logical message, holds a null for it, or holds one whose
   * instance is null.
   */
  lemma IncomingInstanceNullIff(instance: Ref, headers: Headers, bag: ContextBag)
    ensures InitialView(instance, headers, bag).incomingMessage == Null <==>
            (|| LogicalMessageKey !in bag
             || bag[LogicalMessageKey].logical.None?
             || bag[LogicalMessageKey].logical.value.instance == Null)
  {
  }

  /**
   * For the mutators, a null stored under an incoming message's type is the
   * same as no entry at all.
   */
  lemma StoredNullLikeAbsent(instance: Ref, headers: Headers, bag: ContextBag)
    ensures InitialView(instance, headers, Set(bag, LogicalMessageEntry(None))).incomingMessage
            == InitialView(instance, headers, bag - {LogicalMessageKey}).incomingMessage
    ensures InitialView(instance, headers, Set(bag, IncomingMessageEntry(None))).incomingHeaders
            == InitialView(instance, headers, bag - {IncomingMessageKey}).incomingHeaders
  {
  }

  /**
   * The two lookups are independent: storing an incoming physical message does
   * not change the incoming instance given to the mutators, and storing an
   * incoming logical message does not change the incoming headers.
   */
  lemma IncomingLookupsIndependent(instance: Ref, headers: Headers, bag: ContextBag,
                                   m: Option<LogicalMessage>, p: Option<IncomingMessage>)
    ensures InitialView(instance, headers, Set(bag, IncomingMessageEntry(p))).incomingMessage
            == InitialView(instance, headers, bag).incomingMessage
    ensures InitialView(instance, headers, Set(bag, LogicalMessageEntry(m))).incomingHeaders
            == InitialView(instance, headers, bag).incomingHeaders
  {
    LookupsIndependent(bag, IncomingMessageEntry(p));
    LookupsIndependent(bag, LogicalMessageEntry(m));
  }

  /**
   * A send made while handling an incoming message carries that message's
   * instance and headers; a locally originated send carries neither.
   */
  lemma ReplyCarriesIncoming(instance: Ref, headers: Headers, bag: ContextBag,
                             m: LogicalMessage, p: IncomingMessage)
    ensures var v := InitialView(instance, headers,
                                 Set(Set(bag, LogicalMessageEntry(Some(m))), IncomingMessageEntry(Some(p))));
            v.incomingMessage == m.instance && v.incomingHeaders == Some(p.headers)
    ensures InitialView(instance, headers, map[]).incomingMessage == Null
    ensures InitialView(instance, headers, map[]).incomingHeaders == None
  {
  }

  /**
   * The rest of the pipeline is called exactly when every mutator was called
   * and none faulted; the stage then ends as the rest of the pipeline does.
   * Otherwise it ends with the mutator's fault.
   */
  lemma NextCalledIffMutatorsComplete(instance: Ref, headers: Headers, bag: ContextBag,
                                      ms: seq<Mutator>, nextResult: Outcome)
    ensures var e := StageEffect(instance, headers, bag, ms, nextResult);
            var run := RunMutators(ms, InitialView(instance, headers, bag));
            && (e.nextCalled <==> run.fault.None?)
            && (e.nextCalled ==> e.mutatorsInvoked == |ms| && e.outcome == nextResult)
            && (!e.nextCalled ==> e.mutatorsInvoked <= |ms| && e.outcome == Fault(run.fault.value))
  {
  }

  /** With no mutators registered the stage is a pure pass-through. */
  lemma NoMutatorsPassThrough(instance: Ref, headers: Headers, bag: ContextBag, nextResult: Outcome)
    ensures StageEffect(instance, headers, bag, [], nextResult) == Effect(instance, headers, true, nextResult, 0)
  {
  }

  /**
   * The instance that goes forward differs from the original only when the
   * mutators completed with the change flag raised, and it is then the mutator
   * context's final outgoing message; with the flag clear it is the original
   * reference.
   */
  lemma InstanceReplacedOnlyWhenFlagged(instance: Ref, headers: Headers, bag: ContextBag,
                                        ms: seq<Mutator>, nextResult: Outcome)
    ensures var e := StageEffect(instance, headers, bag, ms, nextResult);
            var run := RunMutators(ms, InitialView(instance, headers, bag));
            && (!run.view.messageInstanceChanged ==> e.instance == instance)
            && (run.fault.None? && run.view.messageInstanceChanged ==> e.instance == run.view.outgoingMessage)
            && (e.instance != instance ==> e.nextCalled && run.view.messageInstanceChanged)
  {
  }

  /** When no mutator raises the change flag, the original reference goes forward. */
  lemma ClearFlagKeepsInstance(instance: Ref, headers: Headers, bag: ContextBag,
                               ms: seq<Mutator>, nextResult: Outcome)
    requires forall i :: 0 <= i < |ms| ==> LeavesFlagClear(ms[i])
    ensures StageEffect(instance, headers, bag, ms, nextResult).instance == instance
  {
    FlagStaysClear(ms, InitialView(instance, headers, bag));
  }

  /**
   * A mutator that faults stops the stage: later mutators, the instance
   * update and the rest of the pipeline do not run, and the header changes
   * made so far stay (nothing is rolled back).
   */
  lemma FaultingMutatorStopsStage(instance: Ref, headers: Headers, bag: ContextBag,
                                  ms: seq<Mutator>, nextResult: Outcome, k: nat)
    requires k < |ms|
    requires RunMutators(ms[..k], InitialView(instance, headers, bag)).fault.None?
    requires ms[k](RunMutators(ms[..k], InitialView(instance, headers, bag)).view).fault.Some?
    ensures var w := RunMutators(ms[..k], InitialView(instance, headers, bag)).view;
            var e := StageEffect(instance, headers, bag, ms, nextResult);
            && e.outcome == Fault(ms[k](w).fault.value)
            && !e.nextCalled
            && e.instance == instance
            && e.mutatorsInvoked == k + 1
            && e.headers == ms[k](w).outgoingHeaders
  {
    ThrowingMutatorStopsLoop(ms, k, InitialView(instance, headers, bag));
  }
}
