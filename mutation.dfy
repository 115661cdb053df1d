/**
 * Outgoing message mutators and the context they share. A mutator is
 * user-supplied code; here it is an arbitrary transformer of what it can see
 * and change of the mutator context. The mutators of one message run one after
 * another over the same mutator context, and a fault stops the sequence.
 */
module Mutation {
  import opened Wrappers
  import opened Messages

  /** What a mutator sees of the mutator context, as a value. */
  datatype MutatorView = MutatorView(
    outgoingMessage: Ref,
    outgoingHeaders: Headers,
    incomingMessage: Ref,
    incomingHeaders: Option<Headers>,
    messageInstanceChanged: bool)

  /**
   * What one call of a mutator leaves behind: the outgoing message, the content
   * of the outgoing header dictionary and the change flag as it left them, and
   * the fault it raised, if any. A mutator that throws may already have made
   * some of its changes; they are not undone.
   */
  datatype MutatorOutcome = MutatorOutcome(
    outgoingMessage: Ref,
    outgoingHeaders: Headers,
    messageInstanceChanged: bool,
    fault: Option<string>)

  /** IMutateOutgoingMessages.MutateOutgoing, as a transformer of the mutator context. */
  type Mutator = MutatorView -> MutatorOutcome

  /** The mutator context after a mutator call: the incoming part cannot be changed. */
  function Resume(v: MutatorView, o: MutatorOutcome): MutatorView {
    v.(outgoingMessage := o.outgoingMessage,
       outgoingHeaders := o.outgoingHeaders,
       messageInstanceChanged := o.messageInstanceChanged)
  }

  /**
   * The state of the mutator loop: the mutator context as the mutators left
   * it, how many mutators were called, and the fault that stopped the loop.
   */
  datatype Run = Run(view: MutatorView, invoked: nat, fault: Option<string>)

  /**
   * Running the mutators `ms` in order over a mutator context that starts as
   * `v`: each mutator is called with the context as the previous one left it,
   * and the first fault stops the loop.
   */
  function RunMutators(ms: seq<Mutator>, v: MutatorView): (r: Run)
    decreases |ms|
    ensures r.fault.None? ==> r.invoked == |ms|
    ensures r.fault.Some? ==> 0 < r.invoked <= |ms|
    ensures r.view.incomingMessage == v.incomingMessage
    ensures r.view.incomingHeaders == v.incomingHeaders
  {
    if |ms| == 0 then Run(v, 0, None)
    else
      var before := RunMutators(ms[..|ms| - 1], v);
      if before.fault.Some? then before
      else
        var o := ms[|ms| - 1](before.view);
        Run(Resume(before.view, o), |ms|, o.fault)
  }

  /** A mutator that never raises the change flag when it finds it clear. */
  ghost predicate LeavesFlagClear(m: Mutator) {
    forall w: MutatorView :: !w.messageInstanceChanged ==> !m(w).messageInstanceChanged
  }

  /** Once a prefix of the mutators has faulted, the later mutators change nothing. */
  lemma {:induction false} FaultIsFinal(ms: seq<Mutator>, j: nat, v: MutatorView)
    requires j <= |ms|
    requires RunMutators(ms[..j], v).fault.Some?
    ensures RunMutators(ms, v) == RunMutators(ms[..j], v)
    decreases |ms| - j
  {
    if j < |ms| {
      assert ms[..j + 1][..j] == ms[..j];
      FaultIsFinal(ms, j + 1, v);
    } else {
      assert ms[..j] == ms;
    }
  }

  /**
   * Running `a` then `b` is running `b` over the context `a` left, unless `a`
   * faulted, in which case `b` never runs.
   */
  lemma {:induction false} RunMutatorsAppend(a: seq<Mutator>, b: seq<Mutator>, v: MutatorView)
    ensures var ra := RunMutators(a, v);
            var rb := RunMutators(b, ra.view);
            RunMutators(a + b, v) ==
              if ra.fault.Some? then ra else Run(rb.view, |a| + rb.invoked, rb.fault)
    decreases |b|
  {
    if |b| == 0 {
      assert a + b == a;
    } else {
      var ab := a + b;
      assert ab[..|ab| - 1] == a + b[..|b| - 1];
      RunMutatorsAppend(a, b[..|b| - 1], v);
    }
  }

  /**
   * Mutators run in order and each sees the context the previous one left:
   * after `a` has completed, mutator `m` is called with the context `a` left.
   */
  lemma MutatorSeesPredecessor(a: seq<Mutator>, m: Mutator, v: MutatorView)
    requires RunMutators(a, v).fault.None?
    ensures var w := RunMutators(a, v).view;
            RunMutators(a + [m], v) == Run(Resume(w, m(w)), |a| + 1, m(w).fault)
  {
    assert (a + [m])[..|a|] == a;
  }

  /**
   * Given mutators A then B, where A completes, B is called with the context
   * A produced, not with the original one.
   */
  lemma SecondMutatorSeesFirst(a: Mutator, b: Mutator, v: MutatorView)
    requires a(v).fault.None?
    ensures var w := Resume(v, a(v));
            RunMutators([a, b], v) == Run(Resume(w, b(w)), 2, b(w).fault)
  {
    MutatorSeesPredecessor([a], b, v);
    assert [a] + [b] == [a, b];
  }

  /**
   * A fault stops the loop at the mutator that raised it: every mutator before
   * it completed, it was called with the context they left, and the loop ends
   * with that mutator's (partial) changes in place.
   */
  lemma {:induction false} FaultStopsAtMutator(ms: seq<Mutator>, v: MutatorView)
    requires RunMutators(ms, v).fault.Some?
    ensures var r := RunMutators(ms, v);
            var k := r.invoked - 1;
            var w := RunMutators(ms[..k], v).view;
            && RunMutators(ms[..k], v).fault.None?
            && ms[k](w).fault == r.fault
            && r.view == Resume(w, ms[k](w))
    decreases |ms|
  {
    var before := RunMutators(ms[..|ms| - 1], v);
    if before.fault.Some? {
      FaultStopsAtMutator(ms[..|ms| - 1], v);
      var k := before.invoked - 1;
      assert ms[..|ms| - 1][..k] == ms[..k];
      assert ms[..|ms| - 1][k] == ms[k];
    }
  }

  /**
   * The converse: when the mutators before position `k` complete and the
   * mutator at `k` faults, the loop faults there and no later mutator runs.
   */
  lemma ThrowingMutatorStopsLoop(ms: seq<Mutator>, k: nat, v: MutatorView)
    requires k < |ms|
    requires RunMutators(ms[..k], v).fault.None?
    requires ms[k](RunMutators(ms[..k], v).view).fault.Some?
    ensures var w := RunMutators(ms[..k], v).view;
            RunMutators(ms, v) == Run(Resume(w, ms[k](w)), k + 1, ms[k](w).fault)
  {
    MutatorSeesPredecessor(ms[..k], ms[k], v);
    assert ms[..k] + [ms[k]] == ms[..k + 1];
    FaultIsFinal(ms, k + 1, v);
  }

  /** When no mutator raises the change flag, it is still clear after the loop. */
  lemma {:induction false} FlagStaysClear(ms: seq<Mutator>, v: MutatorView)
    requires !v.messageInstanceChanged
    requires forall i :: 0 <= i < |ms| ==> LeavesFlagClear(ms[i])
    ensures !RunMutators(ms, v).view.messageInstanceChanged
    decreases |ms|
  {
    if |ms| > 0 {
      var prefix := ms[..|ms| - 1];
      assert forall i :: 0 <= i < |prefix| ==> prefix[i] == ms[i];
      FlagStaysClear(prefix, v);
      var before := RunMutators(prefix, v);
      if before.fault.None? {
        assert LeavesFlagClear(ms[|ms| - 1]);
        assert !ms[|ms| - 1](before.view).messageInstanceChanged;
      }
    }
  }

  /**
   * MutateOutgoingMessageContext: what the mutators of one outgoing message
   * share. The outgoing headers are the outgoing context's own dictionary; the
   * incoming instance and headers are null when there is no incoming message.
   */
  class MutateOutgoingMessageContext {
    var outgoingMessage: Ref
    const outgoingHeaders: HeaderDictionary
    const incomingMessage: Ref
    const incomingHeaders: Option<Headers>
    var messageInstanceChanged: bool

    /** The change flag starts clear: only a mutator raises it. */
    constructor (outgoingMessage: Ref, outgoingHeaders: HeaderDictionary,
                 incomingMessage: Ref, incomingHeaders: Option<Headers>)
      ensures this.outgoingMessage == outgoingMessage
      ensures this.outgoingHeaders == outgoingHeaders
      ensures this.incomingMessage == incomingMessage
      ensures this.incomingHeaders == incomingHeaders
      ensures !messageInstanceChanged
    {
      this.outgoingMessage := outgoingMessage;
      this.outgoingHeaders := outgoingHeaders;
      this.incomingMessage := incomingMessage;
      this.incomingHeaders := incomingHeaders;
      this.messageInstanceChanged := false;
    }

    /** The context as a mutator sees it. */
    function View(): MutatorView
      reads this, outgoingHeaders
    {
      MutatorView(outgoingMessage, outgoingHeaders.entries, incomingMessage,
                  incomingHeaders, messageInstanceChanged)
    }

    /**
     * Calls one mutator on this context: its changes land on the context (the
     * header changes on the shared dictionary) and its fault, if any, is returned.
     */
    method Apply(m: Mutator) returns (fault: Option<string>)
      modifies this, outgoingHeaders
      ensures View() == Resume(old(View()), m(old(View())))
      ensures fault == m(old(View())).fault
    {
      var o := m(View());
      outgoingMessage := o.outgoingMessage;
      outgoingHeaders.entries := o.outgoingHeaders;
      messageInstanceChanged := o.messageInstanceChanged;
      fault := o.fault;
    }
  }
}
