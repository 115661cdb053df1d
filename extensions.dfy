/**
 * The context's extension bag: a store keyed by type identity, holding at most
 * one value per type. Stages look values up with a non-throwing TryGet that
 * reports absence instead of failing.
 */
module Extensions {
  import opened Wrappers
  import opened Messages

  /** The type identities the outgoing-mutation stage cares about, and all others. */
  datatype TypeKey = LogicalMessageKey | IncomingMessageKey | OtherKey(typeName: string)

  /** A value stored in the bag, tagged with its type; `None` is a null stored under that type. */
  datatype Entry =
    | LogicalMessageEntry(logical: Option<LogicalMessage>)
    | IncomingMessageEntry(incoming: Option<IncomingMessage>)
    | OtherEntry(typeName: string, payload: string)

  /**
   * What TryGet<T> reports: `Missing` when it returns false, `Found(v)` when it
   * returns true with `v` as its out value, which is null (`None`) when a null
   * was stored under the type.
   */
  datatype Lookup<T> = Missing | Found(value: Option<T>) {
    /** The out value: null when nothing was found. */
    function OrNull(): Option<T> {
      if Found? then value else None
    }
  }

  /** The key a value is stored under: the identity of its own type. */
  function KeyOf(e: Entry): TypeKey {
    match e
    case LogicalMessageEntry(_) => LogicalMessageKey
    case IncomingMessageEntry(_) => IncomingMessageKey
    case OtherEntry(name, _) => OtherKey(name)
  }

  /** A bag: every value sits under the key of its own type. */
  type ContextBag = bag: map<TypeKey, Entry> | forall k :: k in bag ==> KeyOf(bag[k]) == k
    witness map[]

  /** Set<T>(value): stores the value under its type, replacing any earlier value of that type. */
  function Set(bag: ContextBag, e: Entry): (r: ContextBag)
    ensures r.Keys == bag.Keys + {KeyOf(e)}
    ensures r[KeyOf(e)] == e
    ensures forall k :: k in bag && k != KeyOf(e) ==> r[k] == bag[k]
  {
    bag[KeyOf(e) := e]
  }

  /** TryGet<LogicalMessage>: whether the bag holds a value of that type, and which. */
  function TryGetLogicalMessage(bag: ContextBag): (r: Lookup<LogicalMessage>)
    ensures r.Found? <==> LogicalMessageKey in bag
    ensures r.Found? ==> bag[LogicalMessageKey] == LogicalMessageEntry(r.value)
  {
    if LogicalMessageKey in bag && bag[LogicalMessageKey].LogicalMessageEntry?
    then Found(bag[LogicalMessageKey].logical)
    else Missing
  }

  /** TryGet<IncomingMessage>: whether the bag holds a value of that type, and which. */
  function TryGetIncomingMessage(bag: ContextBag): (r: Lookup<IncomingMessage>)
    ensures r.Found? <==> IncomingMessageKey in bag
    ensures r.Found? ==> bag[IncomingMessageKey] == IncomingMessageEntry(r.value)
  {
    if IncomingMessageKey in bag && bag[IncomingMessageKey].IncomingMessageEntry?
    then Found(bag[IncomingMessageKey].incoming)
    else Missing
  }

  /** A value that was set, null included, is found again by the lookup for its type. */
  lemma SetThenTryGet(bag: ContextBag, m: Option<LogicalMessage>, p: Option<IncomingMessage>)
    ensures TryGetLogicalMessage(Set(bag, LogicalMessageEntry(m))) == Found(m)
    ensures TryGetIncomingMessage(Set(bag, IncomingMessageEntry(p))) == Found(p)
  {
  }

  /**
   * The two lookups are independent: storing a value of one of the two types
   * (or of any other type) does not change what the lookup for the other finds.
   */
  lemma LookupsIndependent(bag: ContextBag, e: Entry)
    ensures KeyOf(e) != LogicalMessageKey ==>
              TryGetLogicalMessage(Set(bag, e)) == TryGetLogicalMessage(bag)
    ensures KeyOf(e) != IncomingMessageKey ==>
              TryGetIncomingMessage(Set(bag, e)) == TryGetIncomingMessage(bag)
  {
  }
}
