/** The generation contract: producers register themselves, and a producer's
    owner records generation events that add to its running total. */
module GenerationRegistry {
  import opened Outcome

  /** A generation source; `owner` is the account that registered it. */
  datatype Producer = Producer(owner: Account, energyType: string, totalGeneration: int)

  /** An audit record of one recording; `timestamp` is the host's block height. */
  datatype GenerationEvent = GenerationEvent(producerId: int, amount: int, timestamp: int)

  datatype State = State(
    producerNonce: nat,                       // the last producer id handed out
    eventNonce: nat,                          // the last event id handed out
    producers: map<int, Producer>,
    events: map<int, GenerationEvent>)

  /** The state before any call. */
  const Initial: State := State(0, 0, map[], map[])

  /** What events 1..n record for producer `id`. */
  function GeneratedBy(events: map<int, GenerationEvent>, id: int, n: nat): int
  {
    if n == 0 then 0
    else
      var recorded := if n in events && events[n].producerId == id then events[n].amount else 0;
      GeneratedBy(events, id, n - 1) + recorded
  }

  /** Producers and events are stored under 1..nonce, every event names a
      registered producer, and each producer's running total is exactly the
      sum of its events. */
  ghost predicate Valid(s: State)
  {
    && Dense(s.producers, s.producerNonce)
    && Dense(s.events, s.eventNonce)
    && (forall e :: e in s.events ==> s.events[e].producerId in s.producers)
    && (forall p :: p in s.producers ==>
          s.producers[p].totalGeneration == GeneratedBy(s.events, p, s.eventNonce))
  }

  /** `register-producer(energyType)` called by `sender`: always succeeds. */
  function RegisterProducer(s: State, sender: Account, energyType: string): (r: Step<State, nat>)
    ensures r.result.Ok?
    ensures r.result.value == s.producerNonce + 1 && r.state.producerNonce == r.result.value
    ensures Stores(s.producers, r.state.producers, r.result.value, Producer(sender, energyType, 0))
    ensures r.state.eventNonce == s.eventNonce && r.state.events == s.events
  {
    var id := s.producerNonce + 1;
    Step(Ok(id), s.(producerNonce := id, producers := s.producers[id := Producer(sender, energyType, 0)]))
  }

  /** `record-generation(producerId, amount)` called by `sender` at block
      height `timestamp`. An unknown producer and a caller who is not its
      owner are reported alike. */
  function RecordGeneration(s: State, sender: Account, producerId: int, amount: int, timestamp: int): (r: Step<State, nat>)
    ensures r.result.Ok? <==> producerId in s.producers && s.producers[producerId].owner == sender
    ensures r.result.Err? ==> r.result.error == NotAuthorizedOrProducerNotFound && r.state == s
    ensures r.state.producerNonce == s.producerNonce
    ensures r.result.Ok? ==>
      var p := s.producers[producerId];
      && r.result.value == s.eventNonce + 1
      && r.state.eventNonce == r.result.value
      && Stores(s.events, r.state.events, r.result.value, GenerationEvent(producerId, amount, timestamp))
      && Stores(s.producers, r.state.producers, producerId, Producer(p.owner, p.energyType, p.totalGeneration + amount))
  {
    if producerId !in s.producers || s.producers[producerId].owner != sender then
      Step(Err(NotAuthorizedOrProducerNotFound), s)
    else
      var id := s.eventNonce + 1;
      var producer := s.producers[producerId];
      var updated := producer.(totalGeneration := producer.totalGeneration + amount);
      Step(Ok(id), s.(eventNonce := id,
                      events := s.events[id := GenerationEvent(producerId, amount, timestamp)],
                      producers := s.producers[producerId := updated]))
  }

  /** `get-producer(id)`: never fails; an unknown id yields `None`. */
  function GetProducer(s: State, id: int): (r: Result<Option<Producer>>)
    ensures r.Ok?
    ensures r.value.Some? <==> id in s.producers
    ensures r.value.Some? ==> r.value.value == s.producers[id]
    ensures Valid(s) ==> (r.value.Some? <==> 1 <= id <= s.producerNonce)
  {
    if id in s.producers then Ok(Some(s.producers[id])) else Ok(None)
  }

  /** `get-generation-event(id)`: never fails; an unknown id yields `None`. */
  function GetGenerationEvent(s: State, id: int): (r: Result<Option<GenerationEvent>>)
    ensures r.Ok?
    ensures r.value.Some? <==> id in s.events
    ensures r.value.Some? ==> r.value.value == s.events[id]
    ensures Valid(s) ==> (r.value.Some? <==> 1 <= id <= s.eventNonce)
    ensures Valid(s) && r.value.Some? ==> r.value.value.producerId in s.producers
  {
    if id in s.events then Ok(Some(s.events[id])) else Ok(None)
  }

  /** `get-total-generation(id)`: unlike the two lookups above, an unknown
      producer is an error. */
  function GetTotalGeneration(s: State, id: int): (r: Result<int>)
    ensures r.Ok? <==> id in s.producers
    ensures r.Err? ==> r.error == ProducerNotFound
    ensures r.Ok? ==> r.value == s.producers[id].totalGeneration
    ensures r.Ok? && Valid(s) ==> r.value == GeneratedBy(s.events, id, s.eventNonce)
  {
    if id in s.producers then Ok(s.producers[id].totalGeneration) else Err(ProducerNotFound)
  }

  /** The methods of the contract. */
  datatype Op =
    | Register(energyType: string)
    | Record(producerId: int, amount: int)
    | ProducerQuery(id: int)
    | EventQuery(id: int)
    | TotalQuery(id: int)
    | Unknown(name: string)
  {
    predicate IsRead() { ProducerQuery? || EventQuery? || TotalQuery? }
  }

  /** The `value` of a successful call. */
  datatype Reply =
    | NewId(id: nat)
    | FoundProducer(producer: Option<Producer>)
    | FoundEvent(event: Option<GenerationEvent>)
    | Generated(total: int)

  /** One call at block height `now`, dispatched on its method. */
  function Call(s: State, sender: Account, now: int, op: Op): (r: Step<State, Reply>)
    ensures r.result.Err? ==> r.state == s
    ensures op.IsRead() ==> r.state == s
    ensures op.Unknown? ==> r.result == Err(MethodNotFound)
    ensures r.result.Err? <==>
      || op.Unknown?
      || (op.TotalQuery? && op.id !in s.producers)
      || (op.Record? && (op.producerId !in s.producers || s.producers[op.producerId].owner != sender))
  {
    match op
    case Register(energyType) =>
      var step := RegisterProducer(s, sender, energyType);
      Step(Ok(NewId(step.result.value)), step.state)
    case Record(producerId, amount) =>
      var step := RecordGeneration(s, sender, producerId, amount, now);
      Step(if step.result.Ok? then Ok(NewId(step.result.value)) else Err(step.result.error), step.state)
    case ProducerQuery(id) =>
      Step(Ok(FoundProducer(GetProducer(s, id).value)), s)
    case EventQuery(id) =>
      Step(Ok(FoundEvent(GetGenerationEvent(s, id).value)), s)
    case TotalQuery(id) =>
      var total := GetTotalGeneration(s, id);
      Step(if total.Ok? then Ok(Generated(total.value)) else Err(total.error), s)
    case Unknown(_) =>
      Step(Err(MethodNotFound), s)
  }

  /** A caller, the host's block height, and what it calls. */
  datatype Invocation = Invocation(sender: Account, now: int, op: Op)

  /** The state after a sequence of calls, applied in order. */
  function Run(s: State, calls: seq<Invocation>): State
    decreases |calls|
  {
    if |calls| == 0 then s
    else Run(Call(s, calls[0].sender, calls[0].now, calls[0].op).state, calls[1..])
  }

  /** `GeneratedBy` only looks at events 1..n. */
  lemma {:induction false} GeneratedByFrame(e: map<int, GenerationEvent>, e': map<int, GenerationEvent>, id: int, n: nat)
    requires forall i :: 1 <= i <= n ==> (i in e <==> i in e')
    requires forall i :: 1 <= i <= n && i in e ==> e[i] == e'[i]
    ensures GeneratedBy(e, id, n) == GeneratedBy(e', id, n)
  {
    if n > 0 {
      GeneratedByFrame(e, e', id, n - 1);
    }
  }

  /** A producer no event names has generated nothing. */
  lemma {:induction false} GeneratedByNone(e: map<int, GenerationEvent>, id: int, n: nat)
    requires forall i :: 1 <= i <= n && i in e ==> e[i].producerId != id
    ensures GeneratedBy(e, id, n) == 0
  {
    if n > 0 {
      GeneratedByNone(e, id, n - 1);
    }
  }

  lemma InitialValid()
    ensures Valid(Initial)
  {
  }

  /** A new producer starts at zero and no existing event names its id. */
  lemma RegisterPreservesValid(s: State, sender: Account, energyType: string)
    requires Valid(s)
    ensures Valid(RegisterProducer(s, sender, energyType).state)
  {
    GeneratedByNone(s.events, s.producerNonce + 1, s.eventNonce);
  }

  /** Recording adds the event and the same amount to its producer's total. */
  lemma RecordPreservesValid(s: State, sender: Account, producerId: int, amount: int, timestamp: int)
    requires Valid(s)
    ensures Valid(RecordGeneration(s, sender, producerId, amount, timestamp).state)
  {
    var r := RecordGeneration(s, sender, producerId, amount, timestamp);
    if r.result.Ok? {
      var s' := r.state;
      forall p | p in s'.producers
        ensures s'.producers[p].totalGeneration == GeneratedBy(s'.events, p, s'.eventNonce)
      {
        GeneratedByFrame(s.events, s'.events, p, s.eventNonce);
      }
    }
  }

  lemma CallPreservesValid(s: State, sender: Account, now: int, op: Op)
    requires Valid(s)
    ensures Valid(Call(s, sender, now, op).state)
  {
    match op
    case Register(energyType) => RegisterPreservesValid(s, sender, energyType);
    case Record(producerId, amount) => RecordPreservesValid(s, sender, producerId, amount, now);
    case _ =>
  }

  lemma {:induction false} RunPreservesValid(s: State, calls: seq<Invocation>)
    requires Valid(s)
    ensures Valid(Run(s, calls))
    decreases |calls|
  {
    if |calls| > 0 {
      CallPreservesValid(s, calls[0].sender, calls[0].now, calls[0].op);
      RunPreservesValid(Call(s, calls[0].sender, calls[0].now, calls[0].op).state, calls[1..]);
    }
  }

  /** `s'` keeps every producer of `s` with its owner and energy type, and
      every event of `s` unchanged. */
  ghost predicate Extends(s: State, s': State)
  {
    && s.producerNonce <= s'.producerNonce
    && s.eventNonce <= s'.eventNonce
    && (forall p :: p in s.producers ==>
          && p in s'.producers
          && s'.producers[p].owner == s.producers[p].owner
          && s'.producers[p].energyType == s.producers[p].energyType)
    && (forall e :: e in s.events ==> e in s'.events && s'.events[e] == s.events[e])
  }

  /** No producer's running total has gone down from `s` to `s'`. */
  ghost predicate TotalsGrow(s: State, s': State)
  {
    forall p :: p in s.producers && p in s'.producers ==>
      s.producers[p].totalGeneration <= s'.producers[p].totalGeneration
  }

  /** Under `Valid`, a recording never overwrites an event and an owner is
      never reassigned; with a non-negative amount no total goes down. */
  lemma CallExtends(s: State, sender: Account, now: int, op: Op)
    requires Valid(s)
    ensures Extends(s, Call(s, sender, now, op).state)
    ensures (op.Record? ==> op.amount >= 0) ==> TotalsGrow(s, Call(s, sender, now, op).state)
  {
  }

  lemma {:induction false} RunExtends(s: State, calls: seq<Invocation>)
    requires Valid(s)
    requires forall i :: 0 <= i < |calls| ==> (calls[i].op.Record? ==> calls[i].op.amount >= 0)
    ensures Extends(s, Run(s, calls))
    ensures TotalsGrow(s, Run(s, calls))
    decreases |calls|
  {
    if |calls| > 0 {
      var s1 := Call(s, calls[0].sender, calls[0].now, calls[0].op).state;
      CallExtends(s, calls[0].sender, calls[0].now, calls[0].op);
      CallPreservesValid(s, calls[0].sender, calls[0].now, calls[0].op);
      RunExtends(s1, calls[1..]);
    }
  }

  /** Two recordings for the same producer add both amounts to its total. */
  lemma RecordingsAccumulate(s: State, owner: Account, producerId: int, a1: int, a2: int, t1: int, t2: int)
    requires producerId in s.producers && s.producers[producerId].owner == owner
    ensures var s1 := RecordGeneration(s, owner, producerId, a1, t1).state;
      var s2 := RecordGeneration(s1, owner, producerId, a2, t2).state;
      GetTotalGeneration(s2, producerId) == Ok(s.producers[producerId].totalGeneration + a1 + a2)
  {
  }

  /** The contract's own examples. */
  lemma Examples()
    ensures var reg := RegisterProducer(Initial, "producer1", "solar");
      && reg.result == Ok(1)
      && GetProducer(reg.state, 1).value.value.energyType == "solar"
      && RecordGeneration(reg.state, "producer2", 1, 1000, 100).result.Err?
      && RecordGeneration(reg.state, "producer1", 1, 1000, 100).result == Ok(1)
      && GetGenerationEvent(RecordGeneration(reg.state, "producer1", 1, 1000, 100).state, 1).value.value.amount == 1000
      && GetTotalGeneration(RecordGeneration(RecordGeneration(reg.state, "producer1", 1, 1000, 100).state,
                                             "producer1", 1, 500, 100).state, 1) == Ok(1500)
    ensures GetTotalGeneration(Initial, 1) == Err(ProducerNotFound)
    ensures GetProducer(Initial, 1) == Ok(None)
    ensures GetGenerationEvent(Initial, 1) == Ok(None)
  {
  }
}
