/** The exchanges, queues and bindings the services declare on the broker, and where each message
    of the delivery protocol ends up in them. */
module Topology {
  import opened Contracts
  import opened RetryPolicy
  import opened Delivery
  import opened DeliveryStructure
  import opened DeliveryHandover

  const EXCHANGE := "email.exchange"
  const RETRY_EXCHANGE := "email.retry.exchange"
  const DEAD_LETTER_EXCHANGE := "email.dlx"
  const STATUS_EXCHANGE := "email.status.exchange"
  const ROUTING_KEY := "email.deliver"
  const RETRY_ROUTING_KEY := "email.retry"
  const DEAD_LETTER_ROUTING_KEY := "email.dead"
  const STATUS_ROUTING_KEY := "email.status"
  const MAIN_QUEUE := "email.queue"
  const DEAD_LETTER_QUEUE := "email.dead-letter"
  const STATUS_QUEUE := "email.status.queue"
  const RETRY_QUEUE := "email.retry.tier"

  /******* Queue names *******/

  function Digits(n: nat): (digits: string)
    ensures |digits| >= 1
  {
    if n < 10 then ["0123456789"[n]] else Digits(n / 10) + ["0123456789"[n % 10]]
  }

  lemma {:induction false} DigitsInjective(m: nat, n: nat)
    requires Digits(m) == Digits(n)
    ensures m == n
  {
    var k := |Digits(m)| - 1;
    assert Digits(m)[k] == "0123456789"[m % 10] && Digits(n)[k] == "0123456789"[n % 10];
    if m >= 10 && n >= 10 {
      assert Digits(m)[..k] == Digits(m / 10) && Digits(n)[..k] == Digits(n / 10);
      DigitsInjective(m / 10, n / 10);
    }
  }

  function RetryQueueName(tier: nat): string { RETRY_QUEUE + Digits(tier) }

  /** Every tier has a queue of its own, different from the three other queues. */
  lemma RetryQueueNames(m: nat, n: nat)
    ensures RetryQueueName(m) == RetryQueueName(n) ==> m == n
    ensures RetryQueueName(m) !in {MAIN_QUEUE, DEAD_LETTER_QUEUE, STATUS_QUEUE}
    ensures RetryQueueName(m) != RETRY_ROUTING_KEY
  {
    var name := RetryQueueName(m);
    assert name[6] == 'r' && MAIN_QUEUE[6] == 'q' && DEAD_LETTER_QUEUE[6] == 'd' && STATUS_QUEUE[6] == 's';
    assert |name| > |RETRY_ROUTING_KEY|;
    if name == RetryQueueName(n) {
      assert name[|RETRY_QUEUE|..] == Digits(m) && RetryQueueName(n)[|RETRY_QUEUE|..] == Digits(n);
      DigitsInjective(m, n);
    }
  }

  /******* What a broker has been told *******/

  datatype Kind = Direct | Other

  datatype Address = Address(exchange: string, key: string)

  /** Queue arguments: message TTL in milliseconds, and where expired messages go. */
  datatype Arguments = Plain | Expiring(ttl: nat, deadLetter: Address)

  datatype Binding = Binding(queue: string, address: Address)

  datatype Broker = Broker(exchanges: map<string, Kind>, queues: map<string, Arguments>, bindings: set<Binding>)

  /** The queues a direct exchange hands a message to. None means the message is dropped. */
  function Route(b: Broker, address: Address): set<string> {
    set binding | binding in b.bindings && binding.address == address :: binding.queue
  }

  const EXCHANGES: map<string, Kind> :=
    map[EXCHANGE := Direct, RETRY_EXCHANGE := Direct, DEAD_LETTER_EXCHANGE := Direct, STATUS_EXCHANGE := Direct]

  const TIERS := |RETRY_DELAYS_SECONDS|

  function TierArguments(tier: nat): Arguments
    requires 1 <= tier <= TIERS
  {
    Expiring(RETRY_DELAYS_SECONDS[tier - 1] * 1000, Address(EXCHANGE, ROUTING_KEY))
  }

  /** The main queue and the tiers up to `n`. */
  function QueuesUpTo(n: nat): map<string, Arguments>
    requires n <= TIERS
  {
    if n == 0 then map[MAIN_QUEUE := Plain] else QueuesUpTo(n - 1)[RetryQueueName(n) := TierArguments(n)]
  }

  function Queues(): map<string, Arguments> {
    QueuesUpTo(TIERS)[DEAD_LETTER_QUEUE := Plain][STATUS_QUEUE := Plain]
  }

  function TierBinding(tier: nat): Binding {
    Binding(RetryQueueName(tier), Address(RETRY_EXCHANGE, RetryQueueName(tier)))
  }

  const MAIN_BINDING := Binding(MAIN_QUEUE, Address(EXCHANGE, ROUTING_KEY))
  const DEAD_LETTER_BINDING := Binding(DEAD_LETTER_QUEUE, Address(DEAD_LETTER_EXCHANGE, DEAD_LETTER_ROUTING_KEY))
  const STATUS_BINDING := Binding(STATUS_QUEUE, Address(STATUS_EXCHANGE, STATUS_ROUTING_KEY))

  function BindingsUpTo(n: nat): set<Binding> {
    {MAIN_BINDING} + set tier: nat | 1 <= tier <= n :: TierBinding(tier)
  }

  function Bindings(): set<Binding> { BindingsUpTo(TIERS) + {DEAD_LETTER_BINDING} + {STATUS_BINDING} }

  /** A broker on which everything has been declared. */
  function Declared(b: Broker): Broker {
    Broker(b.exchanges + EXCHANGES, b.queues + Queues(), b.bindings + Bindings())
  }

  function Clean(): Broker { Broker(map[], map[], {}) }

  lemma {:induction false} QueueOfTier(n: nat, tier: nat)
    requires n <= TIERS
    ensures RetryQueueName(tier) in QueuesUpTo(n) <==> 1 <= tier <= n
    ensures 1 <= tier <= n ==> QueuesUpTo(n)[RetryQueueName(tier)] == TierArguments(tier)
  {
    RetryQueueNames(tier, n);
    if n > 0 {
      QueueOfTier(n - 1, tier);
    }
  }

  lemma {:induction false} QueueOfOthers(n: nat)
    requires n <= TIERS
    ensures DEAD_LETTER_QUEUE !in QueuesUpTo(n) && STATUS_QUEUE !in QueuesUpTo(n)
  {
    if n == 0 {
    } else {
      RetryQueueNames(n, n);
      QueueOfOthers(n - 1);
    }
  }

  /** No entry of one map contradicts the other. */
  predicate Agree<V(==)>(there: map<string, V>, wanted: map<string, V>) {
    forall name :: name in wanted && name in there ==> there[name] == wanted[name]
  }

  /** Nothing on the broker contradicts the declarations: redeclaring a queue or an exchange with
      other properties is refused. */
  predicate Compatible(b: Broker) { Agree(b.exchanges, EXCHANGES) && Agree(b.queues, Queues()) }

  /******* Routing *******/

  /** What the services publish to: a queue of the protocol, or the queue of status events. */
  datatype Target = Copies(queue: Queue) | Statuses

  /** How the services address each target, and the name of its queue on the broker. */
  function AddressOf(target: Target): Address {
    match target
    case Copies(Main) => Address(EXCHANGE, ROUTING_KEY)
    case Copies(Tier(tier)) => Address(RETRY_EXCHANGE, RetryQueueName(tier))
    case Copies(Dead) => Address(DEAD_LETTER_EXCHANGE, DEAD_LETTER_ROUTING_KEY)
    case Statuses => Address(STATUS_EXCHANGE, STATUS_ROUTING_KEY)
  }

  function NameOf(target: Target): string {
    match target
    case Copies(Main) => MAIN_QUEUE
    case Copies(Tier(tier)) => RetryQueueName(tier)
    case Copies(Dead) => DEAD_LETTER_QUEUE
    case Statuses => STATUS_QUEUE
  }

  predicate Exists(target: Target) { target.Copies? && target.queue.Tier? ==> 1 <= target.queue.tier <= TIERS }

  /** A binding of the topology is the only one for its address. */
  lemma OneBinding(q: Target, binding: Binding)
    requires binding.address == AddressOf(q)
    ensures binding in Declared(Clean()).bindings <==> Exists(q) && binding.queue == NameOf(q)
  {
    assert |EXCHANGE| == 14 && |RETRY_EXCHANGE| == 20 && |DEAD_LETTER_EXCHANGE| == 9 && |STATUS_EXCHANGE| == 21;
    if q.Copies? && q.queue.Tier? {
      if tier: nat :| 1 <= tier <= TIERS && binding == TierBinding(tier) {
        RetryQueueNames(tier, q.queue.tier);
      }
      if Exists(q) && binding.queue == NameOf(q) {
        assert binding == TierBinding(q.queue.tier);
      }
    }
  }

  /** What is published to a target reaches its queue and no other, exactly when the queue is one of
      those declared (or was bound before) and nobody bound another queue to its address before. */
  lemma RoutedToOneQueue(b: Broker, q: Target)
    ensures Route(Declared(b), AddressOf(q)) == {NameOf(q)} <==>
            (Exists(q) || NameOf(q) in Route(b, AddressOf(q))) && Route(b, AddressOf(q)) <= {NameOf(q)}
  {
    var own := Binding(NameOf(q), AddressOf(q));
    OneBinding(q, own);
    forall name
      ensures name in Route(Declared(b), AddressOf(q)) <==>
            name in Route(b, AddressOf(q)) || (Exists(q) && name == NameOf(q))
    {
      var binding := Binding(name, AddressOf(q));
      OneBinding(q, binding);
      assert binding in Declared(b).bindings <==> binding in b.bindings || binding in Declared(Clean()).bindings;
      assert name in Route(Declared(b), AddressOf(q)) <==> binding in Declared(b).bindings;
      assert name in Route(b, AddressOf(q)) <==> binding in b.bindings;
    }
  }

  /** A message in a retry tier waits as long as the retry policy says and then goes back to the main queue. */
  lemma TiersLeadBack(tier: nat)
    requires 1 <= tier <= TIERS
    ensures var queues := Queues();
            && RetryQueueName(tier) in queues
            && queues[RetryQueueName(tier)] == Expiring(RETRY_DELAYS_SECONDS[tier - 1] * 1000, AddressOf(Copies(Main)))
            && DecideFailureAction(tier - 1) == Retry(tier, tier, queues[RetryQueueName(tier)].ttl / 1000)
  {
    QueueOfTier(TIERS, tier);
    RetryQueueNames(tier, tier);
  }

  /** The queues and exchanges by name: how long each of the five tiers keeps a message and where it then
      goes; the other queues keep theirs, and every exchange is direct. */
  lemma QueuesByName()
    ensures var queues, main := Queues(), Address("email.exchange", "email.deliver");
            && "email.retry.tier1" in queues && queues["email.retry.tier1"] == Expiring(5_000, main)
            && "email.retry.tier2" in queues && queues["email.retry.tier2"] == Expiring(30_000, main)
            && "email.retry.tier3" in queues && queues["email.retry.tier3"] == Expiring(120_000, main)
            && "email.retry.tier4" in queues && queues["email.retry.tier4"] == Expiring(600_000, main)
            && "email.retry.tier5" in queues && queues["email.retry.tier5"] == Expiring(1_800_000, main)
    ensures forall tier: nat :: RetryQueueName(tier) in Queues() <==> 1 <= tier <= 5
    ensures forall name :: name in {"email.queue", "email.dead-letter", "email.status.queue"} ==>
              name in Queues() && Queues()[name] == Plain
    ensures Declared(Clean()).exchanges.Keys
         == {"email.exchange", "email.retry.exchange", "email.dlx", "email.status.exchange"}
    ensures Declared(Clean()).exchanges.Values == {Direct}
  {
    PlainQueues();
    assert "email.dlx" in EXCHANGES;
    TierByName(1, "email.retry.tier1", 5_000);
    TierByName(2, "email.retry.tier2", 30_000);
    TierByName(3, "email.retry.tier3", 120_000);
    TierByName(4, "email.retry.tier4", 600_000);
    TierByName(5, "email.retry.tier5", 1_800_000);
    forall tier: nat
      ensures RetryQueueName(tier) in Queues() <==> 1 <= tier <= 5
    {
      QueueOfTier(TIERS, tier);
      RetryQueueNames(tier, tier);
    }
  }

  lemma PlainQueues()
    ensures forall name :: name in {"email.queue", "email.dead-letter", "email.status.queue"} ==>
              name in Queues() && Queues()[name] == Plain
  {
    QueueOfOthers(TIERS);
    MainQueue(TIERS);
    assert MAIN_QUEUE[6] == 'q' && DEAD_LETTER_QUEUE[6] == 'd' && STATUS_QUEUE[6] == 's';
  }

  lemma {:induction false} MainQueue(n: nat)
    requires n <= TIERS
    ensures MAIN_QUEUE in QueuesUpTo(n) && QueuesUpTo(n)[MAIN_QUEUE] == Plain
  {
    if n == 0 {
    } else {
      RetryQueueNames(n, n);
      MainQueue(n - 1);
    }
  }

  lemma TierByName(tier: nat, name: string, wait: nat)
    requires 1 <= tier <= 5 && name == "email.retry.tier" + ["0123456789"[tier]]
    requires wait == [5_000, 30_000, 120_000, 600_000, 1_800_000][tier - 1]
    ensures RetryQueueName(tier) == name && name in Queues()
    ensures Queues()[name] == Expiring(wait, Address("email.exchange", "email.deliver"))
  {
    TiersLeadBack(tier);
  }

  /** Where each of the four other addresses leads on a broker that had nothing bound. */
  lemma RoutesByName()
    ensures var b := Declared(Clean());
            && Route(b, Address("email.exchange", "email.deliver")) == {"email.queue"}
            && Route(b, Address("email.dlx", "email.dead")) == {"email.dead-letter"}
            && Route(b, Address("email.status.exchange", "email.status")) == {"email.status.queue"}
            && forall tier: nat :: 1 <= tier <= 5 ==>
                 Route(b, Address("email.retry.exchange", RetryQueueName(tier))) == {RetryQueueName(tier)}
  {
    RoutedToOneQueue(Clean(), Copies(Main));
    RoutedToOneQueue(Clean(), Copies(Dead));
    RoutedToOneQueue(Clean(), Statuses);
    forall tier: nat | 1 <= tier <= 5
      ensures Route(Declared(Clean()), Address("email.retry.exchange", RetryQueueName(tier))) == {RetryQueueName(tier)}
    {
      RoutedToOneQueue(Clean(), Copies(Tier(tier)));
    }
  }

  /** What a step publishes to. */
  function TargetsOf(e: Effect): set<Target> {
    (if e.publish.Some? && e.publish.value.place.Queued? then {Copies(e.publish.value.place.queue)} else {})
    + (if e.event.Some? then {Statuses} else {})
  }

  /** What a target is routed to once everything is declared: its own queue alone, unless another queue
      was bound to the address before. */
  predicate Routed(b: Broker, target: Target) {
    Route(Declared(b), AddressOf(target)) == {NameOf(target)} <==> Route(b, AddressOf(target)) <= {NameOf(target)}
  }

  /** Whatever any handler publishes in any run, copy or status event, goes to a queue that is declared,
      never straight to the main queue, and is routed to that queue alone. */
  lemma ProtocolIsRouted(b: Broker, s: State, i: nat, action: Action)
    requires Reachable(s) && Step(s, Act(i, action)).Some?
    ensures var e := Next(s.holders[i], Row(s, s.holders[i].msg), action).value;
            forall target :: target in TargetsOf(e) ==> Exists(target) && target != Copies(Main) && Routed(b, target)
    ensures Next(s.holders[i], Row(s, s.holders[i].msg), action).value.publish.Some? ==>
              Next(s.holders[i], Row(s, s.holders[i].msg), action).value.publish.value.place.Queued?
  {
    TargetsExist(s, i, action);
    hide Step, Next, Reachable;
    forall target | Exists(target)
      ensures Routed(b, target)
    {
      RoutedToOneQueue(b, target);
    }
  }

  lemma TargetsExist(s: State, i: nat, action: Action)
    requires Reachable(s) && Step(s, Act(i, action)).Some?
    ensures var e := Next(s.holders[i], Row(s, s.holders[i].msg), action).value;
            && (e.publish.Some? ==> e.publish.value.place.Queued?)
            && forall target :: target in TargetsOf(e) ==> Exists(target) && target != Copies(Main)
  {
    ReachableInv(s);
    assert HolderOk(s, i);
    MessageOrigin(s, i);
    NextFits(s, i, action);
    hide Next, Step, Reachable;
    var e := Next(s.holders[i], Row(s, s.holders[i].msg), action).value;
    if e.publish.Some? {
      assert PublishOk(s, s.holders[i], e.publish.value);
    }
  }

  /** In every run tiers 3 to 5 hold only the attempt they are named after; a message that was not
      counted up is only ever put into tier 1 or 2. */
  lemma TiersHoldTheirAttempts(s: State, c: nat)
    requires Reachable(s) && c < |s.copies| && s.copies[c].place.Queued? && s.copies[c].place.queue.Tier?
    ensures var tier := s.copies[c].place.queue.tier;
            && Exists(Copies(Tier(tier)))
            && (tier > BREAKER_DEFER_TIER ==> s.copies[c].msg.attempt == tier)
  {
    ReachableInv(s);
    assert CopyOk(s, c);
  }

  /** The declared constant for retries in general gets no binding: on any broker, what is sent to it goes
      only where it went before, and is dropped if that was nowhere. */
  lemma RetryRoutingKeyIsUnrouted(b: Broker)
    ensures var address := Address(RETRY_EXCHANGE, RETRY_ROUTING_KEY);
            Route(Declared(b), address) == Route(b, address)
  {
    var address := Address(RETRY_EXCHANGE, RETRY_ROUTING_KEY);
    assert |EXCHANGE| == 14 && |RETRY_EXCHANGE| == 20 && |DEAD_LETTER_EXCHANGE| == 9 && |STATUS_EXCHANGE| == 21;
    forall tier: nat
      ensures TierBinding(tier).address != address
    {
      RetryQueueNames(tier, tier);
    }
    assert forall binding :: binding in Declared(b).bindings && binding.address == address ==> binding in b.bindings;
  }

  /** Declaring again what is already declared is never refused and changes nothing: reconnecting is
      safe. */
  lemma DeclaredTwice(b: Broker)
    ensures Compatible(Declared(b)) && Declared(Declared(b)) == Declared(b)
  {}

  /******* The channel *******/

  class Channel {
    var exchanges: map<string, Kind>
    var queues: map<string, Arguments>
    var bindings: set<Binding>

    ghost function Contents(): Broker
      reads this
    {
      Broker(exchanges, queues, bindings)
    }

    constructor (b: Broker)
      ensures Contents() == b
    {
      exchanges, queues, bindings := b.exchanges, b.queues, b.bindings;
    }

    method AssertExchange(name: string) returns (ok: bool)
      modifies this`exchanges
      ensures ok <==> (name in old(exchanges) ==> old(exchanges)[name] == Direct)
      ensures exchanges == if ok then old(exchanges)[name := Direct] else old(exchanges)
    {
      ok := name !in exchanges || exchanges[name] == Direct;
      if ok {
        exchanges := exchanges[name := Direct];
      }
    }

    method AssertQueue(name: string, arguments: Arguments) returns (ok: bool)
      modifies this`queues
      ensures ok <==> (name in old(queues) ==> old(queues)[name] == arguments)
      ensures queues == if ok then old(queues)[name := arguments] else old(queues)
    {
      ok := name !in queues || queues[name] == arguments;
      if ok {
        queues := queues[name := arguments];
      }
    }

    method BindQueue(queue: string, exchange: string, key: string) returns (ok: bool)
      modifies this`bindings
      ensures ok <==> queue in queues && exchange in exchanges
      ensures bindings == if ok then old(bindings) + {Binding(queue, Address(exchange, key))} else old(bindings)
    {
      ok := queue in queues && exchange in exchanges;
      if ok {
        bindings := bindings + {Binding(queue, Address(exchange, key))};
      }
    }
  }

  method AssertExchanges(channel: Channel) returns (ok: bool)
    modifies channel`exchanges
    ensures ok <==> Agree(old(channel.exchanges), EXCHANGES)
    ensures ok ==> channel.exchanges == old(channel.exchanges) + EXCHANGES
  {
    assert |EXCHANGE| == 14 && |RETRY_EXCHANGE| == 20 && |DEAD_LETTER_EXCHANGE| == 9 && |STATUS_EXCHANGE| == 21;
    ok := channel.AssertExchange(EXCHANGE);
    if !ok { return; }
    ok := channel.AssertExchange(RETRY_EXCHANGE);
    if !ok { return; }
    ok := channel.AssertExchange(DEAD_LETTER_EXCHANGE);
    if !ok { return; }
    ok := channel.AssertExchange(STATUS_EXCHANGE);
  }

  /** Declare and bind one queue. */
  method AddQueue(channel: Channel, name: string, arguments: Arguments, exchange: string, key: string)
    returns (ok: bool)
    requires exchange in channel.exchanges
    modifies channel`queues, channel`bindings
    ensures ok <==> (name in old(channel.queues) ==> old(channel.queues)[name] == arguments)
    ensures ok ==> channel.queues == old(channel.queues)[name := arguments]
    ensures ok ==> channel.bindings == old(channel.bindings) + {Binding(name, Address(exchange, key))}
  {
    ok := channel.AssertQueue(name, arguments);
    if ok {
      ok := channel.BindQueue(name, exchange, key);
    }
  }

  /** Adding one queue to those that were declared without a contradiction. */
  lemma OneMore<V>(there: map<string, V>, done: map<string, V>, name: string, wanted: V)
    requires Agree(there, done) && name !in done
    ensures Agree(there, done[name := wanted]) <==> (name in there ==> there[name] == wanted)
    ensures there + done[name := wanted] == (there + done)[name := wanted]
    ensures (name in there + done <==> name in there) && (name in there ==> (there + done)[name] == there[name])
  {}

  lemma NextTier(there: map<string, Arguments>, n: nat)
    requires n < TIERS && Agree(there, QueuesUpTo(n))
    ensures var name, wanted, now := RetryQueueName(n + 1), TierArguments(n + 1), there + QueuesUpTo(n);
            && (Agree(there, QueuesUpTo(n + 1)) <==> (name in now ==> now[name] == wanted))
            && there + QueuesUpTo(n + 1) == now[name := wanted]
    ensures BindingsUpTo(n + 1) == BindingsUpTo(n) + {TierBinding(n + 1)}
  {
    QueueOfTier(n, n + 1);
    OneMore(there, QueuesUpTo(n), RetryQueueName(n + 1), TierArguments(n + 1));
  }

  /** Whatever contradicts the first tiers contradicts the whole. */
  lemma {:induction false} Contradicted(there: map<string, Arguments>, n: nat)
    requires n <= TIERS && !Agree(there, QueuesUpTo(n))
    ensures !Agree(there, Queues())
    decreases TIERS - n
  {
    if n < TIERS {
      QueueOfTier(n, n + 1);
      var name :| name in QueuesUpTo(n) && name in there && there[name] != QueuesUpTo(n)[name];
      assert QueuesUpTo(n + 1)[name] == QueuesUpTo(n)[name];
      Contradicted(there, n + 1);
    } else {
      QueueOfOthers(n);
      var name :| name in QueuesUpTo(n) && name in there && there[name] != QueuesUpTo(n)[name];
      assert Queues()[name] == QueuesUpTo(n)[name];
    }
  }

  /** The loop over the tiers, on a broker that had the queues `there` before the main queue was added. */
  method AssertRetryQueues(channel: Channel, ghost there: map<string, Arguments>) returns (ok: bool)
    requires RETRY_EXCHANGE in channel.exchanges
    requires channel.queues == there + QueuesUpTo(0) && Agree(there, QueuesUpTo(0))
    requires MAIN_BINDING in channel.bindings
    modifies channel`queues, channel`bindings
    ensures ok ==> Agree(there, QueuesUpTo(TIERS)) && channel.queues == there + QueuesUpTo(TIERS)
    ensures ok ==> channel.bindings == old(channel.bindings) + BindingsUpTo(TIERS)
    ensures !ok ==> !Agree(there, Queues())
  {
    ok := true;
    ghost var bindings := channel.bindings;
    assert bindings == bindings + BindingsUpTo(0);
    for i := 0 to |RETRY_DELAYS_SECONDS|
      invariant Agree(there, QueuesUpTo(i))
      invariant channel.queues == there + QueuesUpTo(i)
      invariant channel.bindings == bindings + BindingsUpTo(i)
      invariant ok
    {
      var delaySeconds := RETRY_DELAYS_SECONDS[i];
      var queue := RetryQueueName(i + 1);
      NextTier(there, i);
      var arguments := Expiring(delaySeconds * 1000, Address(EXCHANGE, ROUTING_KEY));
      ok := AddQueue(channel, queue, arguments, RETRY_EXCHANGE, queue);
      if !ok {
        Contradicted(there, i + 1);
        return;
      }
    }
  }

  lemma MainAndOthers(there: map<string, Arguments>)
    ensures Agree(there, QueuesUpTo(0)) <==> (MAIN_QUEUE in there ==> there[MAIN_QUEUE] == Plain)
    ensures there + QueuesUpTo(0) == there[MAIN_QUEUE := Plain]
    ensures Agree(there, QueuesUpTo(TIERS)) ==>
              var now := there + QueuesUpTo(TIERS);
              && (Agree(there, Queues()) <==> (DEAD_LETTER_QUEUE in now ==> now[DEAD_LETTER_QUEUE] == Plain)
                                              && (STATUS_QUEUE in now ==> now[STATUS_QUEUE] == Plain))
              && there + Queues() == now[DEAD_LETTER_QUEUE := Plain][STATUS_QUEUE := Plain]
    ensures DEAD_LETTER_QUEUE != STATUS_QUEUE
  {
    QueueOfOthers(TIERS);
    assert |DEAD_LETTER_QUEUE| != |STATUS_QUEUE|;
  }

  /** On any broker the declarations succeed exactly when nothing there contradicts them, and then
      leave what was there plus the whole topology. */
  method AssertTopology(channel: Channel) returns (ok: bool)
    modifies channel
    ensures ok <==> Compatible(old(channel.Contents()))
    ensures ok ==> channel.Contents() == Declared(old(channel.Contents()))
  {
    ghost var b := channel.Contents();
    ok := AssertExchanges(channel);
    if !ok { return; }
    MainAndOthers(b.queues);
    ok := AddQueue(channel, MAIN_QUEUE, Plain, EXCHANGE, ROUTING_KEY);
    if !ok {
      Contradicted(b.queues, 0);
      return;
    }
    ok := AssertRetryQueues(channel, b.queues);
    if !ok { return; }
    ok := AddQueue(channel, DEAD_LETTER_QUEUE, Plain, DEAD_LETTER_EXCHANGE, DEAD_LETTER_ROUTING_KEY);
    if !ok { return; }
    ok := AddQueue(channel, STATUS_QUEUE, Plain, STATUS_EXCHANGE, STATUS_ROUTING_KEY);
  }
}
