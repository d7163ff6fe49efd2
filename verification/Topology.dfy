/** Exchanges, queues and bindings: how declaring them converges, and where messages go. */
module Topology {
  import opened Domain

  datatype ExchangeName = JobsExchange | DeadLetterExchange | EventsExchange

  datatype ExchangeKind = Direct | Fanout | Topic

  datatype QueueId = Consumed(queue: QueueName) | DeadLetterQueue

  /** A routing or binding key, split at its dots. */
  datatype Word = Star | Hash | Text(text: string)
  type RoutingKey = seq<Word>

  const KEY_JOB: RoutingKey := [Text("process")]
  const KEY_PROCESSING: RoutingKey := [Text("video"), Text("processing")]
  const KEY_DONE: RoutingKey := [Text("video"), Text("done")]
  const KEY_FAILED: RoutingKey := [Text("video"), Text("failed")]
  const KEY_EMPTY: RoutingKey := [Text("")]

  datatype Binding = Binding(exchange: ExchangeName, key: RoutingKey, queue: QueueId)

  /** `queues` maps a queue to its `x-dead-letter-exchange` argument. */
  datatype Config = Config(
    exchanges: map<ExchangeName, ExchangeKind>,
    queues: map<QueueId, Option<ExchangeName>>,
    bindings: set<Binding>)

  const EMPTY := Config(map[], map[], {})

  const TARGET := Config(
    map[JobsExchange := Direct, DeadLetterExchange := Fanout, EventsExchange := Topic],
    map[Consumed(JobsQueue) := Some(DeadLetterExchange), DeadLetterQueue := None,
        Consumed(NotificationsQueue) := None, Consumed(StatusQueue) := None],
    {Binding(JobsExchange, KEY_JOB, Consumed(JobsQueue)),
     Binding(DeadLetterExchange, KEY_EMPTY, DeadLetterQueue),
     Binding(EventsExchange, KEY_FAILED, Consumed(NotificationsQueue)),
     Binding(EventsExchange, KEY_PROCESSING, Consumed(StatusQueue)),
     Binding(EventsExchange, KEY_DONE, Consumed(StatusQueue)),
     Binding(EventsExchange, KEY_FAILED, Consumed(StatusQueue))})

  // ----- routing (AMQP 0-9-1, sections 3.1.3.1 to 3.1.3.3) -----------------------------------

  /** `*` stands for exactly one word, `#` for any number of words. */
  predicate TopicMatch(pattern: RoutingKey, key: RoutingKey)
    decreases |pattern| + |key|
  {
    if pattern == [] then key == []
    else if pattern[0] == Hash
    then TopicMatch(pattern[1..], key) || (key != [] && TopicMatch(pattern, key[1..]))
    else key != [] && (pattern[0] == Star || pattern[0] == key[0]) && TopicMatch(pattern[1..], key[1..])
  }

  predicate Matches(kind: ExchangeKind, pattern: RoutingKey, key: RoutingKey) {
    match kind
    case Direct => pattern == key
    case Fanout => true
    case Topic => TopicMatch(pattern, key)
  }

  function Routes(c: Config, exchange: ExchangeName, key: RoutingKey): set<QueueId>
    requires exchange in c.exchanges
  {
    set b | b in c.bindings && b.exchange == exchange && Matches(c.exchanges[exchange], b.key, key) :: b.queue
  }

  /** `#` matches every key, `*` every key of one word. */
  lemma {:induction false} Wildcards(key: RoutingKey)
    ensures TopicMatch([Hash], key)
    ensures TopicMatch([Star], key) <==> |key| == 1
  {
    assert [Hash][1..] == [] && [Star][1..] == [];
    if key == [] {
    } else {
      Wildcards(key[1..]);
    }
  }

  /** Without wildcards, a topic binding matches exactly its own key. */
  lemma {:induction false} LiteralTopicMatch(pattern: RoutingKey, key: RoutingKey)
    requires forall i :: 0 <= i < |pattern| ==> pattern[i].Text?
    ensures TopicMatch(pattern, key) <==> pattern == key
  {
    if pattern == [] || key == [] {
    } else {
      LiteralTopicMatch(pattern[1..], key[1..]);
      if pattern[0] == key[0] && pattern[1..] == key[1..] {
        assert pattern == [pattern[0]] + pattern[1..] == [key[0]] + key[1..] == key;
      }
    }
  }

  lemma KeysDiffer()
    ensures KEY_PROCESSING != KEY_DONE && KEY_DONE != KEY_FAILED && KEY_FAILED != KEY_PROCESSING
  {
    assert KEY_PROCESSING[1] != KEY_DONE[1] && KEY_DONE[1] != KEY_FAILED[1] && KEY_FAILED[1] != KEY_PROCESSING[1];
  }

  /** Once the target topology stands, the queues an event key reaches, for every key. */
  lemma EventRoutes(key: RoutingKey)
    ensures Consumed(StatusQueue) in Routes(TARGET, EventsExchange, key)
            <==> key == KEY_PROCESSING || key == KEY_DONE || key == KEY_FAILED
    ensures Consumed(NotificationsQueue) in Routes(TARGET, EventsExchange, key) <==> key == KEY_FAILED
    ensures Consumed(JobsQueue) !in Routes(TARGET, EventsExchange, key)
    ensures DeadLetterQueue !in Routes(TARGET, EventsExchange, key)
  {
    LiteralTopicMatch(KEY_PROCESSING, key);
    LiteralTopicMatch(KEY_DONE, key);
    LiteralTopicMatch(KEY_FAILED, key);
    assert Binding(EventsExchange, KEY_PROCESSING, Consumed(StatusQueue)) in TARGET.bindings;
    assert Binding(EventsExchange, KEY_DONE, Consumed(StatusQueue)) in TARGET.bindings;
    assert Binding(EventsExchange, KEY_FAILED, Consumed(StatusQueue)) in TARGET.bindings;
    assert Binding(EventsExchange, KEY_FAILED, Consumed(NotificationsQueue)) in TARGET.bindings;
  }

  /** A published job reaches the jobs queue and nothing else; so do rejected jobs and the DLQ. */
  lemma JobRoutes(key: RoutingKey)
    ensures Routes(TARGET, JobsExchange, key) == if key == KEY_JOB then {Consumed(JobsQueue)} else {}
    ensures Routes(TARGET, DeadLetterExchange, key) == {DeadLetterQueue}
    ensures TARGET.queues[Consumed(JobsQueue)] == Some(DeadLetterExchange)
    ensures TARGET.queues[Consumed(StatusQueue)] == TARGET.queues[Consumed(NotificationsQueue)] == None
  {
    assert Binding(JobsExchange, KEY_JOB, Consumed(JobsQueue)) in TARGET.bindings;
    assert Binding(DeadLetterExchange, KEY_EMPTY, DeadLetterQueue) in TARGET.bindings;
  }

  /** Only the jobs queue has a dead-letter exchange. */
  lemma DeadLettering(q: QueueName)
    ensures Consumed(q) in TARGET.queues
    ensures TARGET.queues[Consumed(q)].Some? <==> q == JobsQueue
  {
    match q
    case JobsQueue =>
    case StatusQueue =>
    case NotificationsQueue =>
  }

  // ----- declaring ------------------------------------------------------------------------------

  datatype Declaration =
    | DeclareExchange(name: ExchangeName, kind: ExchangeKind)
    | DeclareQueue(id: QueueId, dlx: Option<ExchangeName>)
    | Bind(binding: Binding)

  /** Redeclaring with the same arguments changes nothing; `None` is a channel error. */
  function Declare(c: Config, d: Declaration): Option<Config> {
    match d
    case DeclareExchange(name, kind) =>
      if name in c.exchanges then (if c.exchanges[name] == kind then Some(c) else None)
      else Some(c.(exchanges := c.exchanges[name := kind]))
    case DeclareQueue(id, dlx) =>
      if id in c.queues then (if c.queues[id] == dlx then Some(c) else None)
      else Some(c.(queues := c.queues[id := dlx]))
    case Bind(b) =>
      if b.exchange in c.exchanges && b.queue in c.queues then Some(c.(bindings := c.bindings + {b})) else None
  }

  /** The configuration already contains what `d` declares. */
  predicate Has(c: Config, d: Declaration) {
    match d
    case DeclareExchange(name, kind) => name in c.exchanges && c.exchanges[name] == kind
    case DeclareQueue(id, dlx) => id in c.queues && c.queues[id] == dlx
    case Bind(b) => b in c.bindings
  }

  predicate Below(c: Config, d: Config) {
    && (forall x :: x in c.exchanges ==> x in d.exchanges && d.exchanges[x] == c.exchanges[x])
    && (forall q :: q in c.queues ==> q in d.queues && d.queues[q] == c.queues[q])
    && c.bindings <= d.bindings
  }

  lemma BelowItself(c: Config)
    ensures Below(c, c)
  {
  }

  const STEPS: nat := 13

  /** The declarations, in the order they are made. */
  function Plan(j: nat): Declaration
    requires j < STEPS
  {
    if j == 0 then DeclareExchange(JobsExchange, Direct)
    else if j == 1 then DeclareExchange(DeadLetterExchange, Fanout)
    else if j == 2 then DeclareQueue(Consumed(JobsQueue), Some(DeadLetterExchange))
    else if j == 3 then Bind(Binding(JobsExchange, KEY_JOB, Consumed(JobsQueue)))
    else if j == 4 then DeclareQueue(DeadLetterQueue, None)
    else if j == 5 then Bind(Binding(DeadLetterExchange, KEY_EMPTY, DeadLetterQueue))
    else if j == 6 then DeclareExchange(EventsExchange, Topic)
    else if j == 7 then DeclareQueue(Consumed(NotificationsQueue), None)
    else if j == 8 then Bind(Binding(EventsExchange, KEY_FAILED, Consumed(NotificationsQueue)))
    else if j == 9 then DeclareQueue(Consumed(StatusQueue), None)
    else if j == 10 then Bind(Binding(EventsExchange, KEY_PROCESSING, Consumed(StatusQueue)))
    else if j == 11 then Bind(Binding(EventsExchange, KEY_DONE, Consumed(StatusQueue)))
    else Bind(Binding(EventsExchange, KEY_FAILED, Consumed(StatusQueue)))
  }

  /** A binding's exchange and queue are declared earlier in the plan. */
  predicate Prepared(c: Config, k: nat)
    requires k <= STEPS
  {
    forall j :: 0 <= j < k ==> Has(c, Plan(j))
  }

  lemma PlanIsTarget(j: nat)
    requires j < STEPS
    ensures Has(TARGET, Plan(j))
  {
  }

  lemma PreparedBind(c: Config, j: nat)
    requires j < STEPS && Prepared(c, j) && Plan(j).Bind?
    ensures Plan(j).binding.exchange in c.exchanges && Plan(j).binding.queue in c.queues
  {
    assert Has(c, Plan(0)) by { assert j > 0; }
    if j > 4 { assert Has(c, Plan(1)) && Has(c, Plan(4)); }
    if j > 7 { assert Has(c, Plan(6)) && Has(c, Plan(7)); }
    if j > 9 { assert Has(c, Plan(9)); }
    if j > 2 { assert Has(c, Plan(2)); }
  }

  /** The next declaration of any run succeeds, stays within the target and undoes nothing. */
  lemma DeclareProgresses(c: Config, j: nat)
    requires Below(c, TARGET) && j < STEPS && Prepared(c, j)
    ensures Declare(c, Plan(j)).Some?
    ensures var d := Declare(c, Plan(j)).value; Below(d, TARGET) && Below(c, d) && Has(d, Plan(j)) && Prepared(d, j + 1)
  {
    PlanIsTarget(j);
    if Plan(j).Bind? { PreparedBind(c, j); }
    var d := Declare(c, Plan(j)).value;
    HasStable(c, d, j);
  }

  lemma HasStable(c: Config, d: Config, k: nat)
    requires Below(c, d) && k <= STEPS && Prepared(c, k)
    ensures Prepared(d, k)
  {
    forall j | 0 <= j < k ensures Has(d, Plan(j)) { assert Has(c, Plan(j)); }
  }

  lemma CompleteIsTarget(c: Config)
    requires Below(c, TARGET) && Prepared(c, STEPS)
    ensures c == TARGET
  {
    assert forall j :: 0 <= j < STEPS ==> Has(c, Plan(j));
    assert Has(c, Plan(0)) && Has(c, Plan(1)) && Has(c, Plan(6));
    assert c.exchanges == TARGET.exchanges;
    assert Has(c, Plan(2)) && Has(c, Plan(4)) && Has(c, Plan(7)) && Has(c, Plan(9));
    assert c.queues == TARGET.queues;
    assert Has(c, Plan(3)) && Has(c, Plan(5)) && Has(c, Plan(8));
    assert Has(c, Plan(10)) && Has(c, Plan(11)) && Has(c, Plan(12));
    assert c.bindings == TARGET.bindings;
  }

  // ----- any number of services starting at once -------------------------------------------------

  /** `done[i]`: how many declarations run `i` has made. */
  datatype Fleet = Fleet(config: Config, done: seq<nat>)

  datatype FleetAction = Start | Step(run: nat)

  predicate FleetEnabled(f: Fleet, a: FleetAction) {
    a.Step? ==> a.run < |f.done| && f.done[a.run] < STEPS
  }

  /** A run that stops early (an error, a crash) simply takes no further step. */
  function FleetNext(f: Fleet, a: FleetAction): Fleet
    requires FleetEnabled(f, a)
  {
    match a
    case Start => f.(done := f.done + [0])
    case Step(i) =>
      var r := Declare(f.config, Plan(f.done[i]));
      if r.Some? then Fleet(r.value, f.done[i := f.done[i] + 1]) else f
  }

  predicate FleetRun(fs: seq<Fleet>, acts: seq<FleetAction>) {
    && |fs| == |acts| + 1
    && fs[0] == Fleet(EMPTY, [])
    && forall i :: 0 <= i < |acts| ==> FleetEnabled(fs[i], acts[i]) && fs[i + 1] == FleetNext(fs[i], acts[i])
  }

  predicate FleetOk(f: Fleet) {
    && Below(f.config, TARGET)
    && forall i :: 0 <= i < |f.done| ==> f.done[i] <= STEPS && Prepared(f.config, f.done[i])
  }

  lemma FleetStepKeeps(f: Fleet, a: FleetAction)
    requires FleetOk(f) && FleetEnabled(f, a)
    ensures FleetOk(FleetNext(f, a))
    ensures a.Step? ==> Declare(f.config, Plan(f.done[a.run])).Some?
  {
    if a.Step? {
      var j := f.done[a.run];
      DeclareProgresses(f.config, j);
      var d := Declare(f.config, Plan(j)).value;
      forall i | 0 <= i < |f.done| && i != a.run ensures Prepared(d, f.done[i]) {
        HasStable(f.config, d, f.done[i]);
      }
    }
  }

  lemma {:induction false} FleetAlwaysOk(fs: seq<Fleet>, acts: seq<FleetAction>)
    requires FleetRun(fs, acts)
    ensures FleetOk(fs[|acts|])
  {
    if acts == [] {
    } else {
      var n := |acts| - 1;
      FleetAlwaysOk(fs[..n + 1], acts[..n]);
      FleetStepKeeps(fs[n], acts[n]);
    }
  }

  /** Whatever the interleaving, the topology never leaves the target, no declaration is refused,
      and it equals the target as soon as one run has finished. */
  lemma TopologyConverges(fs: seq<Fleet>, acts: seq<FleetAction>)
    requires FleetRun(fs, acts)
    ensures var f := fs[|acts|];
            && Below(f.config, TARGET)
            && (forall i :: 0 <= i < |f.done| && f.done[i] < STEPS ==> Declare(f.config, Plan(f.done[i])).Some?)
            && ((exists i :: 0 <= i < |f.done| && f.done[i] == STEPS) ==> f.config == TARGET)
  {
    FleetAlwaysOk(fs, acts);
    var f := fs[|acts|];
    forall i | 0 <= i < |f.done| && f.done[i] < STEPS ensures Declare(f.config, Plan(f.done[i])).Some? {
      DeclareProgresses(f.config, f.done[i]);
    }
    if i :| 0 <= i < |f.done| && f.done[i] == STEPS {
      CompleteIsTarget(f.config);
    }
  }

  // ----- the code -----------------------------------------------------------------------------------

  /** A service's channel to the broker it shares with the others. */
  class Channel {
    var config: Config

    constructor ()
      ensures config == EMPTY
    {
      config := EMPTY;
    }

    /** Other services declaring meanwhile, as far as `FleetAlwaysOk` lets them. */
    method Others()
      requires Below(config, TARGET)
      modifies this
      ensures Below(config, TARGET) && Below(old(config), config)
    {
    }

    /** One declaration; the connection may fail, before or after the broker has acted. */
    method Send(d: Declaration, eff: Effect) returns (err: bool)
      modifies this
      ensures config == if eff.Landed() && Declare(old(config), d).Some? then Declare(old(config), d).value
                        else old(config)
      ensures err <==> eff != Works || Declare(old(config), d).None?
    {
      var r := Declare(config, d);
      if r.Some? && eff.Landed() { config := r.value; }
      err := r.None? || eff != Works;
    }

    /** Declaration `j` of the plan, with others interfering before it; nothing declared in `was` is undone. */
    method Ask(d: Declaration, ghost j: nat, eff: Effect, ghost was: Config) returns (err: bool)
      requires Below(config, TARGET) && j < STEPS && d == Plan(j) && Prepared(config, j)
      requires Below(was, config)
      modifies this
      ensures Below(config, TARGET) && Below(was, config)
      ensures err <==> eff != Works
      ensures !err ==> Prepared(config, j + 1)
    {
      Others();
      HasStable(old(config), config, j);
      DeclareProgresses(config, j);
      err := Send(d, eff);
    }

    /** Jobs exchange and queue, with dead-lettering. `effects(j)` is how declaration j goes. */
    method DeclareJobs(effects: nat -> Effect) returns (err: bool)
      requires Below(config, TARGET)
      modifies this
      ensures Below(config, TARGET) && Below(old(config), config)
      ensures err <==> exists j :: 0 <= j < 6 && effects(j) != Works
      ensures !err ==> Prepared(config, 6)
    {
      hide Prepared, Has, Declare, Below;
      ghost var was := config;
      BelowItself(was);
      err := Ask(DeclareExchange(JobsExchange, Direct), 0, effects(0), was);
      if err { return; }
      err := Ask(DeclareExchange(DeadLetterExchange, Fanout), 1, effects(1), was);
      if err { return; }
      err := Ask(DeclareQueue(Consumed(JobsQueue), Some(DeadLetterExchange)), 2, effects(2), was);
      if err { return; }
      err := Ask(Bind(Binding(JobsExchange, KEY_JOB, Consumed(JobsQueue))), 3, effects(3), was);
      if err { return; }
      err := Ask(DeclareQueue(DeadLetterQueue, None), 4, effects(4), was);
      if err { return; }
      err := Ask(Bind(Binding(DeadLetterExchange, KEY_EMPTY, DeadLetterQueue)), 5, effects(5), was);
      if err { return; }
    }

    /** Events exchange and its consumer queues. */
    method DeclareEvents(effects: nat -> Effect) returns (err: bool)
      requires Below(config, TARGET) && Prepared(config, 6)
      modifies this
      ensures Below(config, TARGET) && Below(old(config), config)
      ensures err <==> exists j :: 6 <= j < STEPS && effects(j) != Works
      ensures !err ==> Prepared(config, STEPS)
    {
      hide Prepared, Has, Declare, Below;
      ghost var was := config;
      BelowItself(was);
      err := Ask(DeclareExchange(EventsExchange, Topic), 6, effects(6), was);
      if err { return; }
      err := Ask(DeclareQueue(Consumed(NotificationsQueue), None), 7, effects(7), was);
      if err { return; }
      err := Ask(Bind(Binding(EventsExchange, KEY_FAILED, Consumed(NotificationsQueue))), 8, effects(8), was);
      if err { return; }
      err := Ask(DeclareQueue(Consumed(StatusQueue), None), 9, effects(9), was);
      if err { return; }
      err := BindStatusQueue(effects, was);
    }

    /** The gateway's queue takes every lifecycle event. */
    method BindStatusQueue(effects: nat -> Effect, ghost was: Config) returns (err: bool)
      requires Below(config, TARGET) && Prepared(config, 10) && Below(was, config)
      modifies this
      ensures Below(config, TARGET) && Below(was, config)
      ensures err <==> exists j :: 10 <= j < STEPS && effects(j) != Works
      ensures !err ==> Prepared(config, STEPS)
    {
      err := false;
      var keys := [KEY_PROCESSING, KEY_DONE, KEY_FAILED];
      var i := 0;
      while i < |keys|
        invariant 0 <= i <= |keys|
        invariant Below(config, TARGET) && Below(was, config) && Prepared(config, 10 + i)
        invariant !err && forall j :: 10 <= j < 10 + i ==> effects(j) == Works
      {
        assert Plan(10 + i) == Bind(Binding(EventsExchange, keys[i], Consumed(StatusQueue)));
        err := Ask(Bind(Binding(EventsExchange, keys[i], Consumed(StatusQueue))), 10 + i, effects(10 + i), was);
        if err { return; }
        i := i + 1;
      }
    }

    /** Returns nil exactly when all thirteen declarations are answered, and then the whole target
        stands, whatever the other services do meanwhile. */
    method DeclareTopology(effects: nat -> Effect) returns (err: bool)
      requires Below(config, TARGET)
      modifies this
      ensures Below(config, TARGET) && Below(old(config), config)
      ensures err <==> exists j :: 0 <= j < STEPS && effects(j) != Works
      ensures !err ==> config == TARGET
    {
      err := DeclareJobs(effects);
      if err { return; }
      err := DeclareEvents(effects);
      if err { return; }
      CompleteIsTarget(config);
    }
  }
}
