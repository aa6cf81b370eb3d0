/**
 * The simulator's network object, seen from the modelling layer: a registry of named
 * objects (populations, synaptic complexes and recorders) that the model code adds to and
 * looks up by name.
 *
 * The simulator keeps a list of objects; an object registered under a name that is already
 * taken stays in the list and makes the network refuse to start. The registry below takes
 * `net[name]` to return the first object with that name: it keeps the first registration of
 * every key and logs every later registration of a taken key in `clashes`.
 */
module Network {
  import opened Wrappers

  /** The `behavior` argument a model-neuron population was built with. */
  datatype Behavior =
    | Representation   // 'ir'
    | Interneuron      // 'i'
    | Default          // argument left out

  datatype PopKind =
    | PoissonRates                          // unit i fires when rand() < rates * dt
    | Generator(spikes: seq<(nat, int)>)    // fixed (unit index, time) schedule
    | Neurons(behavior: Behavior)           // adaptive exponential integrate-and-fire units

  /** Which (source unit, target unit) pairs a synaptic complex connects. */
  datatype Pattern =
    | OneToOne                                      // 'i==j'
    | AllButSelf                                    // 'i!=j'
    | ToTarget(k: nat)                              // 'j==k'
    | Pairs(sources: seq<nat>, targets: seq<nat>)   // explicit aligned index lists

  datatype MonitorKind = SpikeTimes | StateTrace(variable: string)

  /** Delays are in microseconds; `None` is a connection created without a delay argument. */
  datatype Entry =
    | Population(kind: PopKind, size: nat)
    | Connection(src: string, dst: string, pattern: Pattern, weight: int,
                 delay: Option<nat>, suffix: string, plastic: bool)
    | Monitor(target: string, monitor: MonitorKind)

  /**
   * Populations and recorders carry the name the model code gives them. A synaptic complex is
   * keyed by its ordered population pair and its disambiguating suffix.
   */
  datatype Key = Named(name: string) | Wire(src: string, dst: string, suffix: string)

  datatype Registration = Registration(key: Key, entry: Entry)

  function Pop(name: string, kind: PopKind, size: nat): Registration
  {
    Registration(Named(name), Population(kind, size))
  }

  function Conn(src: string, dst: string, pattern: Pattern, weight: int,
                delay: Option<nat>, suffix: string, plastic: bool): Registration
  {
    Registration(Wire(src, dst, suffix), Connection(src, dst, pattern, weight, delay, suffix, plastic))
  }

  function Mon(name: string, target: string, kind: MonitorKind): Registration
  {
    Registration(Named(name), Monitor(target, kind))
  }

  datatype Registry = Registry(entries: map<Key, Entry>, clashes: seq<Key>)

  const Empty: Registry := Registry(map[], [])

  /** Adds one object: the first registration of a key is the one lookups see. */
  function Register(r: Registry, reg: Registration): (r': Registry)
    ensures r'.entries.Keys == r.entries.Keys + {reg.key}
    ensures forall k :: k in r.entries ==> r'.entries[k] == r.entries[k]
    ensures reg.key !in r.entries ==> r'.entries[reg.key] == reg.entry
    ensures reg.key in r.entries <==> |r'.clashes| == |r.clashes| + 1
    ensures r.clashes <= r'.clashes && forall k :: k in r'.clashes ==> k in r.clashes || k == reg.key
  {
    if reg.key in r.entries then Registry(r.entries, r.clashes + [reg.key])
    else Registry(r.entries[reg.key := reg.entry], r.clashes)
  }

  /** Registers a sequence of objects in order. */
  function AddAll(r: Registry, plan: seq<Registration>): Registry
    decreases |plan|
  {
    if plan == [] then r else AddAll(Register(r, plan[0]), plan[1..])
  }

  /** `net[name]`: the object registered under `name`, or `None` where the simulator raises KeyError. */
  function Lookup(r: Registry, name: string): Option<Entry>
  {
    if Named(name) in r.entries then Some(r.entries[Named(name)]) else None
  }

  predicate Registered(plan: seq<Registration>, k: Key)
  {
    exists reg :: reg in plan && reg.key == k
  }

  /** How many registrations of `plan` use key `k`. */
  function Occurrences(plan: seq<Registration>, k: Key): nat
  {
    if plan == [] then 0
    else (if plan[0].key == k then 1 else 0) + Occurrences(plan[1..], k)
  }

  lemma {:induction false} AddAllConcat(r: Registry, a: seq<Registration>, b: seq<Registration>)
    ensures AddAll(r, a + b) == AddAll(AddAll(r, a), b)
    decreases |a|
  {
    if a != [] {
      assert (a + b)[1..] == a[1..] + b;
      AddAllConcat(Register(r, a[0]), a[1..], b);
    } else {
      assert a + b == b;
    }
  }

  lemma {:induction false} OccurrencesConcat(a: seq<Registration>, b: seq<Registration>, k: Key)
    ensures Occurrences(a + b, k) == Occurrences(a, k) + Occurrences(b, k)
    decreases |a|
  {
    if a != [] {
      assert (a + b)[1..] == a[1..] + b;
      OccurrencesConcat(a[1..], b, k);
    } else {
      assert a + b == b;
    }
  }

  lemma {:induction false} OccurrencesAbsent(plan: seq<Registration>, k: Key)
    requires forall x :: x in plan ==> x.key != k
    ensures Occurrences(plan, k) == 0
    decreases |plan|
  {
    if plan != [] {
      assert plan[0] in plan;
      OccurrencesAbsent(plan[1..], k);
    }
  }

  lemma OccurrencesPair(x: Registration, y: Registration, k: Key)
    ensures Occurrences([x, y], k) == (if x.key == k then 1 else 0) + (if y.key == k then 1 else 0)
  {
    assert [x, y][1..] == [y];
    assert [y][1..] == [];
    assert Occurrences([y], k) == (if y.key == k then 1 else 0) + Occurrences([], k);
  }

  /**
   * After registering a sequence, a key is present iff it was present or the sequence registers
   * it, and an entry that was present is never replaced.
   */
  lemma {:induction false} AddAllEntries(r: Registry, plan: seq<Registration>, k: Key)
    ensures k in AddAll(r, plan).entries <==> k in r.entries || Registered(plan, k)
    ensures k in r.entries ==> AddAll(r, plan).entries[k] == r.entries[k]
    decreases |plan|
  {
    if plan != [] {
      AddAllEntries(Register(r, plan[0]), plan[1..], k);
      assert plan == [plan[0]] + plan[1..];
      if Registered(plan, k) && !Registered(plan[1..], k) {
        assert plan[0].key == k;
      }
    }
  }

  /** The first registration of a fresh key is the entry lookups return. */
  lemma FirstRegistrationWins(r: Registry, plan: seq<Registration>)
    requires plan != [] && plan[0].key !in r.entries
    ensures plan[0].key in AddAll(r, plan).entries
    ensures AddAll(r, plan).entries[plan[0].key] == plan[0].entry
  {
    AddAllEntries(Register(r, plan[0]), plan[1..], plan[0].key);
  }

  /**
   * A key is logged as a clash iff it was already logged, or it is registered at least twice
   * counting a registration already in the registry.
   */
  lemma {:induction false} AddAllClashes(r: Registry, plan: seq<Registration>, k: Key)
    ensures k in AddAll(r, plan).clashes <==>
              k in r.clashes || Occurrences(plan, k) + (if k in r.entries then 1 else 0) >= 2
    decreases |plan|
  {
    if plan != [] {
      AddAllClashes(Register(r, plan[0]), plan[1..], k);
    }
  }

  /** `reg` is in `plan`, and no other registration of `plan` uses its key. */
  predicate Sole(plan: seq<Registration>, reg: Registration)
  {
    reg in plan && forall x :: x in plan && x.key == reg.key ==> x == reg
  }

  /** A registration whose key is fresh and used by nothing else in the plan is what lookups see. */
  lemma {:induction false} SoleRegistrationWins(r: Registry, plan: seq<Registration>, reg: Registration)
    requires Sole(plan, reg) && reg.key !in r.entries
    ensures reg.key in AddAll(r, plan).entries
    ensures AddAll(r, plan).entries[reg.key] == reg.entry
    decreases |plan|
  {
    if plan[0] == reg {
      FirstRegistrationWins(r, plan);
    } else {
      assert plan[0].key != reg.key;
      assert reg in plan[1..];
      SoleRegistrationWins(Register(r, plan[0]), plan[1..], reg);
    }
  }

  class Net {
    var entries: map<Key, Entry>
    var clashes: seq<Key>
    /** Every registration made so far, in order. */
    ghost var history: seq<Registration>

    function State(): Registry
      reads this
    {
      Registry(entries, clashes)
    }

    ghost predicate Valid()
      reads this
    {
      State() == AddAll(Empty, history)
    }

    constructor ()
      ensures Valid() && history == [] && State() == Empty
    {
      entries, clashes, history := map[], [], [];
    }

    /** `net.add(obj)`. */
    method Add(reg: Registration)
      requires Valid()
      modifies this
      ensures Valid()
      ensures history == old(history) + [reg]
      ensures State() == Register(old(State()), reg)
    {
      if reg.key in entries {
        clashes := clashes + [reg.key];
      } else {
        entries := entries[reg.key := reg.entry];
      }
      AddAllConcat(Empty, history, [reg]);
      history := history + [reg];
    }

    /** `net[name]`. */
    method Get(name: string) returns (e: Option<Entry>)
      ensures e == Lookup(State(), name)
    {
      if Named(name) in entries {
        e := Some(entries[Named(name)]);
      } else {
        e := None;
      }
    }
  }
}
