/**
 * The adaptive exponential integrate-and-fire neuron group: its fixed constants, its reset rule
 * and the table of electrophysiological presets `neurons` picks from by tag.
 *
 * Units are integers: voltages in 0.1 mV, times in microseconds, currents in femtoamperes,
 * capacitance in picofarads, conductances in picosiemens (as a fraction where the value is not
 * whole).
 */
module NeuronModel {
  import opened Wrappers

  /** Membrane capacitance, 281 pF. */
  const C := 281
  /** Leak conductance, 30 nS. */
  const GL := 30000
  /** Resting potential, -70.6 mV. */
  const EL := -706
  /** Threshold potential, -50.4 mV. */
  const VT := -504
  /** Slope factor, 2 mV. */
  const DeltaT := 20
  /** Spike cut-off, `VT + 5 * DeltaT`. */
  const Vcut := VT + 5 * DeltaT

  /** A rational value `num / den`. */
  datatype Frac = Frac(num: int, den: int)

  predicate WellFormed(f: Frac)
  {
    f.den > 0
  }

  predicate SameValue(f: Frac, g: Frac)
  {
    f.num * g.den == g.num * f.den
  }

  /** Per-unit parameters: adaptation time constant, subthreshold adaptation, spike-triggered adaptation, reset. */
  datatype Params = Params(tauw: nat, a: Frac, b: int, vr: int)

  /** 'rs', regular spiking. */
  const RegularSpiking := Params(144000, Frac(4000, 1), 80500, -706)
  /** 'b', bursting: reset 5 mV above `VT`. */
  const Bursting := Params(20000, Frac(4000, 1), 500000, VT + 50)
  /** 'fs', fast spiking: `a = 2 C / tauw` with `tauw` = 144 ms, and no spike-triggered adaptation. */
  const FastSpiking := Params(144000, Frac(2 * C * 1000000, 144000), 0, -706)

  /** The tags `neurons` accepts. */
  const Tags := {"rs", "b", "fs"}

  /** The preset for `tag`, or `None` where `neurons` raises `NotImplementedError`. */
  function Preset(tag: string): (p: Option<Params>)
    ensures p.Some? <==> tag in Tags
  {
    if tag == "rs" then Some(RegularSpiking)
    else if tag == "b" then Some(Bursting)
    else if tag == "fs" then Some(FastSpiking)
    else None
  }

  /** A unit fires once its membrane potential exceeds `Vcut`. */
  predicate Fires(vm: int)
  {
    vm > Vcut
  }

  /** The reset after a spike: `vm = Vr; w += b`. */
  function Reset(p: Params, vm: int, w: int): (int, int)
  {
    (p.vr, w + p.b)
  }

  datatype Unsupported = NotImplemented(tag: string)

  /** The state `neurons` leaves in a group: one value per unit for each variable. */
  class Group {
    const size: nat
    const name: string
    var vm: seq<int>
    var tauw: seq<nat>
    var a: seq<Frac>
    var b: seq<int>
    var vr: seq<int>

    /** A new group: every variable starts at zero. */
    constructor (size: nat, name: string)
      ensures this.size == size && this.name == name
      ensures vm == seq(size, _ => 0) && b == seq(size, _ => 0) && vr == seq(size, _ => 0)
      ensures tauw == seq(size, _ => 0) && a == seq(size, _ => Frac(0, 1))
    {
      this.size := size;
      this.name := name;
      vm := seq(size, _ => 0);
      tauw := seq(size, _ => 0);
      a := seq(size, _ => Frac(0, 1));
      b := seq(size, _ => 0);
      vr := seq(size, _ => 0);
    }

    /** Every unit carries the parameters `p`. */
    predicate Carries(p: Params)
      reads this
    {
      && |tauw| == size && |a| == size && |b| == size && |vr| == size
      && (forall i :: 0 <= i < size ==> tauw[i] == p.tauw)
      && (forall i :: 0 <= i < size ==> a[i] == p.a)
      && (forall i :: 0 <= i < size ==> b[i] == p.b)
      && (forall i :: 0 <= i < size ==> vr[i] == p.vr)
    }

    /** Assigns the four per-unit parameters, each to every unit. */
    method Assign(p: Params)
      modifies this
      ensures Carries(p) && vm == old(vm)
    {
      tauw := seq(size, _ => p.tauw);
      a := seq(size, _ => p.a);
      b := seq(size, _ => p.b);
      vr := seq(size, _ => p.vr);
    }
  }

  /**
   * `neurons(n, behavior, name)`: a group of `n` units, all at rest, with the parameters of the
   * preset `behavior`; an unknown tag is refused.
   */
  method Neurons(n: nat, behavior: string := "rs", name: string := "") returns (res: Result<Group, Unsupported>)
    ensures res.Success? <==> behavior in Tags
    ensures res.Failure? ==> res.error == NotImplemented(behavior)
    ensures res.Success? ==>
              && fresh(res.value) && res.value.size == n && res.value.name == name
              && res.value.vm == seq(n, _ => EL)
              && res.value.Carries(Preset(behavior).value)
  {
    var group := new Group(n, name);
    group.vm := seq(n, _ => EL);
    if behavior == "rs" {
      group.Assign(RegularSpiking);
    } else if behavior == "b" {
      group.Assign(Bursting);
    } else if behavior == "fs" {
      group.Assign(FastSpiking);
    } else {
      return Failure(NotImplemented(behavior));
    }
    res := Success(group);
  }

  /** `Vcut` is -40.4 mV, above the resting potential: a unit at rest does not fire. */
  lemma RestBelowCutoff()
    ensures Vcut == -404 && EL < Vcut && !Fires(EL)
  {
  }

  /**
   * For every accepted tag the reset potential is below the cut-off, so a unit that has just been
   * reset does not fire again at once, and spike-triggered adaptation never lowers `w`.
   */
  lemma ResetQuiets(tag: string, vm: int, w: int)
    requires tag in Tags
    ensures var (vm', w') := Reset(Preset(tag).value, vm, w); !Fires(vm') && w' >= w
  {
  }

  /**
   * Every preset is physically meaningful: a positive adaptation time constant and a positive
   * subthreshold adaptation conductance.
   */
  lemma PresetsPositive(tag: string)
    requires tag in Tags
    ensures Preset(tag).value.tauw > 0
    ensures WellFormed(Preset(tag).value.a) && Preset(tag).value.a.num > 0
  {
  }

  /** The fast-spiking `a` is `2 C / tauw`, which is 35125/9 pS (about 3.9 nS). */
  lemma FastSpikingCoupling()
    ensures var p := Preset("fs").value;
            p.a.num * p.tauw == 2 * C * 1000000 * p.a.den && SameValue(p.a, Frac(35125, 9))
  {
  }

  /** The bursting reset is 5 mV above `VT`, that is -45.4 mV, between rest and cut-off. */
  lemma BurstingResetAboveRest()
    ensures var p := Preset("b").value; p.vr == VT + 50 == -454 && EL < p.vr < Vcut
  {
  }
}
