/**
 * One operating point of the server (src/PowerState.cpp): a frequency scale
 * factor and an idle state, with the active power, idle power and wake-up
 * latency derived from them by closed-form power models.
 */
module PowerModel {
  import opened Constants
  import opened Wrappers

  /** The idle-state names the constructor accepts. */
  datatype IdleState = C0i | C1 | C3 | C6 | DvfsOnly | Baseline

  /**
   * An operating point. `er` and `ep` are the scratch outputs of the last
   * queue simulation run with it (mean response time and mean power).
   */
  datatype PowerState = PowerState(
    freq: real,
    idle: IdleState,
    actPwr: real,
    idlePwr: real,
    wakeUp: real,
    er: real,
    ep: real)

  /** The name under which the source spells each idle state. */
  function IdleName(s: IdleState): string {
    match s
    case C0i => "C0i"
    case C1 => "C1"
    case C3 => "C3"
    case C6 => "C6"
    case DvfsOnly => "DVFS_only"
    case Baseline => "Baseline"
  }

  /** The constructor's chain of name comparisons; None is the "Invalid power state!" exit. */
  function ParseIdle(name: string): (r: Option<IdleState>)
    ensures r.Some? ==> IdleName(r.value) == name
    ensures forall s: IdleState :: IdleName(s) == name ==> r == Some(s)
  {
    if name == "C0i" then Some(C0i)
    else if name == "C1" then Some(C1)
    else if name == "C3" then Some(C3)
    else if name == "C6" then Some(C6)
    else if name == "DVFS_only" then Some(DvfsOnly)
    else if name == "Baseline" then Some(Baseline)
    else None
  }

  /** What the constructor's assertions demand: 0 < freq <= 1, and freq == 1 for the baseline. */
  predicate Admissible(freq: real, idle: IdleState) {
    0.0 < freq <= 1.0 && (idle == Baseline ==> freq == 1.0)
  }

  /** Active power: core power scales with the cube of the frequency, plus platform power. */
  function ActivePower(f: real): real {
    CoreActMaxPwr * f * f * f + PlatActMaxPwr
  }

  lemma PowersOfFraction(f: real)
    requires 0.0 < f <= 1.0
    ensures 0.0 < f * f <= 1.0 && 0.0 < f * f * f <= 1.0
  {
    assert f * f <= 1.0 * f;
    assert f * f * f <= 1.0 * (f * f);
  }

  /**
   * PowerState::PowerState on an idle state that parsed. The baseline uses
   * race-to-halt with C3 (BASE_USE_R2H_C3).
   */
  function MakePowerState(freq: real, idle: IdleState): (p: PowerState)
    requires Admissible(freq, idle)
    ensures p.freq == freq && p.idle == idle
    ensures p.er == 0.0 && p.ep == 0.0
    ensures p.actPwr == ActivePower(freq)
    ensures PlatIdlePwr <= p.idlePwr <= p.actPwr
    ensures WakeupC0i <= p.wakeUp <= WakeupC6
  {
    PowersOfFraction(freq);
    var act := ActivePower(freq);
    match idle
    case C0i => PowerState(freq, idle, act, 75.0 * freq * freq * freq + PlatIdlePwr, WakeupC0i, 0.0, 0.0)
    case C1 => PowerState(freq, idle, act, 47.0 * freq * freq + PlatIdlePwr, WakeupC1, 0.0, 0.0)
    case C3 => PowerState(freq, idle, act, 22.0 + PlatIdlePwr, WakeupC3, 0.0, 0.0)
    case C6 => PowerState(freq, idle, act, 15.0 + PlatIdlePwr, WakeupC6, 0.0, 0.0)
    case DvfsOnly => PowerState(freq, idle, act, act, WakeupDvfsOnly, 0.0, 0.0)
    case Baseline => PowerState(freq, idle, act, 22.0 + PlatIdlePwr, WakeupC3, 0.0, 0.0)
  }

  /** The constructor on a name: None where the source terminates on an unknown name. */
  function PowerStateOf(freq: real, name: string): (r: Option<PowerState>)
    requires 0.0 < freq <= 1.0
    requires name == "Baseline" ==> freq == 1.0
    ensures r.None? <==> ParseIdle(name).None?
    ensures r.Some? ==> r.value.freq == freq && IdleName(r.value.idle) == name
  {
    match ParseIdle(name)
    case None => None
    case Some(s) => Some(MakePowerState(freq, s))
  }

  /** A catalog entry: a table row, possibly with simulation outputs written into er and ep. */
  predicate TableEntry(p: PowerState) {
    Admissible(p.freq, p.idle) && p.(er := 0.0, ep := 0.0) == MakePowerState(p.freq, p.idle)
  }

  /** The table with the constants of src/const.h written out. */
  lemma OperatingPointTable(f: real)
    requires 0.0 < f <= 1.0
    ensures MakePowerState(f, C0i).idlePwr == 75.0 * f * f * f + 60.0 && MakePowerState(f, C0i).wakeUp == 0.0
    ensures MakePowerState(f, C1).idlePwr == 47.0 * f * f + 60.0 && MakePowerState(f, C1).wakeUp == 0.01
    ensures MakePowerState(f, C3).idlePwr == 82.0 && MakePowerState(f, C3).wakeUp == 0.1
    ensures MakePowerState(f, C6).idlePwr == 75.0 && MakePowerState(f, C6).wakeUp == 1.0
    ensures MakePowerState(f, DvfsOnly).idlePwr == MakePowerState(f, DvfsOnly).actPwr
    ensures MakePowerState(f, DvfsOnly).wakeUp == 0.0
    ensures MakePowerState(f, C0i).actPwr == 130.0 * f * f * f + 120.0
  {
  }

  /** The baseline runs at full speed and races to halt in C3. */
  lemma BaselineIsRaceToHaltC3()
    ensures MakePowerState(1.0, Baseline) == PowerState(1.0, Baseline, 250.0, 82.0, 0.1, 0.0, 0.0)
  {
  }

  /** Deeper idle states wake up more slowly, and C6 draws no more idle power than C3. */
  lemma WakeupOrdered(f: real)
    requires 0.0 < f <= 1.0
    ensures MakePowerState(f, C0i).wakeUp <= MakePowerState(f, C1).wakeUp
    ensures MakePowerState(f, C1).wakeUp <= MakePowerState(f, C3).wakeUp
    ensures MakePowerState(f, C3).wakeUp <= MakePowerState(f, C6).wakeUp
    ensures MakePowerState(f, C6).idlePwr <= MakePowerState(f, C3).idlePwr
  {
  }

  lemma CubeStrictlyIncreasing(a: real, b: real)
    requires 0.0 < a < b
    ensures a * a * a < b * b * b
  {
    assert a * a < b * b by {
      assert a * a < a * b;
      assert a * b < b * b;
    }
    assert a * a * a < b * b * b by {
      assert a * a * a < (a * a) * b;
      assert (a * a) * b < (b * b) * b;
    }
  }

  /** Active power is strictly increasing in the frequency. */
  lemma ActivePowerStrictlyIncreasing(f1: real, f2: real)
    requires 0.0 < f1 < f2 <= 1.0
    ensures ActivePower(f1) < ActivePower(f2)
  {
    CubeStrictlyIncreasing(f1, f2);
  }
}
