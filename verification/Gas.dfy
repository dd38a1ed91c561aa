/**
 * Charging for execution: the engine burns fuel from a full tank, and now and then what was burned is
 * turned into gas on the meter and the tank is filled again.
 */
module Gas {
  import opened Common

  const SYNC_THRESHOLD: nat := 1024 * 16
  const FUEL_PER_GAS: nat := 1024

  datatype Tank = Tank(rest: nat, gas: nat)

  ghost predicate TankOk(t: Tank) {
    t.rest <= U64_MAX
  }

  const FULL: Tank := Tank(U64_MAX, 0)

  ghost function Consumed(t: Tank): nat
    requires TankOk(t)
  {
    U64_MAX - t.rest
  }

  ghost function Synced(t: Tank): Tank
    requires TankOk(t)
  {
    if Consumed(t) > SYNC_THRESHOLD then Tank(U64_MAX, t.gas + Consumed(t) / FUEL_PER_GAS) else t
  }

  class Store {
    var rest: nat
    var gas: nat

    ghost function Model(): Tank
      reads this
    {
      Tank(rest, gas)
    }

    constructor ()
      ensures Model() == FULL
    {
      rest, gas := U64_MAX, 0;
    }

    method SyncGas()
      requires TankOk(Model())
      modifies this
      ensures Model() == Synced(old(Model()))
    {
      var consumed := U64_MAX - rest;
      if consumed > SYNC_THRESHOLD {
        gas := gas + consumed / FUEL_PER_GAS;
        rest := U64_MAX;
      }
    }
  }

  /** Some fuel is burned, at most what is left, or the gas is synchronised. */
  datatype Event = Burn(fuel: nat) | Sync

  ghost predicate Enabled(t: Tank, e: Event) {
    e.Burn? ==> e.fuel <= t.rest
  }

  ghost function Apply(t: Tank, e: Event): Tank
    requires TankOk(t) && Enabled(t, e)
  {
    match e
    case Burn(fuel) => t.(rest := t.rest - fuel)
    case Sync => Synced(t)
  }

  ghost predicate IsRun(t: Tank, run: seq<Event>)
    requires TankOk(t)
    decreases run
  {
    run == [] || (Enabled(t, run[0]) && IsRun(Apply(t, run[0]), run[1..]))
  }

  ghost function Exec(t: Tank, run: seq<Event>): (r: Tank)
    requires TankOk(t) && IsRun(t, run)
    ensures TankOk(r)
    decreases run
  {
    if run == [] then t else Exec(Apply(t, run[0]), run[1..])
  }

  /** All the fuel burned in a run. */
  ghost function Burned(run: seq<Event>): nat {
    if run == [] then 0 else (if run[0].Burn? then run[0].fuel else 0) + Burned(run[1..])
  }

  /** `burned` is the fuel burned so far: what gas accounts for, within one part in sixteen, and what is pending. */
  ghost predicate Accounted(t: Tank, burned: nat)
    requires TankOk(t)
  {
    FUEL_PER_GAS * t.gas + Consumed(t) <= burned <= (FUEL_PER_GAS + 64) * t.gas + Consumed(t)
  }

  lemma SyncAccounts(t: Tank, burned: nat)
    requires TankOk(t) && Accounted(t, burned)
    ensures Accounted(Synced(t), burned)
  {
    var c := Consumed(t);
    assert c == FUEL_PER_GAS * (c / FUEL_PER_GAS) + c % FUEL_PER_GAS;
  }

  lemma {:induction false} RunAccounts(t: Tank, run: seq<Event>, burned: nat)
    requires TankOk(t) && IsRun(t, run) && Accounted(t, burned)
    ensures Accounted(Exec(t, run), burned + Burned(run))
    decreases run
  {
    if run != [] {
      if run[0].Sync? {
        SyncAccounts(t, burned);
        RunAccounts(Apply(t, run[0]), run[1..], burned);
      } else {
        RunAccounts(Apply(t, run[0]), run[1..], burned + run[0].fuel);
      }
    }
  }

  /**
   * Right after any synchronisation of any run, the gas charged never exceeds the fuel burned, and what is
   * not charged is at most one sixteenth of a unit per unit of gas plus one threshold.
   */
  lemma GasTracksFuel(run: seq<Event>)
    requires IsRun(FULL, run)
    ensures var t := Synced(Exec(FULL, run));
      FUEL_PER_GAS * t.gas <= Burned(run) <= (FUEL_PER_GAS + 64) * t.gas + SYNC_THRESHOLD
  {
    RunAccounts(FULL, run, 0);
    SyncAccounts(Exec(FULL, run), Burned(run));
  }
}
