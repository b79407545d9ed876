/** The Helium-3 unload station and the unload time it stores. */
module UnloadStation {
  import opened Wrappers

  /** Simulation minutes a Helium-3 station needs per unload (H3UnloadStation.UNLOAD_TIME). */
  const UnloadTime: int := 5

  datatype MiningType = Helium3

  class H3UnloadStation {
    const name: string
    const miningType: MiningType
    const simTimeUnit: int
    /** `_unload_time`; None until the first calculation assigns it. */
    var unloadTime: Option<int>

    /** The fields stored by the inherited MiningTruck constructor. */
    constructor (name: string, miningType: MiningType, simTimeUnit: int)
      ensures this.name == name && this.miningType == miningType && this.simTimeUnit == simTimeUnit
      ensures unloadTime == None
    {
      this.name := name;
      this.miningType := miningType;
      this.simTimeUnit := simTimeUnit;
      unloadTime := None;
    }

    /** calculate_unload_time_in_simulation: stores unit * UNLOAD_TIME and writes nothing else. */
    method CalculateUnloadTimeInSimulation(simTimeUnit: int)
      modifies this`unloadTime
      ensures unloadTime == Some(simTimeUnit * UnloadTime)
      ensures simTimeUnit > 0 ==> unloadTime.value > 0
    {
      unloadTime := Some(simTimeUnit * UnloadTime);
    }
  }

  /** The stored unload time grows strictly with the unit. */
  lemma UnloadTimeIncreasing(u1: int, u2: int)
    requires u1 < u2
    ensures u1 * UnloadTime < u2 * UnloadTime
  {
  }

  /** Calculating twice with the same unit leaves the station as calculating once does. */
  method CalculateTwiceAsOnce(simTimeUnit: int) returns (once: Option<int>, twice: Option<int>)
    ensures once == twice
    ensures once == Some(5 * simTimeUnit)
  {
    var a := new H3UnloadStation("A", Helium3, simTimeUnit);
    a.CalculateUnloadTimeInSimulation(simTimeUnit);
    var b := new H3UnloadStation("B", Helium3, simTimeUnit);
    b.CalculateUnloadTimeInSimulation(simTimeUnit);
    b.CalculateUnloadTimeInSimulation(simTimeUnit);
    once, twice := a.unloadTime, b.unloadTime;
  }
}
