# Mining simulation core, in Dafny

This project models the sequential core of an early revision of a Helium-3 mining
simulation. In that simulation, trucks mine and then queue at unload stations run by a
control center. The model covers four parts:

- **Time scaler** (`time_converter.dfy`, module `TimeConverter`). It converts simulation
  minutes to real seconds (`minutes / unit`) and real seconds back to minutes
  (`round(seconds * unit)`). It also renders an elapsed wall-clock span as an `HH:MM`
  simulation timestamp. Every conversion rejects a non-positive unit with `ValueError`. The
  formatter also rejects a current time that is earlier than the start time, and it checks
  the unit first. Python floats are modelled as exact `real`s. Python's `round` is
  roundTiesToEven (section 4.3.1 of IEEE 754-2008), specified by `IsRoundTiesToEven`.
  Python's `int()` on a float truncates toward zero. The `:02d` format pads to at least two
  digits.
- **Control-center queues** (`mining_control_center.dfy`, module `ControlCenter`). A class
  has one `seq` field for each deque: the truck roster, the available stations, the
  stations in use, and the trucks waiting to unload. All four are empty after construction.
  `truck_arrived` appends to the waiting line. `unload_complete` removes the first
  occurrence of the station from the in-use queue (`deque.remove`) and appends the station
  to the available queue. When the station is not in use, it raises `ValueError` and
  nothing changes.
- **Helium-3 unload station** (`h3_unload_station.dfy`, module `UnloadStation`).
  `calculate_unload_time_in_simulation(u)` stores `u * UNLOAD_TIME` (5) in `_unload_time`
  and writes no other field.
- **Integer prompt** (`main_prompt.dfy`, module `MainPrompt`). `get_integer` reads input
  until the first value that is positive and, when a non-empty selection list is given,
  listed in it. The simulation time unit is asked with the list `[1, 2, 5, 10]`. Typed text
  is given as a sequence of tokens already passed through `int()`. `None` stands for text
  that `int()` rejects.

`wrappers.dfy` holds `Option`, `Result`, `Outcome` and `ValueError`. These model Python's
"returns or raises".

The timestamp is `HH:MM`: hours are `minutes // 60` and minutes are `minutes % 60`. In this
revision, an arriving truck is not matched to a free station, and a freed station does not
take the next waiting truck. The control center only appends to and removes from its
queues.

## Model

| member | source | states |
|---|---|---|
| TimeConverter.SimToRealSeconds | time_converter.py:1-14 | raises ValueError exactly when unit <= 0; otherwise the seconds times the unit give back the minutes |
| TimeConverter.Round | time_converter.py:30 | Python's round: a nearest integer, the even one on a tie |
| TimeConverter.RoundIsUnique | time_converter.py:30 | only one integer satisfies the ties-to-even rule, and Round returns it |
| TimeConverter.RealToSimMinutes | time_converter.py:17-30 | raises ValueError exactly when unit <= 0; otherwise the result is realTime * unit rounded half to even |
| TimeConverter.SimRealRoundTrip | time_converter.py:11-30 | for unit > 0, minutes converted to seconds and back give exactly the same minutes |
| TimeConverter.RealSimRoundTrip | time_converter.py:14-30 | seconds converted to minutes and back move by at most half a minute, i.e. 0.5 / unit seconds |
| TimeConverter.Truncate | time_converter.py:50 | int() on a float: the integer part toward zero, which is the floor for a non-negative span |
| TimeConverter.Decimal | time_converter.py:51 | the numeral of a non-negative int is all digits, one digit exactly below 10 and at most two below 100, with no leading zero from 10 on |
| TimeConverter.DecimalRoundTrip | time_converter.py:51 | parsing the numeral of n gives n back |
| TimeConverter.ZeroPad2 | time_converter.py:51 | :02d gives at least two digits, exactly two below 100, and from 10 on exactly the plain numeral (no extra zeros) |
| TimeConverter.ZeroPad2Value | time_converter.py:51 | a :02d-padded numeral parses back to its number |
| TimeConverter.FormatHHMMParts | time_converter.py:50-51 | the text before ':' is at least two digits worth minutes // 60; after ':' come exactly two digits worth minutes % 60, in 00..59 |
| TimeConverter.FormatHHMMRoundTrip | time_converter.py:50-51 | reading HH:MM back as 60*HH + MM gives exactly the minutes rendered |
| TimeConverter.Timestamp | time_converter.py:33-51 | ValueError for unit <= 0, checked first; then ValueError when curr < start; succeeds otherwise |
| TimeConverter.TimestampOfWholeMinutes | time_converter.py:50-51 | for a valid span, the timestamp renders floor((curr - start) * unit), which is never negative: int() truncation is the floor here |
| TimeConverter.TimestampRoundTrip | time_converter.py:44-51 | a valid span's timestamp parses back to the largest whole number of minutes at most (curr - start) * unit |
| TimeConverter.ConversionExamples | Unittests/test_time_converter.py:16-26 | (10,1)->10, (0,1)->0, (1,10)->0.1, (10,2)->5, (50,5)->10; units 0 and -2 raise |
| TimeConverter.TimestampExamples | Unittests/test_time_converter.py:32-45 | the tested timestamps 00:00, 01:00, 01:30, 01:00, 07:30 and the three raising calls |
| ControlCenter.FirstIndex | mining_control_center.py:48 | the position deque.remove takes out: it holds the station, and no earlier position does |
| ControlCenter.RemoveFirst | mining_control_center.py:48 | deque.remove drops one copy of the station: the length falls by one and the multiset loses exactly that copy |
| ControlCenter.RemoveFirstAt | mining_control_center.py:48 | deque.remove cuts out the first occurrence and keeps the rest in order |
| ControlCenter.MiningControlCenter.constructor | mining_control_center.py:13-25 | all four queues start empty |
| ControlCenter.MiningControlCenter.TruckArrived | mining_control_center.py:44-45 | the waiting line is the old line plus the truck at the back; the other queues are unchanged |
| ControlCenter.MiningControlCenter.UnloadComplete | mining_control_center.py:47-50 | fails with ValueError and changes nothing iff the station is not in use; otherwise removes its first occurrence from in-use and appends it to available; the multiset of all stations and both truck queues are unchanged |
| ControlCenter.ArriveInTurn | mining_control_center.py:44-45 | successive arrivals at a new center wait in arrival order (FIFO) |
| UnloadStation.H3UnloadStation.constructor | Vehicles/mining_truck.py:7-10 | stores name, mining type and unit; no unload time exists yet |
| UnloadStation.H3UnloadStation.CalculateUnloadTimeInSimulation | UnloadStations/h3_unload_station.py:5-9 | the unload time becomes unit * 5, is positive for a positive unit, and no other field is written |
| UnloadStation.UnloadTimeIncreasing | UnloadStations/h3_unload_station.py:9 | the stored unload time is strictly increasing in the unit |
| UnloadStation.CalculateTwiceAsOnce | UnloadStations/h3_unload_station.py:9 | calculating twice with one unit leaves the same unload time as calculating once |
| MainPrompt.GetInteger | main.py:8-32 | returns the first acceptable token, which is positive and, for a non-empty list, listed in it; every earlier token was rejected; None only when no token is acceptable |
| MainPrompt.FalsySelectionsAcceptPositive | main.py:20-28 | with None or an empty list, every positive integer is accepted as it is |
| MainPrompt.GetSimTimeUnit | main.py:36-46 | an accepted simulation time unit is 1, 2, 5 or 10 |

## Left out

- Float rounding error: conversions are exact over `real`. Only the tie-to-even rule of `round` follows IEEE 754.
- `MiningControlCenter.run` (mining_control_center.py:31-42) is an endless `while True: pass` loop, so it has no behaviour to state.
- `unload_semaphore` (mining_control_center.py:29) is a `threading.Semaphore` that neither method uses. Concurrency is not modelled.
- The constructor's `n` and `sim_time_unit` are accepted but unused, as in the source: the queues are not populated.
- ControlCenter.MiningControlCenter.constructor: `m` only sizes the left-out semaphore (mining_control_center.py:29). `threading.Semaphore(m)` raises `ValueError` for m < 0, and the model's constructor accepts every m. The prompt only returns m > 0, so no caller in the repository reaches that error.
- `simulation_logger.py` is a thread-locked singleton with a queue consumer that prints. It is I/O and concurrency, so it is not part of this model.
- `H3UnloadStation.unload` and `H3MiningTruck.go` are stubs that contain only comments and `pass`.
- H3UnloadStation: in Python it subclasses `MiningTruck` and leaves the abstract `go` unimplemented, so it cannot be instantiated. The model's class can be constructed, so that its method can be stated at all.
- `Vehicles/mining_truck.py`, `UnloadStations/unload_station.py` and `const.py` hold only abstract bases, enums and constants. The model reuses the unload time 5 and the mining type enum, whose only value is Helium-3 (`MiningType`, mining_control_center.py:7-9).
- `input()`, `print()` and `int()` string parsing in `main.py` are abstracted as a sequence of already-parsed tokens. Running out of tokens stands for the `EOFError` that `input()` raises and the loop does not catch. The `__main__` block that builds and runs the simulation is left out.
- The unit tests of the control center and of the unload station target a later API. That API has asynchronous arrivals that assign stations, `unload_complete(truck, station)` and an unload time of `5 / unit`. These tests are not used to specify this revision.
