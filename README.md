# AutoGrotto route setup, modelled in Dafny

The script lets a player mark a block and then exports a fixed route of 21
segments relative to that block. The model covers its two host-independent
parts:

- `route.dfy`, module `Route`: the 21-entry offset table, the recursive
  specification `Waypoints` of the generated segment list, the loop that builds
  that list (`Walk`, called by `CalculateWaypoints`), and lemmas that pin the
  list down. There is one record per offset, and the first record starts at the
  start block. Each record ends at its start plus its offset, and each record
  starts where the previous one ended. These four properties determine the list
  completely, and segment i has a closed form. The table also sums to (0, 0, 0),
  so every generated route is a closed loop that ends where it began.
- `setup.dfy`, module `Setup`: the tick handler's four module-level variables
  (`isSettingLocation`, `waitingForConfirmation`, `highlightedBlock`,
  `lastSneakTime`) as the class `SetupSession`. Its `Tick` method is proved equal
  to the pure step function `Step`. `Step` runs the key handling (`HandleKey`)
  and then the sneak handling (`HandleSneak`). Its contracts state the cancel,
  start, debounce, highlight and confirm behaviour. They also state the
  invariant `Consistent`: waiting implies setting, and a block is highlighted
  exactly while waiting. `Run` folds `Step` over a sequence of ticks.

The host reads become parameters: the key press, the sneak pose, the clock
(`Date.now`, in milliseconds) and the player's position, already floored. A
null `highlightedBlock` is `None`. The source floors `Y - 1`. For real numbers
`floor(Y - 1) == floor(Y) - 1`, so the model subtracts 1 from the floored Y that
it is given; for JavaScript doubles this differs when `Y` lies in `(-2^-53, 0)`
(see "## Left out").

Writing the waypoint file can throw, and the reset of the setup state comes
after the write. Each reading therefore carries `exported`, which says whether
the write returns normally. When it does not, the confirming sneak has only
recorded its time: the block stays highlighted and the next accepted sneak
tries again.

The confirm branch reads `highlightedBlock.x` without a null check. The
handler's functions and `Tick` therefore require `Consistent`. The constructor
establishes it, and every step preserves it, so it holds in every reachable
state.

## Model

| member | source | states |
|---|---|---|
| Route.Waypoints | index.js:49-69 | one segment per offset |
| Route.WaypointsAt | index.js:51-65 | segment i runs from start + (sum of the first i offsets) to start + (sum of the first i+1 offsets) |
| Route.WaypointsEnd | index.js:51-66 | the last segment ends at the start displaced by the sum of all offsets |
| Route.WaypointsIsRoute | index.js:53-66 | the generated list has one record per offset; the first starts at the start point; each record's end is its start plus its offset; record i+1 starts where record i ends |
| Route.RouteIsWaypoints | index.js:53-66 | conversely, any list with those four properties is exactly the generated list |
| Route.RouteOffsetsCancel | index.js:7-29 | the table has 21 offsets, and their componentwise sum is (0, 0, 0) |
| Route.RouteReturnsToStart | index.js:7-29 | from any start, the route has 21 segments; the first starts at the start, and the last ends at the start |
| Route.Walk | index.js:50-68 | the push-and-advance loop returns exactly `Waypoints(offsets, start)` |
| Route.CalculateWaypoints | index.js:49-69 | `calculateWaypoints(x, y, z)` returns the route table's waypoints from `(x, y, z)` |
| Setup.HandleKey | index.js:83-95 | a press during setup clears both flags and the block; a press while idle sets `isSettingLocation` and leaves the rest alone; no press changes nothing; the invariant is kept |
| Setup.HandleSneak | index.js:98-134 | outside setup, without a sneak, or less than 500 ms after the last accepted sneak, nothing changes; an accepted sneak sets `lastSneakTime := now`; the first accepted sneak highlights `(x, y - 1, z)`; the second returns to idle and yields the waypoints of the stored block when the file write returns normally, and otherwise changes only `lastSneakTime`; the invariant is kept |
| Setup.Step | index.js:82-136 | a key press during setup always cancels and nothing follows in that tick; a key press while idle always starts setup; `lastSneakTime` changes only on an accepted sneak and only moves forward by at least 500; waypoints come out only on a confirmation whose write returns normally, from the previously highlighted block, ending in idle |
| Setup.Run | index.js:82-136 | over any sequence of ticks the invariant holds and `lastSneakTime` never decreases |
| Setup.DebouncedRunChangesNothing | index.js:98-102 | any number of ticks with no key press whose sneaks come within 500 ms of the last accepted one leave the state unchanged |
| Setup.ConfirmAfterDebounce | index.js:98-132 | after a block is highlighted, a second sneak less than 500 ms later is ignored; a sneak 500 ms or more later confirms, returns to idle and yields the route from that block |
| Setup.SetupFromIdle | index.js:82-136 | from idle, a key press and a sneak in one tick, then a sneak 500 ms or more later, yield the closed 21-segment route from the block below the first position |
| Setup.FailedExportRetries | index.js:105-124 | a confirmation whose write throws keeps the highlighted block and waiting state and records the sneak time; a later accepted sneak whose write succeeds saves the route from that same block |
| Setup.SetupSession.constructor | index.js:35-38 | the variables start as false, false, null and 0, which satisfies the invariant |
| Setup.SetupSession.Tick | index.js:82-136 | the imperative handler, with its early return on a debounced sneak, produces the new state and the output of `Step` and keeps the invariant |

## Left out

- Rendering of the highlighted block through `RenderLib.drawEspBox` (index.js:72-79): a host graphics call with floating-point arguments.
- File export (index.js:111-119): creating directories and writing the file go through Java `File` and `PrintWriter`. The model stops at the segment list written out, which is `saved` in `SetupSession.Tick`; whether the write throws is the `exported` parameter, and a write that throws after writing part of the file is treated as writing nothing.
- JSON text formatting with `JSON.stringify(…, null, 2)` (index.js:116): a library serialiser.
- Chat messages (index.js:40, 89, 93, 107, 119, 133): output only.
- Host reads (`setupKey.isPressed`, `Player.isSneaking`, `Player.getX/Y/Z`, `Date.now`): these are parameters.
- Floating-point flooring of the player position (index.js:127-129): the floored integers are passed in.
- JavaScript numbers are doubles; the model uses unbounded integers. It agrees with the source only while every coordinate and every sum along the route (index.js:55-57) stays below 2^53 in magnitude, and while the player's `Y` is outside `(-2^-53, 0)`, where `Y - 1` rounds to `-1` and the source stores `y = -1` instead of `floor(Y) - 1 = -2`.
- The route-selection command, named routes and output slots are not part of this model. They belong to a later variant of the script that `index.js` does not contain.
