# Joint tracker bookkeeping, modelled in Dafny

This is a model of the per-tick bookkeeping of the micro:bit joint tracker
(estevaopbs/microbit_tracker). The tracker estimates joint angles of an arm
from one sensor per segment, then derives angular speed and acceleration over
a trailing time window. The model covers five parts:

- **Angle chain** (`Angles`). Absolute segment angles become joint angles: the
  first angle is kept, and every later one becomes its difference from the one
  before it. The inverse (running sums) is defined too, and both round trips
  are proved.
- **Wrap-around corrector** (`Angles`). Each new joint angle is compared, in
  degrees, with the previous tick's corrected angle. It may be replaced by
  `2π − a` or `2π + a`. The function keeps all four branches of the code. Its
  contract and a lemma show that the second branch can never decide anything.
- **State snapshot and derivatives** (`Kinematics`). A state holds vectors,
  angles, a time, speeds and accelerations. The speeds and accelerations are
  difference quotients, over zipped lists, against a reference state. Before
  the first state they are zero lists instead. The class-level swap of the
  derivative functions is an explicit two-valued mode.
- **Trailing-window history** (`Window`). Before a state is appended, the
  history is cut to start at its first entry inside the window. If no entry
  is inside, nothing is dropped. The recorded-data tracker compares with `<`
  and the graph script with `<=`. The prune always keeps a suffix of the
  history, and every entry it drops lies outside the window. Two further
  properties are proved only under conditions. Time order survives a push
  when the history was in time order and the pushed state is no older than
  any entry. Every entry lies inside the window after a push when the window
  is positive, the history was in time order, and it was empty or had an
  entry inside the window. The code keeps a wholly stale history, so the
  second property does not always hold. The graph replay proves that its
  window stays in time order. The recorded-data tracker's invariant does not
  carry either property, because its row times are not assumed to increase.
- **Trackers**. `RecordedTracker.RecordedData` is the recorded-data tracker
  class: `update` starts as `start` and then names the stepping method for
  good. `GraphReplay.Replay` is the graph script's global state: its
  `get_state_fn` and derivative mode switch once. `LivePlot.Acc` holds the old
  live plotter's three fixed-length shift buffers.

Trigonometry is not modelled. A segment's vector and raw angle (the output of
`get_angle` and `get_positions`) are parameters (`Pose`, `SegmentPose`), and
so are the row's `TIME` value and the accelerometer reading. `Pi` is an
uninterpreted positive constant. A comparison `np.degrees(x) > d` is written
`x * 180 > d * Pi`, which holds exactly when the degree value compares so.

The model follows the code where it differs from the tracker's documented
design:

- The window is pruned before the new state is appended, so the new state is
  never pruned.
- When no entry lies inside the window, the whole stale history is kept.
- Joint angles are plain differences and need not lie in [0, 2π).
- A zero time difference is not guarded. Here it is a precondition.
- The graph script's first-state zero lists always have length 2.

## Model

| member | source | states |
|---|---|---|
| `Angles.JointAngles` | animate_data.py:151 | the chain keeps the length and entry 0, and entry i ≥ 1 is angles[i] − angles[i−1] |
| `Angles.AbsoluteOfJointAngles` | animate_data.py:151 | running sums of the chained angles give back the absolute angles (round trip) |
| `Angles.JointAnglesOfAbsolute` | graph.py:118 | chaining the running sums of joint angles gives back the joint angles (round trip, other direction) |
| `Angles.JointAnglesOfTwo` | graph.py:118 | for two segments the chain is [a, b − a] |
| `Angles.CorrectJoint` | animate_data.py:155-162 | more than 200° now and under 90° last tick gives 2π − a; under −200° now and above 0° last tick gives 2π + a; otherwise a is unchanged |
| `Angles.SecondBranchUnreachable` | animate_data.py:157-158 | the guard of the second branch (over 200°, last under 0°) implies the first branch's guard, so it never decides |
| `Angles.CorrectionLandsBelow160` | animate_data.py:155-162 | a correction that fires leaves the joint below 160°; one that does not fire leaves the angle as it is |
| `Angles.CorrectJointExamples` | animate_data.py:155-156 | 210° after 10° becomes 2π − a; 150° after 10° stays |
| `Angles.Unwrap` | animate_data.py:152-163 | with no last angles the list passes unchanged; otherwise one corrected entry per zipped pair, of length min of the two |
| `Kinematics.Zeros` | animate_data.py:70-73 | the default derivative lists: n entries, all zero |
| `Kinematics.DifferenceQuotients` | animate_data.py:46-50 | the zip-and-append loop yields exactly the difference quotients of the zipped lists |
| `Kinematics.GetSpeeds` | animate_data.py:45-50 | one speed per zipped angle pair, and ref.angles[i] + speeds[i]·(t − t_ref) == angles[i] |
| `Kinematics.GetAccs` | animate_data.py:52-57 | one acceleration per zipped speed pair, and ref.speeds[i] + accs[i]·(t − t_ref) == speeds[i] |
| `Kinematics.QuotientsInvert` | graph.py:21-33 | every difference quotient times the time step, added to the reference value, gives the new value; length is the shorter input's |
| `Kinematics.StateOf` | graph.py:14-17 | a state stores the given vectors, angles and time unchanged |
| `Kinematics.MakeState` | animate_data.py:38-43 | the state stores vectors, angles and time; under the zero rule both derivative lists are n zeros; under differencing the speeds come from the reference and the accelerations from the speeds just computed |
| `Kinematics.StateOfShaped` | graph.py:14-19 | with one vector and angle per joint and a reference of the same size, the state has one speed and one acceleration per joint |
| `Kinematics.SecondTickAcceleration` | animate_data.py:52-57 | against a first state (zero speeds) the acceleration is the speed divided once more by the time step |
| `Kinematics.SpeedsExample` | graph.py:21-26 | angles [1.0, 2.0] at 0 and [1.2, 2.4] at 0.2 give speeds [1.0, 2.0] |
| `Window.FirstInside` | animate_data.py:89-92 | the index is the first entry inside the window: every earlier entry lies outside, and it lies inside unless it is the end |
| `Window.RetainWithin` | animate_data.py:89-92 | the scan-and-break loop leaves exactly the retained history |
| `Window.RetainedIsSuffix` | graph.py:144-147 | the kept history is a suffix; every dropped entry lies outside the window; the kept part starts inside it when any entry is; with no entry inside nothing is dropped |
| `Window.Pushed` | animate_data.py:89-93 | the history after a push is non-empty and the pushed state is its newest entry |
| `Window.PushedKeepsShape` | animate_data.py:86-93 | pushing a state of n joints onto a history of n-joint states keeps every entry of n joints, for any window and comparison |
| `Window.PushedFrom` | animate_data.py:89-93 | after a push every entry is the new state or one of the old history |
| `Window.RetainedAllInside` | animate_data.py:89-92 | on a history in time order, once one entry is inside the window, every kept entry is |
| `Window.PushedOrdered` | graph.py:144-148 | pushing a state no older than the history keeps time order and leaves the new state last |
| `Window.PushedAllInside` | animate_data.py:86-93 | after a push onto an ordered history every entry lies inside the window, unless the whole old history had fallen out of it |
| `Window.EvictionExample` | animate_data.py:86-93 | window 0.5, pushes at 0, 0.2, 0.4, 0.6: the state at 0 is evicted and 0.2, 0.4, 0.6 remain |
| `RecordedTracker.CollectPoses` | animate_data.py:141-148 | the per-source loop collects each source's vector and raw angle, in source order |
| `RecordedTracker.RecordedData.constructor` | animate_data.py:59-74 | a fresh tracker: update names start, get_state names the first-state maker, zero derivative lambdas, empty lists, row 0, no last angles |
| `RecordedTracker.RecordedData.State` | animate_data.py:76-78 | the current state is the last entry of the trailing window |
| `RecordedTracker.RecordedData.RecordState` | animate_data.py:80-84 | the log grows by the state exactly when recording |
| `RecordedTracker.RecordedData.UpdateStates` | animate_data.py:86-93 | vectors become the state's; the log grows by it iff recording; the window is pruned strictly against it and then gets it last |
| `RecordedTracker.RecordedData.GetFirstState` | animate_data.py:118-126 | the first state has sourceCount zero speeds and accelerations; afterwards the derivative mode is differencing and get_state names the steady maker |
| `RecordedTracker.RecordedData.GetSteadyState` | animate_data.py:128-138 | the state is built against latest_states[0] taken before the push, then pushed |
| `RecordedTracker.RecordedData.CorrectedAngles` | animate_data.py:151-163 | the row's chained angles, corrected against the last tick when there is one, one per data source |
| `RecordedTracker.RecordedData.Step` | animate_data.py:140-166 | one tick: the new state has the chained and corrected angles and is the current state; last_angles holds the corrected angles; the row advances by 1; with no data source nothing changes |
| `RecordedTracker.RecordedData.Start` | animate_data.py:95-98 | records the row's time as the start time, switches update to stepping and steps |
| `RecordedTracker.RecordedData.Update` | animate_data.py:62 | start on the first call, stepping afterwards, for good; a successful update pushes exactly the next state, keeps the old log and appends that state to it iff recording, sets the vectors to the row's, and advances the row by 1 |
| `GraphReplay.RowVectors` | graph.py:74-91 | one vector per row, the first being [0, −1, 0] |
| `GraphReplay.RowAngles` | graph.py:75-92 | one angle per row, the first being π/2 |
| `GraphReplay.AssembleRow` | graph.py:74-92 | the loop of get_state_main yields exactly those vectors and angles |
| `GraphReplay.Replay.constructor` | graph.py:131-133 | get_state_fn names the first-state maker, zero derivative lambdas, both lists empty |
| `GraphReplay.Replay.GetFirstState` | graph.py:36-42 | the first state has speeds and accelerations [0, 0]; afterwards get_state_fn is the steady maker and differencing is on; a second call raises and leaves both as they are |
| `GraphReplay.Replay.GetState` | graph.py:45-46 | the state is built against last_states[0] |
| `GraphReplay.Replay.GetStateMain` | graph.py:73-93 | the row's vectors and angles go to whichever maker get_state_fn names |
| `GraphReplay.Replay.ProcessRow` | graph.py:142-149 | the state is built before pruning; the window is pruned inclusively and then gets the state; all_states grows by exactly that state, which carries the row's time, vectors and angles, and zero derivatives when it is the first |
| `GraphReplay.Replay.Run` | graph.py:134-149 | over rows in time order, all_states gets exactly one state per row, built from that row (its time, vectors and angles); the first state has zero speeds and accelerations [0, 0]; the window stays in time order |
| `LivePlot.ShiftedShape` | old/main.py:50-55 | a shift keeps the length, moves entry i+1 to i and writes the reading last |
| `LivePlot.ShiftedAllIsTrailingWindow` | old/main.py:48-55 | after any run of readings the buffer holds the last N values of the initial contents followed by the readings |
| `LivePlot.BufferHoldsLatestReadings` | old/main.py:44-55 | once N readings have arrived the buffer is exactly the latest N readings |
| `LivePlot.ShiftedFixedPoint` | old/main.py:61-63 | a shift leaves a buffer unchanged exactly when every slot already holds the reading |
| `LivePlot.ShiftIn` | old/main.py:50-55 | a fresh copy rolled one place left with the reading in its last slot |
| `LivePlot.UpdateArray` | old/main.py:61-63 | the caller's array is unchanged; the call raises exactly on an empty array |
| `LivePlot.UpdateArrayLosesReading` | old/main.py:61-63 | on a zero buffer of two slots and reading 1.0, the helper leaves the caller's buffer at [0.0, 0.0] while the intended shift gives [0.0, 1.0] |
| `LivePlot.Acc.constructor` | old/main.py:42-46 | three all-zero buffers of the common length 2000 |
| `LivePlot.Acc.Update` | old/main.py:48-55 | each buffer keeps its length and becomes its shift by the matching component of the same reading |

## Left out

- Trigonometry: `get_angle`, `get_positions`, the rotation matrices of `get_state_main` and the vector norms. Their results are parameters because they are arccos, sin, cos and norms over floats.
- Spreadsheet access (`pd.read_excel`, `iloc`, the `TIME` column, `_get_accelerometer`, `get_magnetometer`). These are thin pandas wrappers, so the row's time and each source's pose are parameters.
- Hardware access: the micro:bit handle kept by `Acc.__init__` and the `accelerometer.read()` call in `Acc.update`. The reading is a parameter.
- Plotting and animation (graph.py:151-196, `update_frame`), and `Acc.__str__`. They only display data.
- `get_state_fullgravity2d` in graph.py apart from its chain at line 118. The script's call to it is commented out, and the rest is trigonometry.
- IEEE float behaviour: inf or NaN on a zero time difference, and rounding. The model uses exact reals.
- GetSpeeds: requires t ≠ t_ref. The source divides unguarded, and numpy then yields inf or NaN.
- GetAccs: requires t ≠ t_ref, for the same reason.
- MakeState: requires t ≠ t_ref under differencing, for the same reason.
- RecordedTracker.RecordedData.Update: requires the row's time to differ from the oldest retained state's time, for the same reason. It also takes one pose per data source by construction.
- GraphReplay.Replay.ProcessRow: requires the row's time to differ from the oldest window entry's time. GraphReplay.Replay.Run requires strictly increasing row times instead.
- Angles.JointAngles: requires a non-empty list. The source raises IndexError on an empty one, and its callers never pass one (Step returns ok = false).
- RecordedTracker.RecordedData.GetFirstState: requires the zero derivative mode. After the switch the source raises AttributeError on the missing reference, and only a direct call outside the update cycle can get there.
- RecordedTracker.RecordedData.Step: requires update to name the stepping method, as it does whenever `start` has run. A direct call before that is not modelled.
- RecordedTracker: a data source other than the first may lack the current row, and the source then raises IndexError. This is not modelled, because poses are parameters.
- RecordedTracker.RecordedData.State: requires a non-empty window. The source's `state` property raises IndexError on an empty one; every successful update leaves the window non-empty.
- RecordedTracker.RecordedData.GetSteadyState: requires a non-empty window. The source's `_get_state` raises IndexError on an empty one, and it is only reached after the first state has been pushed.
- GraphReplay.Replay.GetState: requires a non-empty window. The source raises IndexError on an empty one, and it is never called with one.
- The derivative functions are class attributes, shared by every tracker instance in the source. Here each tracker owns its mode.
- The graph script's zip over two logs: the rows are passed already zipped.
- `Acc.update` rolls all three buffers and then writes all three last slots; the model does each buffer's roll and write together. The buffers are separate arrays, so the order cannot be observed.

## Findings

| source | as written | input that shows it | evidently intended | confidence | as-written member | corrected member |
|---|---|---|---|---|---|---|
| old/main.py:61-63 | `update_array` rebinds its parameter to the copy that `np.roll` returns, writes that copy's last slot and returns nothing, so the caller's array never changes | buffer [0.0, 0.0] and value 1.0: the caller still holds [0.0, 0.0] instead of [0.0, 1.0] | return the shifted copy with the value in its last slot, for the caller to keep, as `Acc.update` does when it rebinds its fields | medium (the helper has no caller); not executed | LivePlot.UpdateArray, LivePlot.UpdateArrayLosesReading | LivePlot.ShiftIn |
