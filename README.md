# Eye-tracker calibration and validation core

This project models the logic of the eye-tracking module `src/shared/eyetracking.py` of a
psychopy task runner and proves properties of the model. The module drives a Pupil Labs
tracker and has five parts that can be separated from the I/O and rendering around them:

- **Validation bookkeeping** (`markers.dfy`, `fixations.dfy`, `accuracy.dfy`):
  - `get_marker_dictionary` turns the per-frame marker references into numbered marker
    entries with an onset and an offset.
  - `assign_fix_to_markers` walks the time-sorted fixation list with one forward cursor and
    files the fixations that start during each marker under that marker, grouped by
    fixation id.
  - `fix_to_marker_distances` attaches the angular distances and sorts them into good, fair
    and poor tiers.
  - `validate` chains the three.
- **Sample-window callbacks** (`listener.dfy`, class `EyetrackerCalibration`): `_pupil_cb`,
  `_gaze_cb` and `_fix_cb` keep the samples in the attempt's window (`task_start`,
  `task_stop`]. They unregister themselves once a sample is past `task_stop`.
- **The listener** (`listener.dfy`, class `EyeTrackerClient`):
  - The dispatch step of `run` files a message's payload into the last-known slot of the
    first topic prefix it matches, and forwards it to the callback registered for that kind.
  - `set_*_cb`/`unset_*_cb` change the callback slots.
  - `Run` is the loop over a sequence of received messages.
- **Marker presentation** (`presentation.dfy`, and the frame loop in `listener.dfy`): the
  visiting order of the marker sites and the lead-in/lead-out frame filter. Together they fix
  which references an attempt records.
- **Interleaving** (`schedule.dfy`): `interleave_calibration` puts a calibration task and a
  validation task before every task that uses eye tracking. `listener.dfy` also models the
  calibration-success predicate.

`samples.dfy` holds the shared records:

- a marker reference (`norm_pos`, `screen_pos`, `timestamp`);
- a tracker payload, with only the fields the core reads;
- the cut-off `task_stop`, which is `np.inf` (`Unbounded`) until an attempt ends.

### How the model departs from the obvious reading

- **Marker entries.** The code creates a new entry when a reference's `norm_pos` has not been
  seen at all (line 595). It does not do so whenever the position differs from the previous
  reference. A reference with a position seen before raises the offset of the *latest* entry
  `count-1` (lines 604-605), not the offset of the entry with that position.
  - `EntryDescribes` states this independently of the loop. An entry's offset is
    `MaxRaise`: -1.0, raised by each repeating reference seen while it was the latest
    entry. `MaxRaiseBound` proves that this is the largest such timestamp, or -1.0 when
    there were none (`OffsetBound`).
- **Callback slots.** A slot holds the calibration task whose bound method was registered.
  `Valid()` requires that each registered task belongs to this client.
  - The source registers only `self._pupil_cb` and its siblings, on `self.eyetracker`
    (lines 207-209). So a callback's `unset_*` always clears the slot that called it.
- **Client start state.** `__init__` never assigns `_last_calibration_notification`, and the
  success loop reads it with `getattr(..., None)` (line 286). `run` starts
  `_aravis_notification` at `None` (line 527). The constructor models both as `None`.
- **Stored calibration notification.** `_last_calibration_notification` is written only by
  the dispatch step (line 553) and is never cleared. A retried or later calibration attempt
  therefore reads the notification of an earlier attempt as soon as its waiting loop starts
  (lines 286-288), unless a new one arrived first. The model keeps this: `Run` leaves the
  stored value unchanged when no calibration notification is received, and
  `AttemptOutcome` decides from whatever value is stored.
- **Attempt start state.** `EyetrackerCalibration` leaves `task_start` and `task_stop` unset
  until an attempt begins (lines 205-206). The model's constructor starts them at 0.0 and
  `Unbounded`. `BeginAttempt` sets them as the source does.
- **`validate` results.** `validate` (lines 721-725) computes the dictionaries and then
  discards them. The model returns them, so that their contents can be stated.
- **Unmodelled values become parameters.**
  - The wall clock, the angular distance function and the random permutation are parameters
    (`clock`, `angle`, `shuffle`).
  - So are the marker positions in normalised and screen coordinates (`normOf`, `screenOf`).

## Model

| member | source | states |
|---|---|---|
| Markers.GetMarkerDictionary | src/shared/eyetracking.py:588-607 | The result has keys exactly 0..count-1, one per distinct `norm_pos` in order of first appearance. Each entry has the onset and screen position of the first ref with its position. Its offset is the largest timestamp of the repeating refs seen while it was the latest entry, or -1.0. |
| Markers.Distinct | src/shared/eyetracking.py:593-603 | `position_list` after n refs: empty before the first ref, then between one and n positions (its contents are stated by `DistinctMembers` and `DistinctOrdered`). |
| Markers.MaxRaise | src/shared/eyetracking.py:597-605 | The offset of entry k after n refs never drops below the initial -1.0 (which refs raise it, and to what, is `MaxRaiseBound`). |
| Markers.ReadRef | src/shared/eyetracking.py:593-605 | One pass of the loop turns the dictionary and `position_list` of the refs read so far into those of one more ref. |
| Markers.EntriesInOrder | src/shared/eyetracking.py:593-603 | Entry keys increase with the first appearance of their positions, so no two entries share a position. |
| Markers.EntryFor | src/shared/eyetracking.py:593-603 | Every ref's position has an entry. |
| Markers.DistinctMembers | src/shared/eyetracking.py:595-603 | `position_list` holds exactly the positions occurring among the refs read so far. |
| Markers.DistinctOrdered | src/shared/eyetracking.py:595-603 | The positions in `position_list` first appear in strictly increasing ref order. |
| Markers.EntryCreated | src/shared/eyetracking.py:596-601 | A ref with an unseen position yields an entry with its position, screen position and timestamp as onset, and offset -1.0. Nothing raises that entry yet. |
| Markers.NewPositionStep | src/shared/eyetracking.py:595-603 | Appending that entry under key `count` keeps the dictionary a correct description of one more ref. |
| Markers.RepeatStep | src/shared/eyetracking.py:604-605 | A ref with an already seen position changes only entry `count-1`. It only raises that entry's offset, to the ref's timestamp when that is larger. The dictionary still describes one more ref. |
| Markers.MaxRaiseBound | src/shared/eyetracking.py:604-605 | The offset of an entry is at least -1.0, no reference that raises it is later, and it is -1.0 or the timestamp of such a reference: the maximum of the raising references. |
| Markers.MaxRaiseAbove | src/shared/eyetracking.py:604-605 | No ref that raises entry k is later than the offset it ends up with. |
| Markers.MaxRaiseAttained | src/shared/eyetracking.py:604-605 | An offset above -1.0 is the timestamp of some ref that raised the entry. |
| Markers.MaxRaiseUnraised | src/shared/eyetracking.py:596-605 | An entry that no reference could raise yet keeps offset -1.0. |
| Markers.DenseExtend | src/shared/eyetracking.py:596-602 | Adding key `count` to dense keys 0..count-1 gives dense keys 0..count. |
| Fixations.SkipTo | src/shared/eyetracking.py:621-622 | The skip loop stops at or after the cursor, and stops at a fixation not earlier than the bound or at the end. |
| Fixations.SkipToPasses | src/shared/eyetracking.py:621-622 | Every fixation the skip loop passes starts before the bound. |
| Fixations.SkipBefore | src/shared/eyetracking.py:621-622 | The first inner loop ends at `SkipTo` of the onset. |
| Fixations.CollectBefore | src/shared/eyetracking.py:624-638 | The second inner loop ends at `SkipTo` of the offset. Its `fix_dict` is the id grouping of exactly the fixations it passed. |
| Fixations.GroupedStep | src/shared/eyetracking.py:626-637 | One more fixation starts a one-element group for a new id, or appends its four fields to the group of a known id. |
| Fixations.GroupedNew | src/shared/eyetracking.py:625-640 | The group of the appended fixation's id gains that fixation at its end, or is created holding only it. |
| Fixations.GroupedKeep | src/shared/eyetracking.py:625-640 | The groups of the other ids are unchanged. |
| Fixations.AssignFixToMarkers | src/shared/eyetracking.py:610-642 | The result has the same keys. Every marker `k` gets a `fix_dict` that is the id grouping of its window: from past its onset to the cursor after its offset. |
| Fixations.Grouped | src/shared/eyetracking.py:625-640 | The `fix_dict` of a window: under each id, four parallel lists as long as the run of that id's fixations. |
| Fixations.FillMarker | src/shared/eyetracking.py:619-640 | One pass of the outer loop moves the cursor from the end of the previous window to the end of this one, and fills marker `count` with its window's grouping. |
| Fixations.CursorStep | src/shared/eyetracking.py:621-625 | Within one marker the cursor moves forward, to the window start and then to its end. |
| Fixations.CursorMonotone | src/shared/eyetracking.py:615-638 | The cursor never decreases from one marker to the next, and each window starts where the previous marker stopped or later. |
| Fixations.AssignedAtMostOnce | src/shared/eyetracking.py:617-638 | No fixation index is filed under two markers. |
| Fixations.SkippedNeverAssigned | src/shared/eyetracking.py:621-622 | A fixation passed over by the skip loop of a marker started before its onset and is filed under no marker. |
| Fixations.SkippedNotAssignedTo | src/shared/eyetracking.py:615-638 | A fixation passed over by the skip loop of one marker lies outside the window of any given marker. |
| Fixations.WindowWithinMarker | src/shared/eyetracking.py:621-625 | A fixation filed under marker `k` starts before its offset. On a time-sorted list it also starts at or after its onset. |
| Fixations.GroupedShape | src/shared/eyetracking.py:619-640 | A `fix_dict` is empty iff the window is. Each id entry holds exactly that id's fixations, in window order, as four lists of one common positive length. |
| Accuracy.TierMasks | src/shared/eyetracking.py:677-679 | Each of the three masks holds for a distance exactly when it falls in that tier. |
| Accuracy.TiersPartition | src/shared/eyetracking.py:676-679 | The good, fair and poor counts add up to `num_fix`. |
| Accuracy.Report | src/shared/eyetracking.py:675-680 | The report of a group: `num_fix` is the number of distances and the three tier counts add up to it; each ratio is undefined (numpy's 0/0) exactly when the group has no distance. |
| Accuracy.RatiosSumToOne | src/shared/eyetracking.py:676-679 | With at least one distance the three proportions are defined, each lies in [0, 1], and they add up to 1. |
| Accuracy.AssignedReportsDefined | src/shared/eyetracking.py:626-633 | Every group `assign_fix_to_markers` creates has `num_fix > 0` equal to its size. So its tier counts partition it and its ratios add up to 1: no zero division. |
| Accuracy.AngularDistances | src/shared/eyetracking.py:666-673 | One distance per fixation position of a group, in order, from the marker. |
| Accuracy.MarkerDistances | src/shared/eyetracking.py:662-679 | Every group of a marker receives its distances, and every group id gets its tier report. No group is added or lost. |
| Accuracy.FixToMarkerDistances | src/shared/eyetracking.py:645-683 | Every marker keeps its key and fields, and gets its groups' distances and reports. |
| Accuracy.AssessMarkers | src/shared/eyetracking.py:724-725 | Assigning and then measuring gives each marker its window's grouping with distances attached, plus the matching reports. |
| Accuracy.Validate | src/shared/eyetracking.py:721-725 | Its dictionary is the marker dictionary of the refs. The measured dictionary and the reports are those of its markers after fixation assignment. |
| Presentation.NothingDuringLeadIn | src/shared/eyetracking.py:254-258 | No frame up to `CALIBRATION_LEAD_IN` records a reference. |
| Presentation.RecordedAfterLeadIn | src/shared/eyetracking.py:254-258 | Every frame after the lead-in and before the lead-out records exactly one reference. |
| Presentation.RecordedFramesClosed | src/shared/eyetracking.py:246-258 | Closed form of the number of recording frames among the first `n`. |
| Presentation.Records | src/shared/eyetracking.py:254-258 | Frame f of a marker records a reference iff 11 <= f <= 89. |
| Presentation.RefsPerMarkerCount | src/shared/eyetracking.py:22 | With 90/10/0, a marker records `MARKER_DURATION_FRAMES - LEAD_OUT - LEAD_IN - 1` = 79 references. |
| Presentation.Range | src/shared/eyetracking.py:187 | `np.arange(n)` has length n and holds j at index j. |
| Presentation.MarkersOrder | src/shared/eyetracking.py:187-189 | The order is a permutation of 0..n-1. It is the identity unless `markers_order` is "random", and then it is the drawn permutation. |
| Presentation.EveryIndexVisited | src/shared/eyetracking.py:187-189 | A permutation order has n entries, all below n, and visits every site. |
| Presentation.PresentedRefsAt | src/shared/eyetracking.py:224-266 | There are 79 references per marker shown. Reference j carries the position of marker `j / 79` in the order and clock reading j. |
| Presentation.AttemptRefs | src/shared/eyetracking.py:187-266 | An attempt over n sites, in either order, records `n * 79` references. Every site's block starts with a reference at its position. |
| Listener.EyetrackerCalibration.PresentMarker | src/shared/eyetracking.py:246-267 | The frame loop of one marker appends exactly its block of 79 references. |
| Listener.EyetrackerCalibration.PresentMarkers | src/shared/eyetracking.py:187-267 | The sites of `self.markers` are visited in the order `markers_order` selects, and the marker loop appends exactly the presented references of that order to `all_refs_per_flip`. |
| Listener.EyetrackerCalibration.PresentSites | src/shared/eyetracking.py:224-267 | The marker loop over a given order appends exactly the presented references of that order. |
| Listener.ClassifyByPrefix | src/shared/eyetracking.py:540-555 | A topic is classified as a kind iff it starts with that kind's prefix. It is unrecognised iff it starts with none, so the first match is the only match. |
| Listener.Classify | src/shared/eyetracking.py:540-555 | The `if`/`elif` chain of topic prefixes, first match wins. It carries no contract of its own: `ClassifyByPrefix` proves that the first match is the only one. |
| Listener.SuccessIsCalibration | src/shared/eyetracking.py:552-553 | A "notify.calibration.successful" topic is filed in `_last_calibration_notification`. |
| Listener.AttemptOutcome | src/shared/eyetracking.py:278-291 | A validation attempt succeeds. A calibration attempt waits until a notification is stored. It then succeeds only if the topic starts with "notify.calibration.successful" (a calibration topic), and fails otherwise. |
| Listener.Decide | src/shared/eyetracking.py:119-138 | A callback unregisters itself iff `ts > task_stop` (never under an infinite `task_stop`). Otherwise it keeps the sample iff `task_start < ts`, and drops it iff `ts <= task_start`. So a kept sample lies in (`task_start`, `task_stop`]. |
| Listener.Admit | src/shared/eyetracking.py:119-138 | The list effect of one callback call, through `Decide`: the sample is appended iff it is in the window. No contract of its own; `Decide` states the cases. |
| Listener.Collect | src/shared/eyetracking.py:119-138 | What a callback appends over a stream, nothing after it unregistered itself. No contract of its own; `CollectInWindow`, `CollectAfterStop` and `CollectSorted` state its properties. |
| Listener.StoppedWitness | src/shared/eyetracking.py:120-122 | A callback fed a stream has unregistered itself iff some sample of the stream is past `task_stop`. |
| Listener.CollectInWindow | src/shared/eyetracking.py:119-138 | Every collected sample comes from the stream and lies in the window, and no more samples are collected than received. |
| Listener.CollectAfterStop | src/shared/eyetracking.py:120-122 | Once unregistered, a callback collects nothing from later samples. |
| Listener.CollectSorted | src/shared/eyetracking.py:119-138 | On a time-sorted stream the callback collects exactly the in-window samples, in order. |
| Listener.EyetrackerCalibration.PupilCb | src/shared/eyetracking.py:119-124 | The pupil list grows by the sample iff it is in the window. The pupil slot is emptied iff the sample is past `task_stop`. Nothing else changes. |
| Listener.EyetrackerCalibration.GazeCb | src/shared/eyetracking.py:126-131 | The same for the gaze list and slot. |
| Listener.EyetrackerCalibration.FixCb | src/shared/eyetracking.py:133-138 | The same for the fixation list and slot. |
| Listener.EyetrackerCalibration.constructor | src/shared/eyetracking.py:74-89 | Keeps the client, the markers, `markers_order` and the validation flag; all lists empty. |
| Listener.EyetrackerCalibration.BeginAttempt | src/shared/eyetracking.py:191-209 | Empty lists, window opened at `now` with no cut-off, and all three callbacks registered to this task. |
| Listener.EyetrackerCalibration.EndAttempt | src/shared/eyetracking.py:269 | The window closes at `now`. |
| Listener.EyetrackerCalibration.Stop | src/shared/eyetracking.py:294-298 | All three callback slots of the client are emptied. |
| Listener.EyeTrackerClient.constructor | src/shared/eyetracking.py:377-382 | All last-known slots and callback slots start empty. |
| Listener.EyeTrackerClient.SetPupilCb | src/shared/eyetracking.py:559-560 | Replaces the pupil callback slot, and only it. |
| Listener.EyeTrackerClient.SetGazeCb | src/shared/eyetracking.py:562-563 | Replaces the gaze callback slot, and only it. |
| Listener.EyeTrackerClient.SetFixCb | src/shared/eyetracking.py:565-566 | Replaces the fixation callback slot, and only it. |
| Listener.EyeTrackerClient.UnsetPupilCb | src/shared/eyetracking.py:568-569 | Empties the pupil callback slot, and only it. |
| Listener.EyeTrackerClient.UnsetGazeCb | src/shared/eyetracking.py:571-572 | Empties the gaze callback slot, and only it. |
| Listener.EyeTrackerClient.UnsetFixCb | src/shared/eyetracking.py:574-575 | Empties the fixation callback slot, and only it. |
| Listener.EyeTrackerClient.Dispatch | src/shared/eyetracking.py:539-555 | Only the slot of the topic's first matching prefix is overwritten. An unrecognised topic changes nothing. The registered callback of that kind, if any, sees the payload: its list grows by `Admit`, and its slot is emptied iff the payload is past its cut-off. Other lists and slots are untouched. |
| Listener.EyeTrackerClient.Receive | src/shared/eyetracking.py:536-555 | One received message extends the streams-so-far invariant by that message. |
| Listener.EyeTrackerClient.Run | src/shared/eyetracking.py:535-556 | After the messages, each last-known slot holds the last payload of its kind. Each callback slot is emptied iff a payload of its kind passed its task's cut-off. Each registered task's list has grown by exactly what its callback collects from its stream. |
| Listener.EyeTrackerClient.Listen | src/shared/eyetracking.py:536-555 | Over all the messages, the slots and task lists keep reflecting the streams received so far, from the state before the first message. |
| Schedule.NatToStringRoundTrip | src/shared/eyetracking.py:693 | The decimal rendering of the counter in the task name reads back to the counter. |
| Schedule.NatToStringDigits | src/shared/eyetracking.py:693 | The counter is rendered with decimal digits only. |
| Schedule.NamesDistinct | src/shared/eyetracking.py:691-698 | Different positions give different calibration names and different validation names, and no calibration name is a validation name. |
| Schedule.BlockSessionTasks | src/shared/eyetracking.py:690-700 | What one input task yields holds that task and no other input task. |
| Schedule.Interleave | src/shared/eyetracking.py:686-700 | The generator yields each input task and at most two calibration tasks before it, and ends with the last input task. |
| Schedule.InterleaveLength | src/shared/eyetracking.py:686-700 | The output has `n + 2k` items, k the number of eye-tracking tasks. |
| Schedule.InterleaveKeepsTasks | src/shared/eyetracking.py:686-700 | The input tasks all come out, once each, in input order. |
| Schedule.InterleaveStepTasks | src/shared/eyetracking.py:690-700 | The last input task adds exactly itself to the input tasks of the output. |
| Schedule.InterleavePrefix | src/shared/eyetracking.py:686-700 | The output for a prefix of the tasks is a prefix of the output: the generator is lazy and in order. |
| Schedule.InterleaveAt | src/shared/eyetracking.py:686-700 | Task i sits at position `i + 2·(eye-tracking tasks up to i)`. If it uses eye tracking, the calibration then the validation for counter i+1 come immediately before it. Otherwise the previous task does. |
| Schedule.InterleaveEnd | src/shared/eyetracking.py:689-700 | The list ends with the last task, preceded by its calibration and validation when it uses eye tracking and by the task before it otherwise. |

## Left out

- Process and socket plumbing are left out: the `Popen` launch, the zmq sockets, msgpack, notifications, recording, and the `Msg_Receiver` subscription. These are foreign libraries and network I/O. Received messages are a parameter of `Run`.
- Threads are left out: the listener thread, its stop event, the lock, the 1 ms sleep, and the non-blocking getters `get_pupil`/`get_gaze`. `Run` is the loop over a given finite sequence of messages, with no interleaving by other threads.
- Angular geometry is left out: the pixel vectors, the `pdist` cosine distance, `arccos` and degrees. The distance is the parameter `angle`. Reals stand in for floats, so NaN distances are not modelled.
- Numpy's 0/0 ratio (`nan`) is modelled as `None`. `Accuracy.AssignedReportsDefined` shows it never arises after `assign_fix_to_markers`.
- Pixel and screen-size arithmetic is left out. The normalised and screen positions of each site are the parameters `normOf` and `screenOf`.
- Drawing, logging, text, instructions, hotkeys and `GazeDrawer` are left out. They are rendering with no effect on the modelled state.
- The unbounded busy-waits are left out: waiting for a first pupil (line 211) and waiting for a calibration notification (lines 285-291). Only their outcome is modelled, as `AttemptOutcome`.
- The wall clock (`time.monotonic`) is the parameter `clock`, read once per recorded reference, and `now` in `BeginAttempt`/`EndAttempt`.
- `np.random.permutation` is the parameter `shuffle`, any permutation of the sites.
- `_save` and `read_pl_data` are file I/O and are not part of this model.
- The rest of `EyetrackerSetup` and `calibrate` are left out. `calibrate`'s pupil count check only logs.
- `main.py` is left out. It is psychopy orchestration.
- The constructor defaults of `EyetrackerCalibration` (`markers_order="random"`, `markers=MARKER_POSITIONS`, `validation=False`, lines 74-81) are left out: the model's constructor takes all of them as arguments. `interleave_calibration` relies on these defaults for the markers and the order of the tasks it creates (lines 691-698); `Schedule.Interleave` records only each created task's name and validation flag.
- Fixations.AssignFixToMarkers: Python iterates `fix_dict` in insertion order and `fix_to_marker_distances` prints the groups in that order. The model's dictionaries are maps without an order, so printing order is not captured.
- Accuracy.MarkerDistances: the loop picks the fixation ids in an unspecified order, not in the dictionary's insertion order; its results do not depend on the order.
- Listener.EyetrackerCalibration.PresentMarkers: the clock reading of reference j is `clock(j)`, a function of its number. The model does not state that readings increase.
- Listener.EyetrackerCalibration.PresentMarkers: the pixel and normalised positions of `self.markers[site_id]` are the parameters `normOf` and `screenOf`, one per marker; the geometry that derives them is not modelled.
