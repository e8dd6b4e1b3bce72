/** The event side of the eye tracker: the client that files every message of the
    tracker's stream into a last-known slot and forwards samples to the callbacks
    registered with it, and the calibration task whose callbacks collect the
    samples of one attempt inside the window (`task_start`, `task_stop`]. */
module Listener {
  import opened Samples
  import opened Presentation

  /** The topic prefixes the listener tests, in the order it tests them. */
  const PupilPrefix: string := "pupil"
  const GazePrefix: string := "gaze"
  const FixationsPrefix: string := "fixations"
  const CalibrationPrefix: string := "notify.calibration"
  const AravisPrefix: string := "notify.aravis.start_capture"

  /** The topic of the notification that ends a calibration successfully. */
  const SuccessPrefix: string := "notify.calibration.successful"

  datatype Kind = PupilKind | GazeKind | FixationKind | CalibrationKind | AravisKind | Unrecognised

  /** One message as received: its topic and its payload. */
  datatype Message = Message(topic: string, payload: Sample)

  /** The kind of a topic: the first prefix in the listener's order that it starts with. */
  function Classify(topic: string): (k: Kind) {
    if PupilPrefix <= topic then PupilKind
    else if GazePrefix <= topic then GazeKind
    else if FixationsPrefix <= topic then FixationKind
    else if CalibrationPrefix <= topic then CalibrationKind
    else if AravisPrefix <= topic then AravisKind
    else Unrecognised
  }

  function PrefixOf(k: Kind): string
    requires k != Unrecognised
  {
    match k
    case PupilKind => PupilPrefix
    case GazeKind => GazePrefix
    case FixationKind => FixationsPrefix
    case CalibrationKind => CalibrationPrefix
    case AravisKind => AravisPrefix
  }

  /** No two of the prefixes can start the same topic, so the order of the tests
      does not matter: a topic is of a kind exactly when it starts with that
      kind's prefix, and unrecognised exactly when it starts with none. */
  lemma ClassifyByPrefix(topic: string)
    ensures forall k :: k != Unrecognised ==> (Classify(topic) == k <==> PrefixOf(k) <= topic)
    ensures Classify(topic) == Unrecognised <==>
      forall k :: k != Unrecognised ==> !(PrefixOf(k) <= topic)
  {
    forall k | k != Unrecognised && PrefixOf(k) <= topic
      ensures Classify(topic) == k
    {
      assert topic[0] == PrefixOf(k)[0];
      if k == CalibrationKind || k == AravisKind {
        assert topic[7] == PrefixOf(k)[7];
      }
    }
    assert PrefixOf(PupilKind) == PupilPrefix && PrefixOf(GazeKind) == GazePrefix;
    assert PrefixOf(FixationKind) == FixationsPrefix && PrefixOf(CalibrationKind) == CalibrationPrefix;
    assert PrefixOf(AravisKind) == AravisPrefix;
  }

  /** A successful calibration notification is filed as a calibration notification. */
  lemma SuccessIsCalibration(topic: string)
    requires SuccessPrefix <= topic
    ensures Classify(topic) == CalibrationKind
  {
    assert topic[..|CalibrationPrefix|] == SuccessPrefix[..|CalibrationPrefix|];
    assert PrefixOf(CalibrationKind) <= topic;
    ClassifyByPrefix(topic);
  }

  /** What the waiting loop of an attempt concludes from the stored calibration
      notification: a validation attempt always succeeds; a calibration attempt
      keeps waiting (`None`) until a notification is stored, and then succeeds iff
      its topic starts with "notify.calibration.successful". */
  function AttemptOutcome(validation: bool, notes: Option<Sample>): (r: Option<bool>)
    ensures validation ==> r == Some(true)
    ensures !validation && notes.None? ==> r.None?
    ensures !validation && notes.Some? ==> r.Some?
    ensures r == Some(true) && !validation ==>
      notes.Some? && SuccessPrefix <= notes.value.topic && Classify(notes.value.topic) == CalibrationKind
    ensures r == Some(false) ==> !validation && notes.Some? && !(SuccessPrefix <= notes.value.topic)
  {
    if validation then Some(true)
    else if notes.None? then None
    else
      var succeeded := SuccessPrefix <= notes.value.topic;
      if succeeded then SuccessIsCalibration(notes.value.topic); Some(succeeded)
      else Some(succeeded)
  }

  /** What a callback does with one sample. */
  datatype Verdict = Unregister | Keep | Drop

  /** The window of an attempt: after `task_start`, not after `task_stop`. */
  predicate InWindow(ts: real, start: real, stop: Cutoff) {
    start < ts && (stop.At? ==> ts <= stop.time)
  }

  /** A callback's decision: past the cut-off it unregisters itself, otherwise
      it keeps the sample when it is later than the start. */
  function Decide(ts: real, start: real, stop: Cutoff): (v: Verdict)
    ensures v == Unregister <==> stop.Exceeded(ts)
    ensures v == Keep <==> InWindow(ts, start, stop)
    ensures v == Drop <==> !stop.Exceeded(ts) && ts <= start
  {
    if stop.Exceeded(ts) then Unregister
    else if ts > start then Keep
    else Drop
  }

  /** A list after a callback has seen `s`. */
  function Admit(list: seq<Sample>, s: Sample, start: real, stop: Cutoff): (r: seq<Sample>)
  {
    if Decide(s.timestamp, start, stop) == Keep then list + [s] else list
  }

  /** Admitting to a list with a fixed front leaves the front in place. */
  lemma AdmitAfter(front: seq<Sample>, list: seq<Sample>, s: Sample, start: real, stop: Cutoff)
    ensures Admit(front + list, s, start, stop) == front + Admit(list, s, start, stop)
  {
    assert (front + list) + [s] == front + (list + [s]);
  }

  /** Some sample of the stream lies past the cut-off: a callback fed this
      stream has unregistered itself. */
  predicate Stopped(stream: seq<Sample>, stop: Cutoff) {
    stream != [] && (Stopped(stream[..|stream| - 1], stop) || stop.Exceeded(stream[|stream| - 1].timestamp))
  }

  /** What a callback appends to its list when fed `stream` one sample after
      another: nothing once it has unregistered itself. */
  function Collect(stream: seq<Sample>, start: real, stop: Cutoff): (c: seq<Sample>)
  {
    if stream == [] then []
    else
      var init := stream[..|stream| - 1];
      if Stopped(init, stop) then Collect(init, start, stop)
      else Admit(Collect(init, start, stop), stream[|stream| - 1], start, stop)
  }

  /** `Stopped` means what it says: some sample is past the cut-off. */
  lemma {:induction false} StoppedWitness(stream: seq<Sample>, stop: Cutoff)
    ensures Stopped(stream, stop) <==>
      exists j :: 0 <= j < |stream| && stop.Exceeded(stream[j].timestamp)
  {
    if stream != [] {
      var init := stream[..|stream| - 1];
      StoppedWitness(init, stop);
      if Stopped(init, stop) {
        var j :| 0 <= j < |init| && stop.Exceeded(init[j].timestamp);
        assert stream[j] == init[j];
      }
      if j :| 0 <= j < |stream| && stop.Exceeded(stream[j].timestamp) {
        if j < |init| {
          assert init[j] == stream[j];
        }
      }
    }
  }

  /** Every collected sample comes from the stream and lies inside the window. */
  lemma {:induction false} CollectInWindow(stream: seq<Sample>, start: real, stop: Cutoff)
    ensures forall s :: s in Collect(stream, start, stop) ==>
      s in stream && InWindow(s.timestamp, start, stop)
    ensures |Collect(stream, start, stop)| <= |stream|
  {
    if stream != [] {
      var init := stream[..|stream| - 1];
      CollectInWindow(init, start, stop);
      assert forall s :: s in init ==> s in stream;
    }
  }

  /** Once the callback has unregistered itself, later samples are never
      collected, even those inside the window. */
  lemma {:induction false} CollectAfterStop(a: seq<Sample>, b: seq<Sample>, start: real, stop: Cutoff)
    requires Stopped(a, stop)
    ensures Stopped(a + b, stop)
    ensures Collect(a + b, start, stop) == Collect(a, start, stop)
  {
    if b != [] {
      var init := b[..|b| - 1];
      CollectAfterStop(a, init, start, stop);
      assert (a + b)[..|a + b| - 1] == a + init;
    } else {
      assert a + b == a;
    }
  }

  /** The samples of a stream inside the window, in order. */
  function InWindowOnly(stream: seq<Sample>, start: real, stop: Cutoff): seq<Sample> {
    if stream == [] then []
    else
      var init := stream[..|stream| - 1];
      var s := stream[|stream| - 1];
      InWindowOnly(init, start, stop) + (if InWindow(s.timestamp, start, stop) then [s] else [])
  }

  /** On a stream in time order, unregistering loses nothing: the callback
      collects exactly the samples inside the window. */
  lemma {:induction false} CollectSorted(stream: seq<Sample>, start: real, stop: Cutoff)
    requires SortedByTime(stream)
    ensures Collect(stream, start, stop) == InWindowOnly(stream, start, stop)
  {
    if stream != [] {
      var init := stream[..|stream| - 1];
      var s := stream[|stream| - 1];
      CollectSorted(init, start, stop);
      if Stopped(init, stop) {
        StoppedWitness(init, stop);
        var j :| 0 <= j < |init| && stop.Exceeded(init[j].timestamp);
        assert stream[j] == init[j];
        assert !InWindow(s.timestamp, start, stop);
      }
    }
  }

  /** The payloads of the messages of one kind, in order. */
  function Payloads(messages: seq<Message>, k: Kind): seq<Sample> {
    if messages == [] then []
    else
      var m := messages[|messages| - 1];
      Payloads(messages[..|messages| - 1], k) + (if Classify(m.topic) == k then [m.payload] else [])
  }

  /** The last sample of a stream, or `prior` when it is empty. */
  function Latest(stream: seq<Sample>, prior: Option<Sample>): (r: Option<Sample>)
    ensures stream == [] ==> r == prior
    ensures stream != [] ==> r == Some(stream[|stream| - 1])
  {
    if stream == [] then prior else Some(stream[|stream| - 1])
  }

  /** The last payload of kind `k`, or `prior` when there is none. */
  function LastOf(messages: seq<Message>, k: Kind, prior: Option<Sample>): Option<Sample> {
    Latest(Payloads(messages, k), prior)
  }

  /** The payloads received so far, split by kind. */
  datatype Streams = Streams(
    pupil: seq<Sample>,
    gaze: seq<Sample>,
    fixation: seq<Sample>,
    calibration: seq<Sample>,
    aravis: seq<Sample>)

  /** The streams after one more message. */
  function Received(st: Streams, m: Message): Streams {
    match Classify(m.topic)
    case PupilKind => st.(pupil := st.pupil + [m.payload])
    case GazeKind => st.(gaze := st.gaze + [m.payload])
    case FixationKind => st.(fixation := st.fixation + [m.payload])
    case CalibrationKind => st.(calibration := st.calibration + [m.payload])
    case AravisKind => st.(aravis := st.aravis + [m.payload])
    case Unrecognised => st
  }

  function AllPayloads(messages: seq<Message>): Streams {
    Streams(Payloads(messages, PupilKind), Payloads(messages, GazeKind), Payloads(messages, FixationKind),
            Payloads(messages, CalibrationKind), Payloads(messages, AravisKind))
  }

  /** One step of `Payloads`, from a prefix to the next message. */
  lemma PayloadsStep(messages: seq<Message>, i: nat)
    requires i < |messages|
    ensures AllPayloads(messages[..i + 1]) == Received(AllPayloads(messages[..i]), messages[i])
  {
    assert messages[..i + 1][..i] == messages[..i];
  }

  /** One step of `Stopped` and `Collect`, from a stream to one more sample. */
  lemma CollectStep(stream: seq<Sample>, s: Sample, start: real, stop: Cutoff)
    ensures Stopped(stream + [s], stop) <==> Stopped(stream, stop) || stop.Exceeded(s.timestamp)
    ensures Collect(stream + [s], start, stop)
         == if Stopped(stream, stop) then Collect(stream, start, stop)
            else Admit(Collect(stream, start, stop), s, start, stop)
  {
    assert (stream + [s])[..|stream|] == stream;
  }

  /** A list that started as `front` and has collected `stream`, fed one more sample. */
  lemma FeedStep(front: seq<Sample>, stream: seq<Sample>, s: Sample, start: real, stop: Cutoff)
    ensures Stopped(stream + [s], stop) <==> Stopped(stream, stop) || stop.Exceeded(s.timestamp)
    ensures front + Collect(stream + [s], start, stop)
         == if Stopped(stream, stop) then front + Collect(stream, start, stop)
            else Admit(front + Collect(stream, start, stop), s, start, stop)
  {
    CollectStep(stream, s, start, stop);
    AdmitAfter(front, Collect(stream, start, stop), s, start, stop);
  }

  /** The client's slots and the lists of its registered tasks when listening starts. */
  datatype Snapshot = Snapshot(
    pupil: Option<Sample>,
    gaze: Option<Sample>,
    fixation: Option<Sample>,
    calibration: Option<Sample>,
    aravis: Option<Sample>,
    pupilTask: EyetrackerCalibration?,
    gazeTask: EyetrackerCalibration?,
    fixTask: EyetrackerCalibration?,
    pupils: seq<Sample>,
    gazeSamples: seq<Sample>,
    fixations: seq<Sample>)

  /** `EyeTrackerClient`: the last-known slots and the callback slots. A callback
      slot holds the calibration task whose bound method is registered. */
  class EyeTrackerClient {
    var pupil: Option<Sample>
    var gaze: Option<Sample>
    var fixation: Option<Sample>
    var lastCalibrationNotification: Option<Sample>
    var aravisNotification: Option<Sample>
    var pupilCb: EyetrackerCalibration?
    var gazeCb: EyetrackerCalibration?
    var fixCb: EyetrackerCalibration?

    /** Every registered callback belongs to a task of this client, so that its
        unregistering clears a slot of this client. */
    ghost predicate Valid()
      reads this
    {
      && (pupilCb != null ==> pupilCb.eyetracker == this)
      && (gazeCb != null ==> gazeCb.eyetracker == this)
      && (fixCb != null ==> fixCb.eyetracker == this)
    }

    /** The task registered for each kind of sample, if any. */
    function PupilTask(): set<EyetrackerCalibration>
      reads this
    {
      if pupilCb != null then {pupilCb} else {}
    }

    function GazeTask(): set<EyetrackerCalibration>
      reads this
    {
      if gazeCb != null then {gazeCb} else {}
    }

    function FixTask(): set<EyetrackerCalibration>
      reads this
    {
      if fixCb != null then {fixCb} else {}
    }

    /** The state `__init__` and `run` start from. */
    constructor ()
      ensures Valid()
      ensures pupil == None && gaze == None && fixation == None
      ensures lastCalibrationNotification == None && aravisNotification == None
      ensures pupilCb == null && gazeCb == null && fixCb == null
    {
      pupil := None;
      gaze := None;
      fixation := None;
      lastCalibrationNotification := None;
      aravisNotification := None;
      pupilCb := null;
      gazeCb := null;
      fixCb := null;
    }

    method SetPupilCb(task: EyetrackerCalibration)
      requires Valid() && task.eyetracker == this
      modifies this`pupilCb
      ensures Valid() && pupilCb == task
    {
      pupilCb := task;
    }

    method SetGazeCb(task: EyetrackerCalibration)
      requires Valid() && task.eyetracker == this
      modifies this`gazeCb
      ensures Valid() && gazeCb == task
    {
      gazeCb := task;
    }

    method SetFixCb(task: EyetrackerCalibration)
      requires Valid() && task.eyetracker == this
      modifies this`fixCb
      ensures Valid() && fixCb == task
    {
      fixCb := task;
    }

    method UnsetPupilCb()
      modifies this`pupilCb
      ensures pupilCb == null
    {
      pupilCb := null;
    }

    method UnsetGazeCb()
      modifies this`gazeCb
      ensures gazeCb == null
    {
      gazeCb := null;
    }

    method UnsetFixCb()
      modifies this`fixCb
      ensures fixCb == null
    {
      fixCb := null;
    }

    /** One step of the listening loop: file the payload into the slot of the
        topic's kind and hand it to the callback registered for that kind. */
    method Dispatch(topic: string, payload: Sample)
      requires Valid()
      modifies this, PupilTask()`pupils, GazeTask()`gazeSamples, FixTask()`fixations
      ensures Valid()
      ensures var k := Classify(topic);
        && pupil == (if k == PupilKind then Some(payload) else old(pupil))
        && gaze == (if k == GazeKind then Some(payload) else old(gaze))
        && fixation == (if k == FixationKind then Some(payload) else old(fixation))
        && lastCalibrationNotification
           == (if k == CalibrationKind then Some(payload) else old(lastCalibrationNotification))
        && aravisNotification == (if k == AravisKind then Some(payload) else old(aravisNotification))
      ensures pupilCb == (if Classify(topic) == PupilKind && old(pupilCb) != null
                             && old(pupilCb).taskStop.Exceeded(payload.timestamp) then null else old(pupilCb))
      ensures gazeCb == (if Classify(topic) == GazeKind && old(gazeCb) != null
                            && old(gazeCb).taskStop.Exceeded(payload.timestamp) then null else old(gazeCb))
      ensures fixCb == (if Classify(topic) == FixationKind && old(fixCb) != null
                           && old(fixCb).taskStop.Exceeded(payload.timestamp) then null else old(fixCb))
      ensures old(pupilCb) != null ==>
        (old(pupilCb).pupils
        == if Classify(topic) == PupilKind
           then Admit(old(pupilCb.pupils), payload, old(pupilCb).taskStart, old(pupilCb).taskStop)
           else old(pupilCb.pupils))
      ensures old(gazeCb) != null ==>
        (old(gazeCb).gazeSamples
        == if Classify(topic) == GazeKind
           then Admit(old(gazeCb.gazeSamples), payload, old(gazeCb).taskStart, old(gazeCb).taskStop)
           else old(gazeCb.gazeSamples))
      ensures old(fixCb) != null ==>
        (old(fixCb).fixations
        == if Classify(topic) == FixationKind
           then Admit(old(fixCb.fixations), payload, old(fixCb).taskStart, old(fixCb).taskStop)
           else old(fixCb.fixations))
    {
      if PupilPrefix <= topic {
        pupil := Some(payload);
        if pupilCb != null {
          pupilCb.PupilCb(payload);
        }
      } else if GazePrefix <= topic {
        gaze := Some(payload);
        if gazeCb != null {
          gazeCb.GazeCb(payload);
        }
      } else if FixationsPrefix <= topic {
        fixation := Some(payload);
        if fixCb != null {
          fixCb.FixCb(payload);
        }
      } else if CalibrationPrefix <= topic {
        lastCalibrationNotification := Some(payload);
      } else if AravisPrefix <= topic {
        aravisNotification := Some(payload);
      }
    }

    /** The state after the streams `st` from the snapshot `s0`: every slot
        holds the last payload of its kind, every callback slot is emptied once
        a payload of its kind was past its task's cut-off, and every registered
        task's list has grown by what its callback collected. */
    ghost predicate Reflects(s0: Snapshot, st: Streams)
      reads this, s0.pupilTask, s0.gazeTask, s0.fixTask
    {
      && Valid()
      && pupil == Latest(st.pupil, s0.pupil)
      && gaze == Latest(st.gaze, s0.gaze)
      && fixation == Latest(st.fixation, s0.fixation)
      && lastCalibrationNotification == Latest(st.calibration, s0.calibration)
      && aravisNotification == Latest(st.aravis, s0.aravis)
      && pupilCb == (if s0.pupilTask != null && Stopped(st.pupil, s0.pupilTask.taskStop) then null else s0.pupilTask)
      && gazeCb == (if s0.gazeTask != null && Stopped(st.gaze, s0.gazeTask.taskStop) then null else s0.gazeTask)
      && fixCb == (if s0.fixTask != null && Stopped(st.fixation, s0.fixTask.taskStop) then null else s0.fixTask)
      && (s0.pupilTask != null ==>
            s0.pupilTask.pupils == s0.pupils + Collect(st.pupil, s0.pupilTask.taskStart, s0.pupilTask.taskStop))
      && (s0.gazeTask != null ==>
            s0.gazeTask.gazeSamples == s0.gazeSamples + Collect(st.gaze, s0.gazeTask.taskStart, s0.gazeTask.taskStop))
      && (s0.fixTask != null ==>
            s0.fixTask.fixations == s0.fixations + Collect(st.fixation, s0.fixTask.taskStart, s0.fixTask.taskStop))
    }

    /** One message of the listening loop, in terms of the streams received so far. */
    method Receive(m: Message, ghost s0: Snapshot, ghost st: Streams)
      requires Reflects(s0, st)
      modifies this, PupilTask()`pupils, GazeTask()`gazeSamples, FixTask()`fixations
      ensures Reflects(s0, Received(st, m))
    {
      var k := Classify(m.topic);
      if k == PupilKind {
        ReceivePupil(m, s0, st);
      } else if k == GazeKind {
        ReceiveGaze(m, s0, st);
      } else if k == FixationKind {
        ReceiveFixation(m, s0, st);
      } else {
        ReceiveNotification(m, s0, st);
      }
    }

    method ReceivePupil(m: Message, ghost s0: Snapshot, ghost st: Streams)
      requires Reflects(s0, st) && Classify(m.topic) == PupilKind
      modifies this, PupilTask()`pupils, GazeTask()`gazeSamples, FixTask()`fixations
      ensures Reflects(s0, Received(st, m))
    {
      ghost var p0 := s0.pupilTask;
      if p0 != null {
        FeedStep(s0.pupils, st.pupil, m.payload, p0.taskStart, p0.taskStop);
      }
      Dispatch(m.topic, m.payload);
    }

    method ReceiveGaze(m: Message, ghost s0: Snapshot, ghost st: Streams)
      requires Reflects(s0, st) && Classify(m.topic) == GazeKind
      modifies this, PupilTask()`pupils, GazeTask()`gazeSamples, FixTask()`fixations
      ensures Reflects(s0, Received(st, m))
    {
      ghost var g0 := s0.gazeTask;
      if g0 != null {
        FeedStep(s0.gazeSamples, st.gaze, m.payload, g0.taskStart, g0.taskStop);
      }
      Dispatch(m.topic, m.payload);
    }

    method ReceiveFixation(m: Message, ghost s0: Snapshot, ghost st: Streams)
      requires Reflects(s0, st) && Classify(m.topic) == FixationKind
      modifies this, PupilTask()`pupils, GazeTask()`gazeSamples, FixTask()`fixations
      ensures Reflects(s0, Received(st, m))
    {
      ghost var f0 := s0.fixTask;
      if f0 != null {
        FeedStep(s0.fixations, st.fixation, m.payload, f0.taskStart, f0.taskStop);
      }
      Dispatch(m.topic, m.payload);
    }

    method ReceiveNotification(m: Message, ghost s0: Snapshot, ghost st: Streams)
      requires Reflects(s0, st)
      requires Classify(m.topic) == CalibrationKind || Classify(m.topic) == AravisKind || Classify(m.topic) == Unrecognised
      modifies this, PupilTask()`pupils, GazeTask()`gazeSamples, FixTask()`fixations
      ensures Reflects(s0, Received(st, m))
    {
      Dispatch(m.topic, m.payload);
    }

    /** The listening loop over the messages received: each slot ends with the
        last payload of its kind, and each registered task's list with what
        its callback collected. */
    method Run(messages: seq<Message>)
      requires Valid()
      modifies this, PupilTask()`pupils, GazeTask()`gazeSamples, FixTask()`fixations
      ensures Valid()
      ensures pupil == LastOf(messages, PupilKind, old(pupil))
      ensures gaze == LastOf(messages, GazeKind, old(gaze))
      ensures fixation == LastOf(messages, FixationKind, old(fixation))
      ensures lastCalibrationNotification == LastOf(messages, CalibrationKind, old(lastCalibrationNotification))
      ensures aravisNotification == LastOf(messages, AravisKind, old(aravisNotification))
      ensures pupilCb == SlotAfter(old(pupilCb), messages, PupilKind)
      ensures gazeCb == SlotAfter(old(gazeCb), messages, GazeKind)
      ensures fixCb == SlotAfter(old(fixCb), messages, FixationKind)
      ensures old(pupilCb) != null ==>
        (old(pupilCb).pupils
        == old(pupilCb.pupils) + Collect(Payloads(messages, PupilKind), old(pupilCb).taskStart, old(pupilCb).taskStop))
      ensures old(gazeCb) != null ==>
        (old(gazeCb).gazeSamples
        == old(gazeCb.gazeSamples) + Collect(Payloads(messages, GazeKind), old(gazeCb).taskStart, old(gazeCb).taskStop))
      ensures old(fixCb) != null ==>
        (old(fixCb).fixations
        == old(fixCb.fixations) + Collect(Payloads(messages, FixationKind), old(fixCb).taskStart, old(fixCb).taskStop))
    {
      ghost var s0 := Snapshot(pupil, gaze, fixation, lastCalibrationNotification, aravisNotification,
        pupilCb, gazeCb, fixCb,
        if pupilCb != null then pupilCb.pupils else [],
        if gazeCb != null then gazeCb.gazeSamples else [],
        if fixCb != null then fixCb.fixations else []);
      assert messages[..0] == [];
      Listen(messages, s0);
    }

    /** The loop of `Run` from the snapshot `s0` of its start. */
    method Listen(messages: seq<Message>, ghost s0: Snapshot)
      requires Reflects(s0, AllPayloads(messages[..0]))
      modifies this, PupilTask()`pupils, GazeTask()`gazeSamples, FixTask()`fixations
      ensures Reflects(s0, AllPayloads(messages))
    {
      for i := 0 to |messages|
        invariant Reflects(s0, AllPayloads(messages[..i]))
      {
        Receive(messages[i], s0, AllPayloads(messages[..i]));
        PayloadsStep(messages, i);
      }
      assert messages[..|messages|] == messages;
    }
  }

  /** The callback slot of kind `k` after the messages, from slot `cb`: emptied
      once a payload of that kind was past the task's cut-off. */
  function SlotAfter(cb: EyetrackerCalibration?, messages: seq<Message>, k: Kind): EyetrackerCalibration?
    reads cb
  {
    if cb != null && Stopped(Payloads(messages, k), cb.taskStop) then null else cb
  }

  /** `EyetrackerCalibration`: one calibration or validation task, with the
      samples and references of its current attempt. */
  class EyetrackerCalibration {
    const eyetracker: EyeTrackerClient
    const markersOrder: string
    const markers: seq<Position>
    const validation: bool
    var taskStart: real
    var taskStop: Cutoff
    var pupils: seq<Sample>
    var gazeSamples: seq<Sample>
    var fixations: seq<Sample>
    var refs: seq<Ref>

    constructor (eyetracker: EyeTrackerClient, markersOrder: string, markers: seq<Position>, validation: bool)
      ensures this.eyetracker == eyetracker && this.markersOrder == markersOrder
      ensures this.markers == markers && this.validation == validation
      ensures taskStart == 0.0 && taskStop == Unbounded
      ensures pupils == [] && gazeSamples == [] && fixations == [] && refs == []
    {
      this.eyetracker := eyetracker;
      this.markersOrder := markersOrder;
      this.markers := markers;
      this.validation := validation;
      taskStart := 0.0;
      taskStop := Unbounded;
      pupils := [];
      gazeSamples := [];
      fixations := [];
      refs := [];
    }

    /** `_pupil_cb`. */
    method PupilCb(pupil: Sample)
      modifies this`pupils, eyetracker`pupilCb
      ensures pupils == Admit(old(pupils), pupil, taskStart, taskStop)
      ensures eyetracker.pupilCb
           == if taskStop.Exceeded(pupil.timestamp) then null else old(eyetracker.pupilCb)
    {
      if taskStop.Exceeded(pupil.timestamp) {
        eyetracker.UnsetPupilCb();
        return;
      }
      if pupil.timestamp > taskStart {
        pupils := pupils + [pupil];
      }
    }

    /** `_gaze_cb`. */
    method GazeCb(gaze: Sample)
      modifies this`gazeSamples, eyetracker`gazeCb
      ensures gazeSamples == Admit(old(gazeSamples), gaze, taskStart, taskStop)
      ensures eyetracker.gazeCb
           == if taskStop.Exceeded(gaze.timestamp) then null else old(eyetracker.gazeCb)
    {
      if taskStop.Exceeded(gaze.timestamp) {
        eyetracker.UnsetGazeCb();
        return;
      }
      if gaze.timestamp > taskStart {
        gazeSamples := gazeSamples + [gaze];
      }
    }

    /** `_fix_cb`. */
    method FixCb(fixation: Sample)
      modifies this`fixations, eyetracker`fixCb
      ensures fixations == Admit(old(fixations), fixation, taskStart, taskStop)
      ensures eyetracker.fixCb
           == if taskStop.Exceeded(fixation.timestamp) then null else old(eyetracker.fixCb)
    {
      if taskStop.Exceeded(fixation.timestamp) {
        eyetracker.UnsetFixCb();
        return;
      }
      if fixation.timestamp > taskStart {
        fixations := fixations + [fixation];
      }
    }

    /** The start of an attempt: empty lists, an open window from `now`, and
        the three callbacks registered. */
    method BeginAttempt(now: real)
      requires eyetracker.Valid()
      modifies this`refs, this`pupils, this`gazeSamples, this`fixations, this`taskStart, this`taskStop
      modifies eyetracker`pupilCb, eyetracker`gazeCb, eyetracker`fixCb
      ensures refs == [] && pupils == [] && gazeSamples == [] && fixations == []
      ensures taskStart == now && taskStop == Unbounded
      ensures eyetracker.Valid()
      ensures eyetracker.pupilCb == this && eyetracker.gazeCb == this && eyetracker.fixCb == this
    {
      refs := [];
      pupils := [];
      gazeSamples := [];
      fixations := [];
      taskStart := now;
      taskStop := Unbounded;
      eyetracker.SetPupilCb(this);
      eyetracker.SetGazeCb(this);
      eyetracker.SetFixCb(this);
    }

    /** The frame loop: the sites of `markers` are shown in the order that
        `markersOrder` selects (`shuffle` stands for the random permutation),
        each for `MarkerDurationFrames` frames, and the frames outside the
        lead-in and lead-out append a reference at the site's position
        (`normOf[site]`, `screenOf[site]`), stamped with the clock reading of
        that reference. */
    method PresentMarkers(shuffle: seq<nat>, normOf: seq<Position>, screenOf: seq<Position>, clock: nat -> real)
      requires IsOrder(shuffle, |markers|)
      requires |normOf| == |markers| && |screenOf| == |markers|
      modifies this`refs
      ensures var order := MarkersOrder(|markers|, markersOrder, shuffle);
        && (forall j :: 0 <= j < |order| ==> order[j] < |normOf|)
        && refs == old(refs) + PresentedRefs(order, normOf, screenOf, clock)
    {
      var order := MarkersOrder(|markers|, markersOrder, shuffle);
      EveryIndexVisited(order, |markers|);
      PresentSites(order, normOf, screenOf, clock);
    }

    /** The marker loop over the sites of `order`. */
    method PresentSites(order: seq<nat>, normOf: seq<Position>, screenOf: seq<Position>, clock: nat -> real)
      requires |normOf| == |screenOf|
      requires forall j :: 0 <= j < |order| ==> order[j] < |normOf|
      modifies this`refs
      ensures refs == old(refs) + PresentedRefs(order, normOf, screenOf, clock)
    {
      for m := 0 to |order|
        invariant refs == old(refs) + PresentedRefs(order[..m], normOf, screenOf, clock)
      {
        var site := order[m];
        var before := refs;
        PresentMarker(normOf[site], screenOf[site], clock, m * RefsPerMarker);
        assert order[..m + 1][..m] == order[..m];
        assert before == old(refs) + PresentedRefs(order[..m], normOf, screenOf, clock);
      }
      assert order[..|order|] == order;
    }

    /** The frames of one marker. */
    method PresentMarker(norm: Position, screen: Position, clock: nat -> real, base: nat)
      modifies this`refs
      ensures refs == old(refs) + MarkerBlock(norm, screen, clock, base)
    {
      for f := 0 to MarkerDurationFrames
        invariant RecordedFrames(f) <= RefsPerMarker
        invariant refs == old(refs) + MarkerBlock(norm, screen, clock, base)[..RecordedFrames(f)]
      {
        RecordedFramesClosed(f + 1);
        if f > CalibrationLeadIn && f < MarkerDurationFrames - CalibrationLeadOut {
          refs := refs + [Ref(norm, screen, clock(base + RecordedFrames(f)))];
        }
      }
      RefsPerMarkerCount();
    }

    /** The end of the marker presentation closes the window at `now`. */
    method EndAttempt(now: real)
      modifies this`taskStop
      ensures taskStop == At(now)
    {
      taskStop := At(now);
    }

    /** `stop`: the three callback slots of the client are emptied. */
    method Stop()
      modifies eyetracker`pupilCb, eyetracker`gazeCb, eyetracker`fixCb
      ensures eyetracker.pupilCb == null && eyetracker.gazeCb == null && eyetracker.fixCb == null
    {
      eyetracker.UnsetPupilCb();
      eyetracker.UnsetGazeCb();
      eyetracker.UnsetFixCb();
    }
  }
}
