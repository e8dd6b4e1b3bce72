/** Values shared by the eye-tracking components: positions, marker references,
    the sample records delivered by the tracker's event stream, and the cut-off
    timestamp that bounds a calibration attempt. */
module Samples {

  datatype Option<+T> = None | Some(value: T)

  /** A position as the tracker and the stimulus window report it: a list of
      floats (normalised `norm_pos` or pixel `screen_pos`). Only equality is used. */
  type Position = seq<real>

  /** One reference recorded per rendered frame while a calibration marker is on screen. */
  datatype Ref = Ref(normPos: Position, screenPos: Position, timestamp: real)

  /** A message payload from the event stream. The core reads `timestamp` of every
      sample, `topic` of notifications, and `id`, `norm_pos`, `duration` and
      `dispersion` of fixations; the other fields of the tracker's records are
      never read and are not modelled. */
  datatype Sample = Sample(
    topic: string,
    timestamp: real,
    id: int,
    normPos: Position,
    duration: real,
    dispersion: real)

  /** `task_stop`: infinite while markers are shown, a clock reading once they are done. */
  datatype Cutoff = Unbounded | At(time: real) {
    /** A timestamp lies beyond the cut-off (`timestamp > task_stop`). */
    predicate Exceeded(ts: real) {
      At? && ts > time
    }
  }

  /** Samples in the order of their timestamps, as the tracker delivers each stream. */
  predicate SortedByTime(stream: seq<Sample>) {
    forall i, j :: 0 <= i < j < |stream| ==> stream[i].timestamp <= stream[j].timestamp
  }
}
