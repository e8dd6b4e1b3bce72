/** `interleave_calibration`: the session's task list with a calibration and a
    validation task in front of every task that uses eye tracking. Both are named
    after the 1-based position of the task they precede in the input list. */
module Schedule {

  /** A task of the session; only its name and whether it uses eye tracking matter here. */
  datatype Task = Task(name: string, useEyetracking: bool)

  /** An element of the interleaved list: a calibration task created on the
      way (`validation` tells a validation from a calibration), or an input task. */
  datatype Scheduled = CalibrationTask(name: string, validation: bool) | SessionTask(task: Task)

  const CalibrationStem: string := "eyeTrackercalibration-"
  const ValidationStem: string := "eyeTrackercalib-validate-"

  function DigitChar(d: nat): char
    requires d < 10
  {
    "0123456789"[d]
  }

  /** The decimal representation Python's f-string gives a non-negative integer. */
  function NatToString(n: nat): (s: string)
    ensures |s| >= 1
  {
    if n < 10 then [DigitChar(n)] else NatToString(n / 10) + [DigitChar(n % 10)]
  }

  /** The value of a string read as decimal digits. */
  function DigitsValue(s: string): int {
    if s == [] then 0
    else DigitsValue(s[..|s| - 1]) * 10 + (s[|s| - 1] as int - '0' as int)
  }

  /** The rendering uses decimal digits only. */
  lemma {:induction false} NatToStringDigits(n: nat)
    ensures forall j :: 0 <= j < |NatToString(n)| ==> '0' <= NatToString(n)[j] <= '9'
  {
    if n >= 10 {
      NatToStringDigits(n / 10);
    }
  }

  /** Reading the digits back gives the number: the rendering loses nothing. */
  lemma {:induction false} NatToStringRoundTrip(n: nat)
    ensures DigitsValue(NatToString(n)) == n
  {
    var s := NatToString(n);
    if n >= 10 {
      NatToStringRoundTrip(n / 10);
      assert s[..|s| - 1] == NatToString(n / 10);
    }
  }

  function CalibrationName(index: nat): string {
    CalibrationStem + NatToString(index)
  }

  function ValidationName(index: nat): string {
    ValidationStem + NatToString(index)
  }

  /** Tasks at different positions get different calibration and validation names,
      and no calibration name is a validation name. */
  lemma NamesDistinct(i: nat, j: nat)
    ensures i != j ==> CalibrationName(i) != CalibrationName(j) && ValidationName(i) != ValidationName(j)
    ensures CalibrationName(i) != ValidationName(j)
  {
    NatToStringRoundTrip(i);
    NatToStringRoundTrip(j);
    assert CalibrationName(i)[|CalibrationStem|..] == NatToString(i);
    assert CalibrationName(j)[|CalibrationStem|..] == NatToString(j);
    assert ValidationName(i)[|ValidationStem|..] == NatToString(i);
    assert ValidationName(j)[|ValidationStem|..] == NatToString(j);
    assert CalibrationName(i)[15] == CalibrationStem[15] != ValidationStem[15] == ValidationName(j)[15];
  }

  /** What the generator yields for the task at 1-based position `index`. */
  function Block(task: Task, index: nat): seq<Scheduled> {
    (if task.useEyetracking
     then [CalibrationTask(CalibrationName(index), false), CalibrationTask(ValidationName(index), true)]
     else [])
      + [SessionTask(task)]
  }

  /** The whole interleaved list; the counter reaches `|tasks|` at the last task. */
  function Interleave(tasks: seq<Task>): (r: seq<Scheduled>)
    ensures |tasks| <= |r| <= 3 * |tasks|
    ensures tasks != [] ==> r[|r| - 1] == SessionTask(tasks[|tasks| - 1])
  {
    if tasks == [] then []
    else Interleave(tasks[..|tasks| - 1]) + Block(tasks[|tasks| - 1], |tasks|)
  }

  /** The number of tasks that use eye tracking. */
  function EyetrackingCount(tasks: seq<Task>): (n: nat)
    ensures n <= |tasks|
  {
    if tasks == [] then 0
    else EyetrackingCount(tasks[..|tasks| - 1]) + (if tasks[|tasks| - 1].useEyetracking then 1 else 0)
  }

  /** The input tasks of an interleaved list, in order. */
  function SessionTasks(items: seq<Scheduled>): seq<Task> {
    if items == [] then []
    else
      var last := items[|items| - 1];
      SessionTasks(items[..|items| - 1]) + (if last.SessionTask? then [last.task] else [])
  }

  lemma {:induction false} SessionTasksAppend(a: seq<Scheduled>, b: seq<Scheduled>)
    ensures SessionTasks(a + b) == SessionTasks(a) + SessionTasks(b)
  {
    if b == [] {
      assert a + b == a;
    } else {
      SessionTasksAppend(a, b[..|b| - 1]);
      assert (a + b)[..|a + b| - 1] == a + b[..|b| - 1];
    }
  }

  /** The block of one task holds that task and no other. */
  lemma BlockSessionTasks(task: Task, index: nat)
    ensures SessionTasks(Block(task, index)) == [task]
  {
    var b := Block(task, index);
    if task.useEyetracking {
      assert b[..2] == b[..|b| - 1];
      assert b[..2][..1] == [b[0]];
      assert [b[0]][..0] == [];
      assert SessionTasks([b[0]]) == [];
      assert SessionTasks(b[..2]) == [];
    } else {
      assert b[..0] == [];
    }
  }

  /** Two items are added per eye-tracking task: the output has n + 2k elements. */
  lemma {:induction false} InterleaveLength(tasks: seq<Task>)
    ensures |Interleave(tasks)| == |tasks| + 2 * EyetrackingCount(tasks)
  {
    if tasks != [] {
      InterleaveLength(tasks[..|tasks| - 1]);
    }
  }

  /** The input tasks all come out, once each and in their input order. */
  lemma {:induction false} InterleaveKeepsTasks(tasks: seq<Task>)
    ensures SessionTasks(Interleave(tasks)) == tasks
  {
    if tasks != [] {
      InterleaveKeepsTasks(tasks[..|tasks| - 1]);
      InterleaveStepTasks(tasks);
      InitAndLast(tasks);
    }
  }

  /** The last input task adds exactly itself to the input tasks of the output. */
  lemma InterleaveStepTasks(tasks: seq<Task>)
    requires tasks != []
    ensures SessionTasks(Interleave(tasks))
         == SessionTasks(Interleave(tasks[..|tasks| - 1])) + [tasks[|tasks| - 1]]
  {
    var front := Interleave(tasks[..|tasks| - 1]);
    var block := Block(tasks[|tasks| - 1], |tasks|);
    assert Interleave(tasks) == front + block;
    SessionTasksAppend(front, block);
    BlockSessionTasks(tasks[|tasks| - 1], |tasks|);
  }

  lemma InitAndLast<T>(s: seq<T>)
    requires s != []
    ensures s[..|s| - 1] + [s[|s| - 1]] == s
  {
  }

  /** The list for a prefix of the tasks is a prefix of the whole list. */
  lemma {:induction false} InterleavePrefix(tasks: seq<Task>, n: nat)
    requires n <= |tasks|
    ensures Interleave(tasks[..n]) <= Interleave(tasks)
  {
    if n < |tasks| {
      var init := tasks[..|tasks| - 1];
      InterleavePrefix(init, n);
      assert init[..n] == tasks[..n];
    } else {
      assert tasks[..n] == tasks;
    }
  }

  /** The `i`-th input task sits at position `Pos(tasks, i)` of the output. */
  function Pos(tasks: seq<Task>, i: nat): nat
    requires i < |tasks|
  {
    i + 2 * EyetrackingCount(tasks[..i + 1])
  }

  /** Task `i` appears at `Pos(tasks, i)`; when it uses eye tracking, the
      calibration and then the validation for position `i + 1` come right
      before it, and otherwise it follows the previous task directly. */
  lemma InterleaveAt(tasks: seq<Task>, i: nat)
    requires i < |tasks|
    ensures var out := Interleave(tasks);
      var p := Pos(tasks, i);
      && p < |out|
      && out[p] == SessionTask(tasks[i])
      && (tasks[i].useEyetracking ==>
            p >= 2
            && out[p - 2] == CalibrationTask(CalibrationName(i + 1), false)
            && out[p - 1] == CalibrationTask(ValidationName(i + 1), true))
      && (!tasks[i].useEyetracking && i > 0 ==> out[p - 1] == SessionTask(tasks[i - 1]))
  {
    var out := Interleave(tasks);
    var prefix := tasks[..i + 1];
    var pre := Interleave(prefix);
    assert Pos(tasks, i) == |pre| - 1 by {
      InterleaveLength(prefix);
    }
    assert pre <= out by {
      InterleavePrefix(tasks, i + 1);
    }
    InterleaveEnd(prefix);
    assert prefix[i] == tasks[i];
    assert i > 0 ==> prefix[i - 1] == tasks[i - 1];
  }

  /** The end of the list: the last task, preceded by its calibration and
      validation when it uses eye tracking, and otherwise by the task before it. */
  lemma InterleaveEnd(tasks: seq<Task>)
    requires tasks != []
    ensures var out := Interleave(tasks);
      var t := tasks[|tasks| - 1];
      && (t.useEyetracking ==>
            |out| >= 3
            && out[|out| - 3] == CalibrationTask(CalibrationName(|tasks|), false)
            && out[|out| - 2] == CalibrationTask(ValidationName(|tasks|), true))
      && (!t.useEyetracking && |tasks| > 1 ==> |out| >= 2 && out[|out| - 2] == SessionTask(tasks[|tasks| - 2]))
  {
    var init := tasks[..|tasks| - 1];
    assert Interleave(tasks) == Interleave(init) + Block(tasks[|tasks| - 1], |tasks|);
    if |tasks| > 1 {
      assert init[|init| - 1] == tasks[|tasks| - 2];
    }
  }
}
