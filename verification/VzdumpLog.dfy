/** `parse_vzdump_log` in app/services/vzdump_log.py: one result per guest of a
    finished backup task. A log line is given by what each pattern finds in it; a line
    may match several, and the source's order of tests decides. */
module VzdumpLog {
  import opened Wrappers

  datatype Transfer = Transfer(bytes: Option<nat>, seconds: nat, hasRate: bool, rate: Option<nat>)

  datatype Line = Line(
    start: Option<int>,          // "Starting Backup of VM <id>"
    archive: Option<int>,        // time in the PBS archive name
    startedAt: Option<int>,      // "Backup started at", already in UTC
    transfer: Option<Transfer>,
    reused: Option<nat>,         // percent reused: an incremental backup
    fullDrive: Option<bool>,     // unusable dirty bitmap; whether the drive is a small one
    finished: Option<nat>,       // duration
    failed: bool)

  datatype Run = Run(vmid: int, startedAt: Option<int>, duration: Option<nat>, transferred: Option<nat>,
                     throughput: Option<nat>, reusedPct: Option<nat>, fullBackup: Option<bool>, failed: bool)

  // A section that is being read, with the two flags the source keeps beside it.
  datatype Open = Open(run: Run, seenIncremental: bool, seenFull: bool)

  function NewRun(vmid: int): Open {
    Open(Run(vmid, None, None, None, None, None, None, false), false, false)
  }

  function PerSecond(bytes: nat, seconds: nat): nat
    requires seconds > 0
  {
    bytes / seconds
  }

  /** The chain of tests for a line inside a section. */
  function Absorb(o: Open, l: Line): Open {
    if l.archive.Some? then o.(run := o.run.(startedAt := l.archive))
    else if l.startedAt.Some? && o.run.startedAt.None? then o.(run := o.run.(startedAt := l.startedAt))
    else if l.transfer.Some? then
      var t := l.transfer.value;
      var rate := if t.hasRate then t.rate
                  else if t.bytes.Some? && t.bytes.value > 0 && t.seconds > 0 then Some(PerSecond(t.bytes.value, t.seconds))
                  else o.run.throughput;
      o.(run := o.run.(transferred := t.bytes, throughput := rate))
    else if l.reused.Some? then o.(run := o.run.(reusedPct := l.reused), seenIncremental := true)
    else if l.fullDrive.Some? then (if l.fullDrive.value then o else o.(seenFull := true))
    else if l.finished.Some? then o.(run := o.run.(duration := l.finished))
    else if l.failed then o.(run := o.run.(failed := true))
    else o
  }

  /** `close` */
  function Closed(o: Open): Run {
    if o.seenFull then o.run.(fullBackup := Some(true))
    else if o.seenIncremental then o.run.(fullBackup := Some(false))
    else o.run
  }

  // ---- the specification: section by section -----------------------------------

  function AbsorbAll(o: Open, body: seq<Line>): Open
    decreases |body|
  {
    if body == [] then o else AbsorbAll(Absorb(o, body[0]), body[1..])
  }

  /** The lines up to the next start line. */
  function Body(lines: seq<Line>): seq<Line> {
    if lines == [] || lines[0].start.Some? then [] else [lines[0]] + Body(lines[1..])
  }

  /** One result per start line, from that line's own section alone. */
  function Sections(lines: seq<Line>): seq<Run> {
    if lines == [] then []
    else if lines[0].start.None? then Sections(lines[1..])
    else [Closed(AbsorbAll(NewRun(lines[0].start.value), Body(lines[1..])))] + Sections(lines[1..])
  }

  /** The guests named by the start lines, in order. */
  function Started(lines: seq<Line>): seq<int> {
    if lines == [] then []
    else (if lines[0].start.Some? then [lines[0].start.value] else []) + Started(lines[1..])
  }

  // ---- the loop -------------------------------------------------------------------

  /** What the loop still yields from the open section and the lines left. */
  ghost function Remaining(current: Option<Open>, lines: seq<Line>): seq<Run>
    decreases |lines|
  {
    if lines == [] then Closing(current)
    else if lines[0].start.Some? then Closing(current) + Remaining(Some(NewRun(lines[0].start.value)), lines[1..])
    else Remaining(if current.Some? then Some(Absorb(current.value, lines[0])) else None, lines[1..])
  }

  function Closing(current: Option<Open>): seq<Run> {
    if current.Some? then [Closed(current.value)] else []
  }

  lemma {:induction false} RemainingIsSections(current: Option<Open>, lines: seq<Line>)
    ensures Remaining(current, lines)
      == (if current.Some? then [Closed(AbsorbAll(current.value, Body(lines)))] else []) + Sections(lines)
    decreases |lines|
  {
    if lines != [] {
      var l := lines[0];
      if l.start.Some? {
        RemainingIsSections(Some(NewRun(l.start.value)), lines[1..]);
      } else {
        RemainingIsSections(if current.Some? then Some(Absorb(current.value, l)) else None, lines[1..]);
        assert Body(lines)[1..] == Body(lines[1..]);
      }
    }
  }

  /** The source's single pass with its mutable current section gives one result per
      section, each from its own lines. */
  method ParseVzdumpLog(lines: seq<Line>) returns (runs: seq<Run>)
    ensures runs == Sections(lines)
  {
    runs := [];
    var current: Option<Open> := None;
    for k := 0 to |lines|
      invariant runs + Remaining(current, lines[k..]) == Remaining(None, lines)
    {
      var line := lines[k];
      assert lines[k..][0] == line && lines[k..][1..] == lines[k + 1..];
      if line.start.Some? {
        runs := runs + Closing(current);
        current := Some(NewRun(line.start.value));
      } else if current.Some? {
        current := Some(Absorb(current.value, line));
      }
    }
    runs := runs + Closing(current);
    RemainingIsSections(None, lines);
  }

  // ---- what the results mean --------------------------------------------------------

  /** Parsing is compositional where the second part begins with a start line. */
  lemma {:induction false} Compositional(a: seq<Line>, b: seq<Line>)
    requires b != [] ==> b[0].start.Some?
    ensures Sections(a + b) == Sections(a) + Sections(b)
    ensures Body(a + b) == Body(a)
  {
    if a == [] {
      assert a + b == b;
    } else {
      Compositional(a[1..], b);
      assert (a + b)[1..] == a[1..] + b;
    }
  }

  /** As many results as start lines, each for the guest its start line names. */
  lemma {:induction false} OneRunPerStart(lines: seq<Line>)
    ensures |Sections(lines)| == |Started(lines)|
    ensures forall k :: 0 <= k < |Sections(lines)| ==> Sections(lines)[k].vmid == Started(lines)[k]
  {
    if lines != [] {
      OneRunPerStart(lines[1..]);
      if lines[0].start.Some? {
        KeepsVmid(NewRun(lines[0].start.value), Body(lines[1..]));
      }
    }
  }

  lemma {:induction false} KeepsVmid(o: Open, body: seq<Line>)
    ensures AbsorbAll(o, body).run.vmid == o.run.vmid
    decreases |body|
  {
    if body != [] {
      KeepsVmid(Absorb(o, body[0]), body[1..]);
    }
  }

  ghost function LastArchive(body: seq<Line>): Option<int> {
    if body == [] then None
    else if LastArchive(body[1..]).Some? then LastArchive(body[1..]) else body[0].archive
  }

  ghost function FirstStartedAt(body: seq<Line>): Option<int> {
    if body == [] then None else if body[0].startedAt.Some? then body[0].startedAt else FirstStartedAt(body[1..])
  }

  /** A section's start is its last archive time if it has one, else its first "started at". */
  lemma {:induction false} StartOfSection(o: Open, body: seq<Line>)
    ensures AbsorbAll(o, body).run.startedAt
      == if LastArchive(body).Some? then LastArchive(body)
         else if o.run.startedAt.Some? then o.run.startedAt else FirstStartedAt(body)
    decreases |body|
  {
    if body != [] {
      StartOfSection(Absorb(o, body[0]), body[1..]);
    }
  }

  /** Line `k` comes to the test for a transfer: no time on it is still of use. */
  ghost predicate Timeless(timed: bool, body: seq<Line>, k: nat)
    requires k < |body|
  {
    body[k].archive.None? && (body[k].startedAt.Some? ==> timed || exists j :: 0 <= j < k && HasTime(body[j]))
  }

  /** Line `k` comes to the tests for incremental and full backups: no transfer either. */
  ghost predicate Tested(timed: bool, body: seq<Line>, k: nat)
    requires k < |body|
  {
    Timeless(timed, body, k) && body[k].transfer.None?
  }

  ghost predicate HasTime(l: Line) {
    l.archive.Some? || l.startedAt.Some?
  }

  ghost predicate ShowsFull(timed: bool, body: seq<Line>) {
    exists k :: 0 <= k < |body| && Tested(timed, body, k) && body[k].reused.None? && body[k].fullDrive == Some(false)
  }

  ghost predicate ShowsIncremental(timed: bool, body: seq<Line>) {
    exists k :: 0 <= k < |body| && Tested(timed, body, k) && body[k].reused.Some?
  }

  lemma {:induction false} TestedStep(timed: bool, body: seq<Line>, k: nat)
    requires 0 < k < |body|
    ensures Tested(timed, body, k) <==> Tested(timed || HasTime(body[0]), body[1..], k - 1)
  {
    if exists j :: 0 <= j < k && HasTime(body[j]) {
      var j :| 0 <= j < k && HasTime(body[j]);
      assert j > 0 ==> HasTime(body[1..][j - 1]);
    }
    if exists j :: 0 <= j < k - 1 && HasTime(body[1..][j]) {
      var j :| 0 <= j < k - 1 && HasTime(body[1..][j]);
      assert HasTime(body[j + 1]);
    }
  }

  lemma {:induction false} ShowsStep(timed: bool, body: seq<Line>)
    requires body != []
    ensures var t, rest := timed || HasTime(body[0]), body[1..];
      && (ShowsFull(timed, body) <==>
            (Tested(timed, body, 0) && body[0].reused.None? && body[0].fullDrive == Some(false)) || ShowsFull(t, rest))
      && (ShowsIncremental(timed, body) <==> (Tested(timed, body, 0) && body[0].reused.Some?) || ShowsIncremental(t, rest))
  {
    var t, rest := timed || HasTime(body[0]), body[1..];
    forall k | 0 < k < |body| ensures (Tested(timed, body, k) <==> Tested(t, rest, k - 1)) && body[k] == rest[k - 1] {
      TestedStep(timed, body, k);
    }
    forall k | 0 <= k < |rest| ensures (Tested(timed, body, k + 1) <==> Tested(t, rest, k)) && body[k + 1] == rest[k] {
      TestedStep(timed, body, k + 1);
    }
  }

  lemma {:induction false} FlagsOfSection(o: Open, body: seq<Line>)
    ensures var timed := o.run.startedAt.Some?;
      && (AbsorbAll(o, body).seenFull <==> o.seenFull || ShowsFull(timed, body))
      && (AbsorbAll(o, body).seenIncremental <==> o.seenIncremental || ShowsIncremental(timed, body))
      && AbsorbAll(o, body).run.fullBackup == o.run.fullBackup
    decreases |body|
  {
    if body != [] {
      ShowsStep(o.run.startedAt.Some?, body);
      FlagsOfSection(Absorb(o, body[0]), body[1..]);
      assert Absorb(o, body[0]).run.startedAt.Some? <==> o.run.startedAt.Some? || HasTime(body[0]);
    }
  }

  /** Whether a run was a full backup is decided by its own section only: full if any
      tested line shows an unusable bitmap of a data disk, else incremental if any
      tested line says so, else unknown. */
  lemma {:induction false} FullOfSection(vmid: int, body: seq<Line>)
    ensures Closed(AbsorbAll(NewRun(vmid), body)).fullBackup ==
      if ShowsFull(false, body) then Some(true) else if ShowsIncremental(false, body) then Some(false) else None
  {
    FlagsOfSection(NewRun(vmid), body);
  }

  // ---- the last line that counts --------------------------------------------------

  ghost predicate Transfers(timed: bool, body: seq<Line>, k: nat)
    requires k < |body|
  {
    Timeless(timed, body, k) && body[k].transfer.Some?
  }

  /** .. and it gives a rate, or bytes and seconds to compute one from. */
  ghost predicate Rates(timed: bool, body: seq<Line>, k: nat)
    requires k < |body|
  {
    Transfers(timed, body, k) && HasRate(body[k].transfer.value)
  }

  ghost predicate HasRate(t: Transfer) {
    t.hasRate || (t.bytes.Some? && t.bytes.value > 0 && t.seconds > 0)
  }

  ghost predicate Reuses(timed: bool, body: seq<Line>, k: nat)
    requires k < |body|
  {
    Tested(timed, body, k) && body[k].reused.Some?
  }

  /** Line `k` comes to the tests for the end of a backup. */
  ghost predicate LastTests(timed: bool, body: seq<Line>, k: nat)
    requires k < |body|
  {
    Tested(timed, body, k) && body[k].reused.None? && body[k].fullDrive.None?
  }

  ghost predicate Finishes(timed: bool, body: seq<Line>, k: nat)
    requires k < |body|
  {
    LastTests(timed, body, k) && body[k].finished.Some?
  }

  ghost predicate Fails(timed: bool, body: seq<Line>, k: nat)
    requires k < |body|
  {
    LastTests(timed, body, k) && body[k].finished.None? && body[k].failed
  }

  lemma {:induction false} AbsorbSnoc(o: Open, body: seq<Line>, l: Line)
    ensures AbsorbAll(o, body + [l]) == Absorb(AbsorbAll(o, body), l)
    decreases |body|
  {
    if body == [] {
      assert (body + [l])[1..] == [];
    } else {
      assert (body + [l])[1..] == body[1..] + [l];
      AbsorbSnoc(Absorb(o, body[0]), body[1..], l);
    }
  }

  lemma {:induction false} TimedSoFar(o: Open, body: seq<Line>)
    ensures AbsorbAll(o, body).run.startedAt.Some? <==> o.run.startedAt.Some? || exists j :: 0 <= j < |body| && HasTime(body[j])
    decreases |body|
  {
    if body != [] {
      TimedSoFar(Absorb(o, body[0]), body[1..]);
      assert forall j :: 0 < j < |body| ==> body[j] == body[1..][j - 1];
      assert forall j :: 0 <= j < |body| - 1 ==> body[1..][j] == body[j + 1];
    }
  }

  /** The last line, seen from the section so far. */
  lemma LastLine(o: Open, body: seq<Line>)
    requires body != []
    ensures var last, before := |body| - 1, AbsorbAll(o, body[..|body| - 1]);
      && AbsorbAll(o, body) == Absorb(before, body[last])
      && (Timeless(o.run.startedAt.Some?, body, last) <==>
            body[last].archive.None? && (body[last].startedAt.None? || before.run.startedAt.Some?))
    ensures forall k :: 0 <= k < |body| - 1 ==>
      (Timeless(o.run.startedAt.Some?, body, k) <==> Timeless(o.run.startedAt.Some?, body[..|body| - 1], k))
  {
    var init := body[..|body| - 1];
    assert body == init + [body[|body| - 1]];
    AbsorbSnoc(o, init, body[|body| - 1]);
    TimedSoFar(o, init);
    assert forall j :: 0 <= j < |init| ==> init[j] == body[j];
  }

  /** What a line counts for does not depend on later lines. */
  lemma EarlierLines(timed: bool, body: seq<Line>, k: nat)
    requires k < |body| - 1
    ensures var init := body[..|body| - 1];
      && (Transfers(timed, body, k) <==> Transfers(timed, init, k)) && (Rates(timed, body, k) <==> Rates(timed, init, k))
      && (Reuses(timed, body, k) <==> Reuses(timed, init, k)) && (Finishes(timed, body, k) <==> Finishes(timed, init, k))
      && (Fails(timed, body, k) <==> Fails(timed, init, k))
  {
    var init := body[..|body| - 1];
    assert forall j :: 0 <= j < |init| ==> init[j] == body[j];
    assert Timeless(timed, body, k) <==> Timeless(timed, init, k);
  }

  /** One line: a figure changes exactly when the line counts for it. */
  lemma LineCounts(o: Open, body: seq<Line>)
    requires body != []
    ensures var timed, last, l := o.run.startedAt.Some?, |body| - 1, body[|body| - 1];
      var before, run := AbsorbAll(o, body[..last]).run, AbsorbAll(o, body).run;
      && run.transferred == (if Transfers(timed, body, last) then l.transfer.value.bytes else before.transferred)
      && run.throughput == (if Rates(timed, body, last) then RateOf(l.transfer.value) else before.throughput)
      && run.reusedPct == (if Reuses(timed, body, last) then l.reused else before.reusedPct)
      && run.duration == (if Finishes(timed, body, last) then l.finished else before.duration)
      && (run.failed <==> before.failed || Fails(timed, body, last))
  {
    var last, before := |body| - 1, AbsorbAll(o, body[..|body| - 1]);
    LastLine(o, body);
    AbsorbCounts(before, body[last]);
    hide AbsorbAll, Absorb, PerSecond;
  }

  lemma AbsorbCounts(o: Open, l: Line)
    ensures var timeless, n := l.archive.None? && (l.startedAt.None? || o.run.startedAt.Some?), Absorb(o, l).run;
      var tests := timeless && l.transfer.None? && l.reused.None? && l.fullDrive.None?;
      && n.transferred == (if timeless && l.transfer.Some? then l.transfer.value.bytes else o.run.transferred)
      && n.throughput == (if timeless && l.transfer.Some? && HasRate(l.transfer.value) then RateOf(l.transfer.value) else o.run.throughput)
      && n.reusedPct == (if timeless && l.transfer.None? && l.reused.Some? then l.reused else o.run.reusedPct)
      && n.duration == (if tests && l.finished.Some? then l.finished else o.run.duration)
      && (n.failed <==> o.run.failed || (tests && l.finished.None? && l.failed))
  {
    hide PerSecond;
  }

  ghost function RateOf(t: Transfer): Option<nat> {
    if t.hasRate then t.rate
    else if t.bytes.Some? && t.seconds > 0 then Some(PerSecond(t.bytes.value, t.seconds)) else None
  }

  /** The last transfer of a section gives the bytes. */
  lemma {:induction false} LastTransfer(o: Open, body: seq<Line>, k: nat)
    requires k < |body| && Transfers(o.run.startedAt.Some?, body, k)
    requires forall j :: k < j < |body| ==> !Transfers(o.run.startedAt.Some?, body, j)
    ensures AbsorbAll(o, body).run.transferred == body[k].transfer.value.bytes
    decreases |body|
  {
    var init, timed := body[..|body| - 1], o.run.startedAt.Some?;
    LineCounts(o, body);
    if k < |init| {
      forall j | 0 <= j < |init| ensures Transfers(timed, body, j) <==> Transfers(timed, init, j) { EarlierLines(timed, body, j); }
      hide Transfers, AbsorbAll;
      LastTransfer(o, init, k);
    }
  }

  /** The last transfer with a rate, or with bytes and seconds, gives the throughput. */
  lemma {:induction false} LastRate(o: Open, body: seq<Line>, k: nat)
    requires k < |body| && Rates(o.run.startedAt.Some?, body, k)
    requires forall j :: k < j < |body| ==> !Rates(o.run.startedAt.Some?, body, j)
    ensures var t, rate := body[k].transfer.value, AbsorbAll(o, body).run.throughput;
      rate == if t.hasRate then t.rate else Some(t.bytes.value / t.seconds)
    decreases |body|
  {
    var init, timed := body[..|body| - 1], o.run.startedAt.Some?;
    LineCounts(o, body);
    if k < |init| {
      forall j | 0 <= j < |init| ensures Rates(timed, body, j) <==> Rates(timed, init, j) { EarlierLines(timed, body, j); }
      hide AbsorbAll, Timeless;
      LastRate(o, init, k);
    }
  }

  /** The last share reused, and the last duration told, are those of the run. */
  lemma {:induction false} LastShare(o: Open, body: seq<Line>, k: nat)
    requires k < |body| && Reuses(o.run.startedAt.Some?, body, k)
    requires forall j :: k < j < |body| ==> !Reuses(o.run.startedAt.Some?, body, j)
    ensures AbsorbAll(o, body).run.reusedPct == body[k].reused
    decreases |body|
  {
    var init, timed := body[..|body| - 1], o.run.startedAt.Some?;
    LineCounts(o, body);
    if k < |init| {
      forall j | 0 <= j < |init| ensures Reuses(timed, body, j) <==> Reuses(timed, init, j) { EarlierLines(timed, body, j); }
      hide Reuses, AbsorbAll;
      LastShare(o, init, k);
    }
  }

  lemma {:induction false} LastFinish(o: Open, body: seq<Line>, k: nat)
    requires k < |body| && Finishes(o.run.startedAt.Some?, body, k)
    requires forall j :: k < j < |body| ==> !Finishes(o.run.startedAt.Some?, body, j)
    ensures AbsorbAll(o, body).run.duration == body[k].finished
    decreases |body|
  {
    var init, timed := body[..|body| - 1], o.run.startedAt.Some?;
    LineCounts(o, body);
    if k < |init| {
      forall j | 0 <= j < |init| ensures Finishes(timed, body, j) <==> Finishes(timed, init, j) { EarlierLines(timed, body, j); }
      hide Finishes, AbsorbAll;
      LastFinish(o, init, k);
    }
  }

  /** What no line tells stays unknown, and the backup failed exactly when a line says so. */
  lemma {:induction false} NothingTold(o: Open, body: seq<Line>)
    ensures var timed, run := o.run.startedAt.Some?, AbsorbAll(o, body).run;
      && ((forall k :: 0 <= k < |body| ==> !Transfers(timed, body, k)) ==> run.transferred == o.run.transferred)
      && ((forall k :: 0 <= k < |body| ==> !Rates(timed, body, k)) ==> run.throughput == o.run.throughput)
      && ((forall k :: 0 <= k < |body| ==> !Reuses(timed, body, k)) ==> run.reusedPct == o.run.reusedPct)
      && ((forall k :: 0 <= k < |body| ==> !Finishes(timed, body, k)) ==> run.duration == o.run.duration)
      && (run.failed <==> o.run.failed || exists k :: 0 <= k < |body| && Fails(timed, body, k))
    decreases |body|
  {
    if body != [] {
      var init, timed := body[..|body| - 1], o.run.startedAt.Some?;
      LineCounts(o, body);
      NothingTold(o, init);
      forall j | 0 <= j < |init|
        ensures (Transfers(timed, body, j) <==> Transfers(timed, init, j)) && (Rates(timed, body, j) <==> Rates(timed, init, j))
        ensures (Reuses(timed, body, j) <==> Reuses(timed, init, j)) && (Finishes(timed, body, j) <==> Finishes(timed, init, j))
        ensures Fails(timed, body, j) <==> Fails(timed, init, j)
      {
        EarlierLines(timed, body, j);
      }
      hide AbsorbAll, Timeless, Transfers, Rates, Reuses, Finishes, Fails;
    }
  }
}
