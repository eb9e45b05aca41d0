/** Overall restore progress: the line loop of `_poll_task`, `_progress_updater` and
    `overall_restore_fields` (app/services/restore_server.py,
    app/services/restore_worker.py). Percentages are exact integer quotients. */
module Progress {
  import opened Wrappers

  datatype Fields = Fields(percent: nat, done: nat, total: nat, finalizing: bool)

  // A progress update of the run row: overall fields, or the raw per-disk ones.
  datatype Write = Raw | Overall(fields: Fields)

  function Percent(done: nat, total: nat): nat
    requires total > 0
  {
    if done * 100 / total < 100 then done * 100 / total else 100
  }

  /** `overall_restore_fields` */
  function OverallFields(sum: nat, total: Option<nat>): Option<Fields> {
    if total.None? || total.value == 0 then None
    else
      var done := if sum < total.value then sum else total.value;
      Some(Fields(Percent(done, total.value), done, total.value, Percent(done, total.value) >= 100))
  }

  lemma Quotient(n: nat, total: nat)
    requires total > 0
    ensures total * (n / total) <= n < total * (n / total) + total
  {
  }

  lemma Scaled(total: nat, x: nat, y: nat)
    requires x > y
    ensures total * x >= total * y + total
  {
    var d := x - y - 1;
    assert total * x == total * (y + 1 + d) == total * y + total + total * d;
    assert total * d >= 0;
  }

  lemma PercentMonotone(a: nat, b: nat, total: nat)
    requires a <= b && total > 0
    ensures Percent(a, total) <= Percent(b, total)
  {
    Quotient(a * 100, total);
    Quotient(b * 100, total);
    if a * 100 / total > b * 100 / total {
      Scaled(total, a * 100 / total, b * 100 / total);
    }
  }

  /** The percentage is the exact quotient, rounded down. */
  lemma PercentExact(done: nat, total: nat)
    requires done <= total && total > 0
    ensures Percent(done, total) * total <= done * 100 < (Percent(done, total) + 1) * total
  {
    var q := done * 100 / total;
    Quotient(done * 100, total);
    if q > 100 {
      Scaled(total, q, 100);
    }
    assert (q + 1) * total == total * q + total;
  }

  lemma FullPercent(done: nat, total: nat)
    requires done <= total && total > 0
    ensures Percent(done, total) >= 100 <==> done == total
  {
    var q := done * 100 / total;
    Quotient(done * 100, total);
    if q < 100 {
      Scaled(total, 100, q);
    } else if q > 100 {
      Scaled(total, q, 100);
    }
  }

  /** The overall fields: the bytes read, at most the total, and their exact share of it; unknown
      exactly when the total is. */
  lemma OverallMeans(sum: nat, total: Option<nat>)
    ensures OverallFields(sum, total).None? <==> total.None? || total.value == 0
    ensures OverallFields(sum, total).Some? ==>
      var f := OverallFields(sum, total).value;
      && f.total == total.value && f.done <= sum && f.done <= f.total && (f.done < sum ==> f.done == f.total)
      && f.percent * f.total <= f.done * 100 < (f.percent + 1) * f.total
      && (f.finalizing <==> sum >= f.total)
  {
    if total.Some? && total.value > 0 {
      var done := if sum < total.value then sum else total.value;
      PercentExact(done, total.value);
      FullPercent(done, total.value);
    }
  }

  /** Progress never runs backwards: bytes do not decrease, the total does not shrink,
      and the percentage does not decrease while the total stays. */
  ghost predicate NotAfter(f: Fields, g: Fields) {
    f.done <= g.done && f.total <= g.total && (f.total == g.total ==> f.percent <= g.percent)
  }

  /** From the first overall update on all are overall, none goes back, none exceeds
      the total, and "finalizing" is shown exactly when everything is read. */
  ghost predicate Monotone(written: seq<Write>) {
    && (forall i, j :: 0 <= i < j < |written| && written[i].Overall? ==>
          written[j].Overall? && NotAfter(written[i].fields, written[j].fields))
    && (forall i :: 0 <= i < |written| && written[i].Overall? ==>
          && written[i].fields.done <= written[i].fields.total
          && (written[i].fields.finalizing <==> written[i].fields.done == written[i].fields.total))
  }

  // ---- what should be shown ---------------------------------------------------------

  // A progress line with the drive named last before it, and what the storage would
  // answer when asked for the guest's total, if it answers.
  datatype Report = Report(drive: Option<string>, read: nat, size: Option<nat>)

  ghost predicate Begins(rs: seq<Report>)
    requires rs != []
  {
    |rs| == 1 || rs[|rs| - 2].drive != rs[|rs| - 1].drive
  }

  /** How many reports at the end are for the same drive. */
  ghost function Streak(rs: seq<Report>): (n: nat)
    requires rs != []
    ensures 1 <= n <= |rs|
  {
    if Begins(rs) then 1 else Streak(rs[..|rs| - 1]) + 1
  }

  ghost function MaxRead(rs: seq<Report>): nat {
    if rs == [] then 0
    else
      var m := MaxRead(rs[..|rs| - 1]);
      if m < rs[|rs| - 1].read then rs[|rs| - 1].read else m
  }

  /** The reports for the current drive, and those before them. */
  ghost function Current(rs: seq<Report>): seq<Report>
    requires rs != []
  {
    rs[|rs| - Streak(rs)..]
  }

  ghost function Earlier(rs: seq<Report>): seq<Report>
    requires rs != []
  {
    rs[..|rs| - Streak(rs)]
  }

  /** Bytes read over all disks: the highest position of each, one disk after the other.
      Nothing counts before a drive is named. */
  ghost function BytesRead(rs: seq<Report>): nat
    decreases |rs|
  {
    if rs == [] || rs[|rs| - 1].drive.None? then 0 else BytesRead(Earlier(rs)) + MaxRead(Current(rs))
  }

  /** The largest total the storage answered at the start of a disk. */
  ghost function LargestSize(rs: seq<Report>): nat {
    if rs == [] then 0
    else
      var m, last := LargestSize(rs[..|rs| - 1]), rs[|rs| - 1];
      if last.drive.Some? && Begins(rs) && last.size.Some? && last.size.value > m then last.size.value else m
  }

  function Known(size: nat): Option<nat> {
    if size > 0 then Some(size) else None
  }

  /** What is written after the last of `rs`. */
  ghost function Shown(rs: seq<Report>): Write
    requires rs != []
  {
    var fields := OverallFields(BytesRead(rs), Known(LargestSize(rs)));
    if rs[|rs| - 1].drive.Some? && fields.Some? then Overall(fields.value) else Raw
  }

  ghost predicate ShowsAll(rs: seq<Report>, written: seq<Write>) {
    |written| == |rs| && forall k :: 0 <= k < |rs| ==> written[k] == Shown(rs[..k + 1])
  }

  lemma {:induction false} SameDrive(rs: seq<Report>, r: Report)
    requires rs != [] && rs[|rs| - 1].drive == r.drive
    ensures Earlier(rs + [r]) == Earlier(rs) && Current(rs + [r]) == Current(rs) + [r]
  {
    assert (rs + [r])[..|rs|] == rs;
  }

  lemma {:induction false} OtherDrive(rs: seq<Report>, r: Report)
    requires rs == [] || rs[|rs| - 1].drive != r.drive
    ensures Earlier(rs + [r]) == rs && Current(rs + [r]) == [r]
  {
    assert (rs + [r])[..|rs|] == rs;
  }

  lemma {:induction false} MaxReadStep(rs: seq<Report>, r: Report)
    ensures MaxRead(rs + [r]) == Max(MaxRead(rs), r.read)
    ensures MaxRead([r]) == r.read
  {
    assert (rs + [r])[..|rs|] == rs && [r][..0] == [];
  }

  lemma {:induction false} LargestSizeStep(rs: seq<Report>, r: Report)
    ensures LargestSize(rs + [r]) ==
      if r.drive.Some? && (rs == [] || rs[|rs| - 1].drive != r.drive) && r.size.Some? && r.size.value > LargestSize(rs)
      then r.size.value else LargestSize(rs)
  {
    assert (rs + [r])[..|rs|] == rs;
  }

  lemma {:induction false} ShowsStep(rs: seq<Report>, written: seq<Write>, r: Report)
    requires ShowsAll(rs, written)
    ensures ShowsAll(rs + [r], written + [Shown(rs + [r])])
  {
    var all := rs + [r];
    assert all[..|rs| + 1] == all;
    forall k | 0 <= k < |rs| ensures written[k] == Shown(all[..k + 1]) {
      assert all[..k + 1] == rs[..k + 1];
    }
  }

  /** The updater's fields are what the reports so far amount to. */
  ghost predicate Follows(rs: seq<Report>, base: nat, cur: nat, drive: Option<string>, total: Option<nat>) {
    && total == Known(LargestSize(rs))
    && (if rs == [] then base == 0 && cur == 0 && drive.None?
        else drive == rs[|rs| - 1].drive && base == BytesRead(Earlier(rs)) && cur == MaxRead(Current(rs)))
    && (drive.None? ==> base == 0)
  }

  function Max(a: nat, b: nat): nat {
    if a < b then b else a
  }

  /** A report for the same drive moves its position .. */
  lemma {:induction false} FollowsSame(rs: seq<Report>, base: nat, cur: nat, drive: Option<string>, total: Option<nat>, r: Report)
    requires Follows(rs, base, cur, drive, total) && r.drive == drive
    ensures Follows(rs + [r], base, Max(cur, r.read), drive, total)
  {
    hide Earlier, Current, MaxRead, LargestSize, BytesRead;
    LargestSizeStep(rs, r);
    if rs == [] {
      OtherDrive(rs, r);
      MaxReadStep(rs, r);
      NothingRead();
    } else {
      SameDrive(rs, r);
      MaxReadStep(Current(rs), r);
    }
  }

  lemma NothingRead()
    ensures BytesRead([]) == 0
  {
  }

  /** .. and another drive starts from zero. */
  lemma {:induction false} FollowsOther(rs: seq<Report>, base: nat, cur: nat, drive: Option<string>, total: Option<nat>, r: Report)
    requires Follows(rs, base, cur, drive, total) && r.drive.Some? && r.drive != drive
    ensures Follows(rs + [r], if drive.Some? then base + cur else base, r.read, r.drive,
                    if r.size.Some? then Known(Max(if total.Some? then total.value else 0, r.size.value)) else total)
  {
    BytesOf(rs);
    hide Earlier, Current, MaxRead, LargestSize, BytesRead;
    LargestSizeStep(rs, r);
    OtherDrive(rs, r);
    MaxReadStep(rs, r);
  }

  lemma BytesOf(rs: seq<Report>)
    ensures BytesRead(rs) == if rs == [] || rs[|rs| - 1].drive.None? then 0 else BytesRead(Earlier(rs)) + MaxRead(Current(rs))
  {
  }

  lemma ShownFollows(rs: seq<Report>, base: nat, cur: nat, drive: Option<string>, total: Option<nat>)
    requires rs != [] && Follows(rs, base, cur, drive, total)
    ensures var fields := if drive.Some? then OverallFields(base + cur, total) else None;
      Shown(rs) == if fields.Some? then Overall(fields.value) else Raw
  {
  }

  // ---- the updater ------------------------------------------------------------------

  /** The state of the updater, and of the loop that tags lines with the current drive. */
  class Updater {
    var doneBase: nat
    var curRead: nat
    var curDrive: Option<string>
    var total: Option<nat>
    var lineDrive: Option<string> // _poll_task's cur_drive
    var written: seq<Write>       // the updates of the run row, in order
    ghost var reports: seq<Report>

    ghost predicate Valid() reads this {
      && Monotone(written)
      && (curDrive.Some? ==> lineDrive.Some?)
      && (total.Some? ==> total.value > 0 && curDrive.Some?)
      && AllReached(written, doneBase + curRead, total)
      && ShowsAll(reports, written) && Follows(reports, doneBase, curRead, curDrive, total)
    }

    constructor ()
      ensures Valid() && reports == [] && lineDrive == None
    {
      doneBase, curRead, curDrive, total, lineDrive, written, reports := 0, 0, None, None, None, [], [];
    }

    /** One log line: which drive starts in it, and the bytes read it reports. */
    method Line(drive: Option<string>, read: Option<nat>, size: Option<nat>)
      requires Valid()
      modifies this
      ensures Valid() && lineDrive == (if drive.Some? then drive else old(lineDrive))
      ensures reports == old(reports) + if read.Some? then [Report(lineDrive, read.value, size)] else []
    {
      if drive.Some? {
        lineDrive := drive;
      }
      if read.Some? {
        OnProgress(lineDrive, read.value, size);
      }
    }

    /** Writes what should be shown after this report, and never goes back. */
    method OnProgress(drive: Option<string>, read: nat, size: Option<nat>)
      requires Valid() && drive == lineDrive
      modifies `doneBase, `curRead, `curDrive, `total, `written, `reports
      ensures Valid() && reports == old(reports) + [Report(drive, read, size)]
    {
      hide Monotone, AllReached, OverallFields, ShowsAll, Follows, Shown;
      ghost var r := Report(drive, read, size);
      if drive == curDrive {
        FollowsSame(reports, doneBase, curRead, curDrive, total, r);
      } else {
        FollowsOther(reports, doneBase, curRead, curDrive, total, r);
      }
      ShowsStep(reports, written, r);
      if drive.Some? && drive != curDrive {
        if curDrive.Some? {
          doneBase := doneBase + curRead;
        }
        curDrive, curRead := drive, 0;
        if size.Some? {
          total := Known(Max(if total.Some? then total.value else 0, size.value));
        }
      }
      if read > curRead {
        curRead := read;
      }
      ShownFollows(reports + [r], doneBase, curRead, curDrive, total);
      var fields := if drive.Some? then OverallFields(doneBase + curRead, total) else None;
      StepMonotone(written, old(doneBase + curRead), doneBase + curRead, old(total), total, fields);
      written := written + [if fields.Some? then Overall(fields.value) else Raw];
      reports := reports + [r];
    }
  }

  /** `f` lies at or before the current state. */
  ghost predicate Reached(f: Fields, sum: nat, total: Option<nat>) {
    && total.Some? && 0 < f.total <= total.value && f.done <= f.total && f.done <= sum
    && f.percent == Percent(f.done, f.total)
  }

  ghost predicate AllReached(written: seq<Write>, sum: nat, total: Option<nat>) {
    forall i :: 0 <= i < |written| && written[i].Overall? ==> Reached(written[i].fields, sum, total)
  }

  lemma StepMonotone(written: seq<Write>, sum: nat, sum': nat, total: Option<nat>, total': Option<nat>, fields: Option<Fields>)
    requires Monotone(written)
    requires AllReached(written, sum, total)
    requires total.Some? ==> sum <= sum' && total'.Some? && total.value <= total'.value
    requires total'.Some? ==> total'.value > 0 && fields == OverallFields(sum', total')
    requires total'.None? ==> fields == None || fields == OverallFields(sum', total')
    ensures var now := written + [if fields.Some? then Overall(fields.value) else Raw];
      Monotone(now) && AllReached(now, sum', total')
  {
    if total'.Some? {
      var g := fields.value;
      FullPercent(g.done, g.total);
      forall i | 0 <= i < |written| && written[i].Overall? ensures NotAfter(written[i].fields, g) {
        var f := written[i].fields;
        if f.total == g.total {
          PercentMonotone(f.done, g.done, g.total);
        }
      }
    }
  }

  datatype Entry = Entry(drive: Option<string>, read: Option<nat>, size: Option<nat>)

  /** The drive named last, if any. */
  ghost function LastDrive(entries: seq<Entry>): Option<string> {
    if entries == [] then None
    else if entries[|entries| - 1].drive.Some? then entries[|entries| - 1].drive
    else LastDrive(entries[..|entries| - 1])
  }

  ghost function Reports(entries: seq<Entry>): seq<Report> {
    if entries == [] then []
    else
      var last := entries[|entries| - 1];
      Reports(entries[..|entries| - 1])
      + if last.read.Some? then [Report(LastDrive(entries), last.read.value, last.size)] else []
  }

  /** A whole task log, over any number of disks, sizes and failed size queries: after
      every report what is shown is the bytes read over all disks, and it never goes back. */
  method Consume(entries: seq<Entry>) returns (written: seq<Write>)
    ensures ShowsAll(Reports(entries), written) && Monotone(written)
  {
    hide Monotone, ShowsAll;
    var u := new Updater();
    for k := 0 to |entries|
      invariant fresh(u) && u.Valid() && u.reports == Reports(entries[..k]) && u.lineDrive == LastDrive(entries[..k])
    {
      u.Line(entries[k].drive, entries[k].read, entries[k].size);
      assert entries[..k + 1][..k] == entries[..k];
    }
    assert entries[..|entries|] == entries;
    return u.written;
  }
}
