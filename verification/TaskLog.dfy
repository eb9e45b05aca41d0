/** Reading a growing task log incrementally (app/services/proxmox_progress.py). A
    line is given by whether it starts a VM's section, and by its text. */
module TaskLog {
  import opened Wrappers

  datatype Line = Line(start: bool, text: string)

  const LOG_PAGE := 1000

  // What PVE answers for a log without any line.
  const NO_CONTENT := Line(false, "no content")

  predicate HasStart(lines: seq<Line>) {
    lines != [] && (lines[|lines| - 1].start || HasStart(lines[..|lines| - 1]))
  }

  /** `_current_vm_log`, scanning from the end: the suffix from the last section
      start, or all lines when there is none. */
  function CurrentVmLog(lines: seq<Line>): seq<Line> {
    if lines == [] then []
    else
      var last := lines[|lines| - 1];
      if last.start then [last] else CurrentVmLog(lines[..|lines| - 1]) + [last]
  }

  lemma {:induction false} HasStartExact(lines: seq<Line>)
    ensures HasStart(lines) <==> exists k :: 0 <= k < |lines| && lines[k].start
  {
    if lines != [] {
      var before := lines[..|lines| - 1];
      HasStartExact(before);
      if k :| 0 <= k < |lines| && lines[k].start && k < |lines| - 1 {
        assert before[k].start;
      }
    }
  }

  /** It is a suffix, it starts with a section start if there is one, and no later
      line starts a section. */
  lemma {:induction false} CurrentIsLastSection(lines: seq<Line>)
    ensures var r := CurrentVmLog(lines);
      && |r| <= |lines| && (forall k :: 0 <= k < |r| ==> r[k] == lines[|lines| - |r| + k])
      && (HasStart(lines) ==> r != [] && r[0].start)
      && (!HasStart(lines) ==> |r| == |lines|)
      && (forall k :: 0 < k < |r| ==> !r[k].start)
  {
    if lines != [] {
      var before, last := lines[..|lines| - 1], lines[|lines| - 1];
      var r := CurrentVmLog(before);
      CurrentIsLastSection(before);
      if !last.start {
        forall k | 0 <= k < |r| + 1
          ensures (r + [last])[k] == lines[|lines| - |r| - 1 + k] && (0 < k ==> !(r + [last])[k].start)
        {
          assert k < |r| ==> r[k] == before[|before| - |r| + k];
        }
      }
    }
  }

  /** The section of a longer log needs only the section so far and the new lines. */
  lemma {:induction false} CurrentOfConcat(a: seq<Line>, b: seq<Line>)
    ensures CurrentVmLog(a + b) == if HasStart(b) then CurrentVmLog(b) else CurrentVmLog(a) + b
  {
    if b == [] {
      assert a + b == a;
    } else {
      var b', last := b[..|b| - 1], b[|b| - 1];
      assert (a + b)[..|a + b| - 1] == a + b' && b == b' + [last];
      CurrentOfConcat(a, b');
      if !last.start && !HasStart(b') {
        assert CurrentVmLog(a) + b' + [last] == CurrentVmLog(a) + b;
      }
    }
  }

  datatype Log = Log(read: nat, section: seq<Line>)

  /** `_with_lines` */
  function WithLines(state: Log, lines: seq<Line>, read: nat): Log {
    if HasStart(lines) then Log(read, CurrentVmLog(lines)) else Log(read, state.section + lines)
  }

  /** The cached section is that of the first `read` lines of the log. */
  ghost predicate UpToDate(log: seq<Line>, state: Log) {
    state.read <= |log| && state.section == CurrentVmLog(log[..state.read])
  }

  lemma {:induction false} AppendKeepsUpToDate(log: seq<Line>, state: Log, read: nat)
    requires UpToDate(log, state) && state.read <= read <= |log|
    ensures UpToDate(log, WithLines(state, log[state.read..read], read))
  {
    CurrentOfConcat(log[..state.read], log[state.read..read]);
    assert log[..state.read] + log[state.read..read] == log[..read];
  }

  /** Lines before a section start do not matter, so they need not be read. */
  lemma {:induction false} TailIsEnough(log: seq<Line>, state: Log, from: nat, read: nat)
    requires from <= read <= |log| && HasStart(log[from..read])
    ensures UpToDate(log, WithLines(state, log[from..read], read))
  {
    CurrentOfConcat(log[..from], log[from..read]);
    assert log[..from] + log[from..read] == log[..read];
  }

  // How the server behaves on one call: whether it reports the line count, and how
  // many lines the task writes before the next call.
  datatype Answer = Answer(withTotal: bool, growth: nat)

  // A call as the server saw it: how many lines there were, and whether it reported that.
  datatype Call = Call(len: nat, reported: bool)

  /** PVE's view of one task: `log` is what the task will have written in the end,
      `len` how much of it is there now. Nothing already written changes. */
  class TaskServer {
    const log: seq<Line>
    var len: nat
    var script: seq<Answer>
    ghost var calls: seq<Call>

    ghost predicate Valid() reads this {
      len <= |log| && NO_CONTENT !in log
    }

    /** Every call from now on reports the line count. */
    ghost predicate AlwaysReports() reads this {
      forall a :: a in script ==> a.withTotal
    }

    constructor (log: seq<Line>, len: nat, script: seq<Answer>)
      requires len <= |log| && NO_CONTENT !in log
      ensures Valid() && this.log == log && this.len == len && this.script == script && calls == []
    {
      this.log, this.len, this.script, calls := log, len, script, [];
    }

    /** Does the next call report a total? */
    predicate NextReports() reads this {
      script == [] || script[0].withTotal
    }

    function LenAfterNext(): nat reads this {
      if script == [] then len else if len + script[0].growth <= |log| then len + script[0].growth else |log|
    }

    predicate SecondReports() reads this {
      |script| <= 1 || script[1].withTotal
    }

    /** The total as PVE counts it: the stand-in for an empty log counts as a line. */
    function Reported(): nat reads this {
      if len == 0 then 1 else len
    }

    function Page(start: nat, limit: nat): seq<Line>
      requires len <= |log|
      reads this
    {
      if len == 0 then [NO_CONTENT]
      else if start >= len then []
      else log[start..if start + limit < len then start + limit else len]
    }

    method GetPage(start: nat, limit: nat) returns (page: seq<Line>, total: Option<nat>)
      requires Valid()
      modifies this
      ensures Valid() && len == old(LenAfterNext()) && len >= old(len)
      ensures page == old(Page(start, limit))
      ensures total == if old(NextReports()) then Some(old(Reported())) else None
      ensures NextReports() == old(SecondReports())
      ensures old(AlwaysReports()) ==> AlwaysReports()
      ensures calls == old(calls) + [Call(old(len), old(NextReports()))]
    {
      calls := calls + [Call(len, NextReports())];
      page := Page(start, limit);
      total := if NextReports() then Some(Reported()) else None;
      len := LenAfterNext();
      script := if script == [] then [] else script[1..];
    }
  }

  /** The state is that of lines the log has now. */
  ghost predicate InStep(server: TaskServer, state: Log) reads server {
    state.read <= server.len && UpToDate(server.log, state)
  }

  /** The log is shorter than what was read, whatever was read. */
  ghost predicate Shrunk(server: TaskServer, state: Log) reads server {
    server.len < state.read
  }

  /** .. and the code can see it: only if a total is reported, and an empty log counts
      as one line. */
  ghost predicate ShrinkShows(server: TaskServer, state: Log) reads server {
    server.NextReports() && server.Reported() < state.read
  }

  /** The stand-in of an empty log is taken for a line when no total tells them apart. */
  ghost predicate StandInRead(server: TaskServer, state: Log) reads server {
    if ShrinkShows(server, state) then server.LenAfterNext() == 0 && !server.SecondReports()
    else server.len == 0 && !server.NextReports()
  }

  /** An unnoticed shrink keeps the old section. That is right only if the log, once it
      has grown again, reads as it did before. */
  ghost predicate GrowsBack(server: TaskServer, state: Log) reads server {
    state.read <= server.LenAfterNext() && UpToDate(server.log, state)
  }

  /** `_read_task_log`, for a log that only grew and for every log that shrank. The
      cached section is that of lines read exactly when the stand-in was not read as a
      line and a shrink could be seen; when a total is given, everything up to it has
      been read. */
  method ReadTaskLog(server: TaskServer, state0: Log) returns (state: Log)
    requires server.Valid() && (InStep(server, state0) || Shrunk(server, state0))
    modifies server
    ensures server.Valid() && old(server.len) <= server.len && (old(server.AlwaysReports()) ==> server.AlwaysReports())
    ensures old(InStep(server, state0) || ShrinkShows(server, state0)) ==> (InStep(server, state) <==> !old(StandInRead(server, state0)))
    ensures old(Shrunk(server, state0) && !ShrinkShows(server, state0)) ==>
      (InStep(server, state) <==> old(GrowsBack(server, state0) && !StandInRead(server, state0)))
    ensures old(Shrunk(server, state0) && !ShrinkShows(server, state0) && !StandInRead(server, state0)) ==> state == state0
    ensures old(InStep(server, state0) && !StandInRead(server, state0)) ==> state.read >= old(server.len)
    ensures old(InStep(server, state0) && server.NextReports()) ==> state.read == old(server.len)
    ensures old(ShrinkShows(server, state0) && server.SecondReports()) ==> state.read == old(server.LenAfterNext())
    ensures old(server.calls) + [Call(old(server.len), old(server.NextReports()))] <= server.calls
  {
    hide HasStart, CurrentVmLog, UpToDate, WithLines;
    state := state0;
    ghost var part := server.len >= state0.read && server.len > 0;
    var lines, total := server.GetPage(state.read, LOG_PAGE);
    if total.Some? && total.value < state.read {
      state := Log(0, []);
      NothingRead(server.log);
      part := server.len > 0;
      lines, total := server.GetPage(0, LOG_PAGE);
    }
    StandInOut(server.log, state, lines);
    NothingNew(state);
    state := ReadRest(server, state, lines, total, part);
  }

  /** The rest after the first page: the next lines of the log (`part`), or else the
      stand-in of an empty log, or nothing of one that has become shorter. */
  method ReadRest(server: TaskServer, state: Log, lines: seq<Line>, total: Option<nat>, ghost part: bool) returns (r: Log)
    requires server.Valid() && |lines| <= LOG_PAGE && (part ==> IsPart(server, state, lines) && (total.Some? ==> IsTotal(server, state, lines, total.value)))
    requires !part ==> (lines == [NO_CONTENT] && (total.Some? ==> total.value == 1)) || (lines == [] && total.None?)
    modifies server
    ensures server.Valid() && old(server.len) <= server.len && (old(server.AlwaysReports()) ==> server.AlwaysReports())
    ensures old(server.calls) <= server.calls
    ensures !part ==> server.len == old(server.len) && r == if total.Some? then state else WithLines(state, lines, state.read + |lines|)
    ensures part ==> UpToDate(server.log, r) && state.read + |lines| <= r.read <= server.len
    ensures part && total.Some? ==> r.read == total.value
    ensures part && total.None? && |lines| == LOG_PAGE ==> r.read >= old(server.len)
  {
    hide HasStart, CurrentVmLog, UpToDate, WithLines;
    assert part && lines != [] ==> lines[0] in server.log;
    if total.None? {
      r := ReadOn(server, state, lines);
      return;
    }
    if total.value == 1 && lines == [NO_CONTENT] {
      return state;
    }
    r := ReadTail(server, state, lines, total.value);
  }

  /** The page goes up to the reported total, or is full. */
  ghost predicate IsTotal(server: TaskServer, state: Log, lines: seq<Line>, total: nat) reads server {
    && server.Valid() && UpToDate(server.log, state) && 0 < total <= server.len && state.read <= total
    && lines == server.log[state.read..if state.read + LOG_PAGE < total then state.read + LOG_PAGE else total]
  }

  lemma StandInOut(log: seq<Line>, state: Log, lines: seq<Line>)
    requires NO_CONTENT !in log
    ensures lines == [NO_CONTENT] ==> !UpToDate(log, WithLines(state, lines, state.read + |lines|))
  {
    if lines == [NO_CONTENT] {
      StandInStays(state, lines);
      StandInIsNoPart(log, WithLines(state, lines, state.read + |lines|));
    }
  }

  /** Without a line count: read on page by page until one is not full. */
  method ReadOn(server: TaskServer, state: Log, first: seq<Line>) returns (r: Log)
    requires server.Valid() && |first| <= LOG_PAGE && (|first| == LOG_PAGE ==> IsPart(server, state, first))
    modifies server
    ensures server.Valid() && old(server.len) <= server.len && (old(server.AlwaysReports()) ==> server.AlwaysReports())
    ensures |first| < LOG_PAGE ==> r == WithLines(state, first, state.read + |first|) && server.len == old(server.len)
    ensures old(server.calls) <= server.calls
    ensures old(IsPart(server, state, first)) ==> UpToDate(server.log, r) && state.read + |first| <= r.read <= server.len
    ensures old(IsPart(server, state, first)) && |first| == LOG_PAGE ==> r.read >= old(server.len)
  {
    hide HasStart, CurrentVmLog, UpToDate;
    ghost var full, part, len0, log := |first| == LOG_PAGE, IsPart(server, state, first), server.len, server.log;
    var lines, page := first, first;
    while |page| == LOG_PAGE
      invariant server.Valid() && len0 <= server.len && (old(server.AlwaysReports()) ==> server.AlwaysReports())
      invariant old(server.calls) <= server.calls && (!full ==> page == lines == first && server.len == len0)
      invariant full ==> state.read + |lines| <= server.len && lines == log[state.read..state.read + |lines|] && |first| <= |lines|
      invariant full && |page| != LOG_PAGE ==> state.read + |lines| >= len0
      decreases |log| - state.read - |lines|, |page|
    {
      var total;
      page, total := server.GetPage(state.read + |lines|, LOG_PAGE);
      NextLines(log, state.read, lines, page);
      lines := lines + page;
    }
    r := WithLines(state, lines, state.read + |lines|);
    if part {
      AppendKeepsUpToDate(log, state, state.read + |lines|);
    }
  }

  lemma NextLines(log: seq<Line>, read: nat, lines: seq<Line>, page: seq<Line>)
    requires read + |lines| + |page| <= |log| && lines == log[read..read + |lines|]
    requires page == log[read + |lines|..read + |lines| + |page|]
    ensures lines + page == log[read..read + |lines + page|]
  {
  }

  /** `lines` are the lines of the log that follow those already read. */
  ghost predicate IsPart(server: TaskServer, state: Log, lines: seq<Line>) reads server {
    && server.Valid() && UpToDate(server.log, state) && server.len > 0
    && state.read + |lines| <= server.len && lines == server.log[state.read..state.read + |lines|]
  }

  /** More new lines than one page: read back from the end to the last section start;
      what is skipped belongs to sections that are over. */
  method ReadTail(server: TaskServer, state: Log, lines: seq<Line>, total: nat) returns (r: Log)
    requires IsTotal(server, state, lines, total)
    modifies server
    ensures server.Valid() && old(server.len) <= server.len && (old(server.AlwaysReports()) ==> server.AlwaysReports())
    ensures UpToDate(server.log, r) && r.read == total && old(server.calls) <= server.calls
  {
    hide HasStart, CurrentVmLog, UpToDate;
    ghost var log := server.log;
    var floor := state.read + |lines|;
    if total <= floor {
      AppendKeepsUpToDate(log, state, total);
      return WithLines(state, lines, floor);
    }
    var tail: seq<Line> := [];
    var end := total;
    while end > floor
      invariant floor <= end <= total <= server.len && server.Valid() && old(server.len) <= server.len
      invariant old(server.AlwaysReports()) ==> server.AlwaysReports()
      invariant tail == log[end..total] && old(server.calls) <= server.calls
    {
      var start := if end - LOG_PAGE > floor then end - LOG_PAGE else floor;
      var page, t := server.GetPage(start, end - start);
      assert page == log[start..end];
      tail := page + tail;
      if HasStart(page) {
        assert log[start..end] + log[end..total] == log[start..total];
        StartInConcat(page, log[end..total]);
        TailIsEnough(log, state, start, total);
        return WithLines(state, tail, total);
      }
      end := start;
    }
    assert lines + tail == log[state.read..total];
    AppendKeepsUpToDate(log, state, total);
    return WithLines(state, lines + tail, total);
  }

  lemma {:induction false} StartInConcat(a: seq<Line>, b: seq<Line>)
    requires HasStart(a)
    ensures HasStart(a + b)
  {
    if b == [] {
      assert a + b == a;
    } else {
      assert (a + b)[..|a + b| - 1] == a + b[..|b| - 1];
      StartInConcat(a, b[..|b| - 1]);
    }
  }

  lemma {:induction false} NothingRead(log: seq<Line>)
    ensures UpToDate(log, Log(0, []))
  {
  }

  lemma NothingNew(state: Log)
    ensures WithLines(state, [], state.read + 0) == state
  {
    assert state.section + [] == state.section;
  }

  lemma {:induction false} StandInStays(state: Log, lines: seq<Line>)
    ensures lines == [NO_CONTENT] ==> NO_CONTENT in WithLines(state, lines, state.read + |lines|).section
  {
    if lines == [NO_CONTENT] {
      assert !HasStart(lines) && (state.section + lines)[|state.section|] == NO_CONTENT;
    }
  }

  lemma {:induction false} StandInIsNoPart(log: seq<Line>, state: Log)
    requires NO_CONTENT !in log && NO_CONTENT in state.section
    ensures !UpToDate(log, state)
  {
    if state.read <= |log| {
      CurrentIsLastSection(log[..state.read]);
      assert forall l :: l in CurrentVmLog(log[..state.read]) ==> l in log;
    }
  }

  // ---- over any run of refreshes ---------------------------------------------

  // One refresh: its calls, the state it left, and what its first call found.
  datatype Refresh = Refresh(from': nat, till: nat, first: Call, state: Log)

  /** A refresh leaves the section that reading the whole log would give; it has read what
      was there, exactly that when a total was reported (the stand-in of an empty log is no
      line). */
  ghost predicate RefreshOk(log: seq<Line>, calls: seq<Call>, r: Refresh) {
    && r.from' < r.till <= |calls| && calls[r.from'] == r.first
    && UpToDate(log, r.state) && r.state.read >= r.first.len && (r.first.reported ==> r.state.read == r.first.len)
  }

  /** The refreshes make all calls, one after the other. */
  ghost predicate HistoryOk(log: seq<Line>, calls: seq<Call>, start: nat, history: seq<Refresh>) {
    && (forall k :: 0 <= k < |history| ==> RefreshOk(log, calls, history[k]))
    && (forall k :: 0 < k < |history| ==> history[k].from' == history[k - 1].till)
    && |calls| == (if history == [] then start else history[|history| - 1].till)
    && (history != [] ==> history[0].from' == start)
  }

  /** One task followed from its first line on, over any number of refreshes: unless it
      is empty while no total is reported, the cache is always what re-reading would give. */
  method Follow(server: TaskServer, refreshes: nat) returns (state: Log, ghost history: seq<Refresh>)
    requires server.Valid() && (server.len > 0 || server.AlwaysReports())
    modifies server
    ensures server.Valid() && InStep(server, state)
    ensures |history| == refreshes && (refreshes > 0 ==> state == history[refreshes - 1].state)
    ensures old(server.calls) <= server.calls && HistoryOk(server.log, server.calls, |old(server.calls)|, history)
    ensures refreshes > 0 ==> history[0].first == Call(old(server.len), old(server.NextReports()))
  {
    hide HasStart, CurrentVmLog, UpToDate, HistoryOk;
    state, history := Log(0, []), [];
    NothingRead(server.log);
    NoHistory(server.log, server.calls);
    for k := 0 to refreshes
      invariant server.Valid() && (server.len > 0 || server.AlwaysReports())
      invariant InStep(server, state) && |history| == k && (k > 0 ==> state == history[k - 1].state)
      invariant old(server.calls) <= server.calls && HistoryOk(server.log, server.calls, |old(server.calls)|, history)
      invariant k == 0 ==> server.calls == old(server.calls) && server.len == old(server.len) && server.NextReports() == old(server.NextReports())
      invariant k > 0 ==> history[0].first == Call(old(server.len), old(server.NextReports()))
    {
      ghost var calls, first := server.calls, Call(server.len, server.NextReports());
      state := ReadTaskLog(server, state);
      ghost var r := Refresh(|calls|, |server.calls|, first, state);
      HistoryMore(server.log, calls, server.calls, |old(server.calls)|, history, r);
      history := history + [r];
    }
  }

  lemma NoHistory(log: seq<Line>, calls: seq<Call>)
    ensures HistoryOk(log, calls, |calls|, [])
  {
  }

  lemma HistoryMore(log: seq<Line>, before: seq<Call>, calls: seq<Call>, start: nat, history: seq<Refresh>, r: Refresh)
    requires HistoryOk(log, before, start, history) && before <= calls && RefreshOk(log, calls, r)
    requires r.from' == |before| && r.till == |calls|
    ensures HistoryOk(log, calls, start, history + [r])
  {
    hide UpToDate;
    var all := history + [r];
    forall k | 0 <= k < |all| ensures RefreshOk(log, calls, all[k]) {
      assert k < |history| ==> RefreshOk(log, before, history[k]) && all[k] == history[k];
    }
  }
}
