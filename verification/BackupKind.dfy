/** Classifying guests by their PVE backup jobs: `infer_backup_kind_by_vmid` and the
    guest lists of jobs in app/services/proxmox.py. */
module BackupKind {
  import opened Wrappers

  datatype Kind = Daily | Weekly

  // One item of a comma-separated guest list; what is no number or range is junk.
  datatype Token = Single(n: int) | Range(lo: int, hi: int) | Junk

  // A job selects all guests or a list; `kind` is its schedule's class.
  datatype Job = Job(enabled: bool, kind: Kind, catchAll: bool, vmids: seq<Token>, exclude: seq<Token>)

  predicate Matches(t: Token, v: int) {
    match t
    case Single(n) => v == n
    case Range(lo, hi) => lo <= v <= hi
    case Junk => false
  }

  predicate Listed(tokens: seq<Token>, v: int) {
    exists t :: t in tokens && Matches(t, v)
  }

  /** range(lo, hi + 1) */
  function IdRange(lo: int, hi: int): (r: set<int>)
    ensures forall v :: v in r <==> lo <= v <= hi
    decreases hi - lo
  {
    if hi < lo then {} else {hi} + IdRange(lo, hi - 1)
  }

  /** `_parse_vmid_set` (and the list branch of `expand_job_vmids`) */
  method ParseVmidSet(tokens: seq<Token>) returns (r: set<int>)
    ensures forall v :: v in r <==> Listed(tokens, v)
  {
    r := {};
    for k := 0 to |tokens|
      invariant forall v :: v in r <==> Listed(tokens[..k], v)
    {
      ghost var before := r;
      match tokens[k] {
        case Single(n) => r := r + {n};
        case Range(lo, hi) => r := r + IdRange(lo, hi);
        case Junk =>
      }
      assert tokens[..k + 1] == tokens[..k] + [tokens[k]];
      forall v ensures v in r <==> Listed(tokens[..k + 1], v) {
        assert v in before <==> Listed(tokens[..k], v);
        assert v in r <==> v in before || Matches(tokens[k], v);
      }
    }
    assert tokens[..|tokens|] == tokens;
  }

  // ---- the rule ---------------------------------------------------------------

  ghost predicate Covers(j: Job, all: set<int>, v: int) {
    j.enabled && (if j.catchAll then v in all else Listed(j.vmids, v)) && !Listed(j.exclude, v)
  }

  /** Some job of this tier covers the guest. */
  ghost predicate Covered(jobs: seq<Job>, all: set<int>, v: int, catchAll: bool) {
    exists j :: j in jobs && j.catchAll == catchAll && Covers(j, all, v)
  }

  ghost predicate CoveredDaily(jobs: seq<Job>, all: set<int>, v: int, catchAll: bool) {
    exists j :: j in jobs && j.catchAll == catchAll && j.kind == Daily && Covers(j, all, v)
  }

  /** Specific jobs decide if any covers the guest, else catch-all jobs; daily wins. */
  ghost function Rule(jobs: seq<Job>, all: set<int>, v: int): Option<Kind> {
    if Covered(jobs, all, v, false) then Some(if CoveredDaily(jobs, all, v, false) then Daily else Weekly)
    else if Covered(jobs, all, v, true) then Some(if CoveredDaily(jobs, all, v, true) then Daily else Weekly)
    else None
  }

  function Get(m: map<int, Kind>, v: int): Option<Kind> {
    if v in m then Some(m[v]) else None
  }

  /** What one covering job does to a guest's entry. */
  function Update(entry: Option<Kind>, specific: bool, j: Job): Option<Kind> {
    if !j.catchAll then
      (if specific then (if j.kind == Daily then Some(Daily) else entry) else Some(j.kind))
    else if specific then entry
    else if j.kind == Daily || entry.None? then Some(j.kind) else entry
  }

  lemma RuleStep(jobs: seq<Job>, j: Job, all: set<int>, v: int)
    ensures Rule(jobs + [j], all, v)
         == if Covers(j, all, v) then Update(Rule(jobs, all, v), Covered(jobs, all, v, false), j) else Rule(jobs, all, v)
    ensures Covered(jobs + [j], all, v, false) <==> Covered(jobs, all, v, false) || (!j.catchAll && Covers(j, all, v))
  {
    assert forall x :: x in jobs + [j] <==> x in jobs || x == j;
    forall c ensures Covered(jobs + [j], all, v, c) <==> Covered(jobs, all, v, c) || (j.catchAll == c && Covers(j, all, v)) {}
    forall c ensures CoveredDaily(jobs + [j], all, v, c)
      <==> CoveredDaily(jobs, all, v, c) || (j.catchAll == c && j.kind == Daily && Covers(j, all, v)) {}
  }

  /** The job loop, in whatever order the jobs come, computes the rule. */
  method InferBackupKind(all: set<int>, jobs: seq<Job>) returns (result: map<int, Kind>)
    ensures forall v :: Get(result, v) == Rule(jobs, all, v)
  {
    result := map[];
    var specific: set<int> := {};
    for k := 0 to |jobs|
      invariant forall v :: Get(result, v) == Rule(jobs[..k], all, v)
      invariant forall v :: v in specific <==> Covered(jobs[..k], all, v, false)
    {
      var job := jobs[k];
      assert jobs[..k + 1] == jobs[..k] + [job];
      ghost var result0, specific0 := result, specific;
      if job.enabled {
        var vmids := all;
        if !job.catchAll {
          vmids := ParseVmidSet(job.vmids);
        }
        var excluded := ParseVmidSet(job.exclude);
        vmids := vmids - excluded;
        result, specific := Apply(result, specific, job, vmids);
        assert forall v :: v in vmids <==> Covers(job, all, v);
      }
      forall v ensures Get(result, v) == Rule(jobs[..k + 1], all, v) && (v in specific <==> Covered(jobs[..k + 1], all, v, false)) {
        RuleStep(jobs[..k], job, all, v);
        assert Get(result0, v) == Rule(jobs[..k], all, v);
        assert v in specific0 <==> Covered(jobs[..k], all, v, false);
      }
    }
    assert jobs[..|jobs|] == jobs;
  }

  /** The inner loop over a job's guests, in no particular order. */
  method Apply(result0: map<int, Kind>, specific0: set<int>, job: Job, vmids: set<int>)
    returns (result: map<int, Kind>, specific: set<int>)
    ensures forall v :: Get(result, v) == if v in vmids then Update(Get(result0, v), v in specific0, job) else Get(result0, v)
    ensures specific == specific0 + if job.catchAll then {} else vmids
  {
    result, specific := result0, specific0;
    var left := vmids;
    while left != {}
      invariant left <= vmids
      invariant forall v :: v in vmids - left ==> Get(result, v) == Update(Get(result0, v), v in specific0, job)
      invariant forall v :: v !in vmids - left ==> Get(result, v) == Get(result0, v)
      invariant specific == specific0 + if job.catchAll then {} else vmids - left
    {
      NotEmpty(left);
      var v :| v in left;
      assert Get(result, v) == Get(result0, v) && (v in specific <==> v in specific0);
      left := left - {v};
      if !job.catchAll {
        if v in specific {
          if job.kind == Daily {
            result := result[v := Daily];
          }
        } else {
          result := result[v := job.kind];
          specific := specific + {v};
        }
      } else if v !in specific {
        if job.kind == Daily || v !in result {
          result := result[v := job.kind];
        }
      }
    }
  }

  /** The result does not depend on the order of the jobs. */
  lemma OrderOfJobsIrrelevant(jobs: seq<Job>, jobs': seq<Job>, all: set<int>, v: int)
    requires multiset(jobs) == multiset(jobs')
    ensures Rule(jobs, all, v) == Rule(jobs', all, v)
  {
    forall j ensures j in jobs <==> j in jobs' {
      assert j in jobs <==> j in multiset(jobs);
      assert j in jobs' <==> j in multiset(jobs');
    }
  }
}
