/** The job board: the match-mode filter over the listings, the high-match mark, and
    the detail panel's lookup of the selected job. */
module JobsView {
  import opened Types

  datatype SkillMatch = SkillMatch(category: string, percent: int)

  datatype RecommendedSim = RecommendedSim(id: string, title: string, category: string)

  datatype Job = Job(
    id: string,
    title: string,
    roleType: string,
    institution: string,
    location: string,
    salary: string,
    postedDate: string,
    applicantsCount: int,
    description: string,
    requirements: seq<string>,
    preferred: seq<string>,
    skillsMatch: seq<SkillMatch>,
    recommendedSims: seq<RecommendedSim>,
    badges: seq<string>,
    matchScore: int)

  datatype MatchMode = SkillsMode | AllMode

  /** The location, specialty and role filter values. */
  datatype JobFilters = JobFilters(location: string, specialty: string, role: string)

  const SkillsThreshold := 60
  const HighMatchThreshold := 70

  predicate JobListed(job: Job, mode: MatchMode) {
    !(mode == SkillsMode && job.matchScore < SkillsThreshold)
  }

  /** The listed jobs, in order: in skills mode those matching at least 60, otherwise all. */
  function FilteredJobs(jobs: seq<Job>, mode: MatchMode): (r: seq<Job>)
    ensures IsSubsequence(r, jobs)
    ensures mode == SkillsMode ==> forall i :: 0 <= i < |r| ==> r[i].matchScore >= SkillsThreshold
    ensures mode == SkillsMode ==>
      forall i :: 0 <= i < |jobs| && jobs[i].matchScore >= SkillsThreshold ==> jobs[i] in r
    ensures mode == AllMode ==> r == jobs
  {
    var listed := (j: Job) => JobListed(j, mode);
    FilterIsSubsequence(jobs, listed);
    var r := Filter(jobs, listed);
    assert mode == AllMode ==> r == jobs by {
      if mode == AllMode {
        FilterKeepsAll(jobs, listed);
      }
    }
    r
  }

  predicate IsHighMatch(job: Job) {
    job.matchScore >= HighMatchThreshold
  }

  /** Every high-match job is listed in either mode, and switching to all jobs never
      hides one. */
  lemma HighMatchesAlwaysListed(jobs: seq<Job>, mode: MatchMode, i: int)
    requires 0 <= i < |jobs| && IsHighMatch(jobs[i])
    ensures jobs[i] in FilteredJobs(jobs, mode)
  {
  }

  /** The detail panel's job: the one whose id is selected, none while nothing is. */
  function SelectedJob(jobs: seq<Job>, selectedId: Option<string>): (r: Option<Job>)
    ensures selectedId.None? ==> r.None?
    ensures r.Some? ==> r.value in jobs && Some(r.value.id) == selectedId
    ensures selectedId.Some? && (exists i :: 0 <= i < |jobs| && jobs[i].id == selectedId.value) ==> r.Some?
  {
    if selectedId.None? then None else Find(jobs, (j: Job) => j.id == selectedId.value)
  }

  datatype BoardState = BoardState(selectedJobId: Option<string>, mode: MatchMode, filters: JobFilters)

  class JobBoard {
    var state: BoardState
    const jobs: seq<Job>

    constructor (jobs: seq<Job>)
      ensures state == BoardState(None, SkillsMode, JobFilters("Any", "All", "All")) && this.jobs == jobs
    {
      state := BoardState(None, SkillsMode, JobFilters("Any", "All", "All"));
      this.jobs := jobs;
    }

    function ShownJobs(): seq<Job>
      reads this
    {
      FilteredJobs(jobs, state.mode)
    }

    function DetailJob(): Option<Job>
      reads this
    {
      SelectedJob(jobs, state.selectedJobId)
    }

    method SelectJob(id: string)
      modifies this
      ensures state == old(state).(selectedJobId := Some(id))
    {
      state := state.(selectedJobId := Some(id));
    }

    method SetMatchMode(mode: MatchMode)
      modifies this
      ensures state == old(state).(mode := mode)
    {
      state := state.(mode := mode);
    }

    /** The filter values are stored, but the list does not depend on them. */
    method SetFilters(f: JobFilters)
      modifies this
      ensures state == old(state).(filters := f)
      ensures ShownJobs() == old(ShownJobs()) && DetailJob() == old(DetailJob())
    {
      state := state.(filters := f);
    }
  }
}
