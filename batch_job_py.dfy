/** The batch worker's job record: an id, a status and a progress percentage, advanced by the
    worker as training proceeds. */
module BatchWorkerJob {
  import opened Js
  import opened JobStatuses

  /** How a call ends: normally, or by raising ValueError with a message. */
  datatype Outcome = Done | ValueError(message: string)

  const InvalidStatus: string := "Invalid job status value."
  const InvalidProgress: string := "Invalid progress value."

  /** The status `next` moves to: the one after NotStarted, PreProcessing or Training; none after
      Success or Failure. */
  function NextStatus(s: JobStatus): (r: Option<JobStatus>)
    ensures r.Some? <==> s in {NotStarted, PreProcessing, Training}
    ensures r.Some? ==> r.value.Ordinal() == s.Ordinal() + 1 && r.value != Failure
  {
    if s.Ordinal() < 3 then StatusOf(s.Ordinal() + 1) else None
  }

  /** The statuses `next` walks through from `s` until it raises. */
  function Walk(s: JobStatus): (r: seq<JobStatus>)
    ensures |r| >= 1 && r[0] == s
    ensures NextStatus(r[|r| - 1]).None?
    ensures forall i :: 0 <= i < |r| - 1 ==> NextStatus(r[i]) == Some(r[i + 1])
    decreases 5 - s.Ordinal()
  {
    match NextStatus(s)
    case None => [s]
    case Some(t) => [s] + Walk(t)
  }

  /** A new job advances NotStarted, PreProcessing, Training, Success, and no further: Failure is
      never reached by `next`. */
  lemma WalkFromStart()
    ensures Walk(NotStarted) == [NotStarted, PreProcessing, Training, Success]
  {
    assert Walk(Success) == [Success];
    assert Walk(Training) == [Training, Success];
    assert Walk(PreProcessing) == [PreProcessing, Training, Success];
  }

  class BatchJob {
    var id: string
    var jobStatus: JobStatus
    var progress: int

    constructor (id: string, jobStatus: JobStatus, progress: int)
      ensures this.id == id && this.jobStatus == jobStatus && this.progress == progress
    {
      this.id := id;
      this.jobStatus := jobStatus;
      this.progress := progress;
    }

    /** `next`: moves to the following status, or raises and changes nothing. Progress is never
        touched. */
    method Next() returns (r: Outcome)
      modifies this
      ensures NextStatus(old(jobStatus)).Some? ==> r == Done && jobStatus == NextStatus(old(jobStatus)).value
      ensures NextStatus(old(jobStatus)).None? ==> r == ValueError(InvalidStatus) && jobStatus == old(jobStatus)
      ensures progress == old(progress) && id == old(id)
    {
      if jobStatus.Ordinal() in [NotStarted.Ordinal(), PreProcessing.Ordinal(), Training.Ordinal()] {
        var next := StatusOf(jobStatus.Ordinal() + 1);
        jobStatus := next.value;
        r := Done;
      } else {
        r := ValueError(InvalidStatus);
      }
    }

    /** `makeProgress`: a value outside 0 .. 100 raises and changes nothing; otherwise progress
        becomes exactly that value. The status is never touched. */
    method MakeProgress(progress: int) returns (r: Outcome)
      modifies this
      ensures r == Done <==> 0 <= progress <= 100
      ensures r != Done ==> r == ValueError(InvalidProgress) && this.progress == old(this.progress)
      ensures r == Done ==> this.progress == progress
      ensures jobStatus == old(jobStatus) && id == old(id)
    {
      if progress < 0 || progress > 100 {
        r := ValueError(InvalidProgress);
      } else {
        this.progress := progress;
        r := Done;
      }
    }
  }
}
