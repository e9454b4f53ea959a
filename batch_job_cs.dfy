/** The service's job entity and its constructor, which starts a job for a document, optionally
    copying the request's settings from a template job. */
module ServiceBatchJob {
  import opened Js
  import opened JobStatuses

  /** A GUID, by its text. */
  type Guid = string

  const DefaultWindowSize: int := 5
  const DefaultExtentSize: int := 24

  /** `job?.WindowSize ?? 5` */
  function WindowSizeFor(templateWindow: Option<Option<int>>): (r: Option<int>)
    ensures templateWindow.Some? && templateWindow.value.Some? ==> r == templateWindow.value
    ensures !(templateWindow.Some? && templateWindow.value.Some?) ==> r == Some(DefaultWindowSize)
  {
    if templateWindow.Some? && templateWindow.value.Some? then templateWindow.value else Some(DefaultWindowSize)
  }

  /** `job?.ExtentSize ?? (jobType == CountingGridGeneration ? 24 : null)`: a size given by the
      template is kept; otherwise only a counting grid generation gets the default. */
  function ExtentSizeFor(jobType: JobType, templateExtent: Option<Option<int>>): (r: Option<int>)
    ensures r.None? <==> jobType != CountingGridGeneration && !(templateExtent.Some? && templateExtent.value.Some?)
    ensures templateExtent.Some? && templateExtent.value.Some? ==> r == templateExtent.value
    ensures r.Some? && !(templateExtent.Some? && templateExtent.value.Some?) ==> r == Some(DefaultExtentSize)
  {
    if templateExtent.Some? && templateExtent.value.Some? then templateExtent.value
    else if jobType == CountingGridGeneration then Some(DefaultExtentSize)
    else None
  }

  class BatchJob {
    var id: Guid
    var documentId: Guid
    var targetId: Option<Guid>
    var targetColumnName: Option<string>
    var progress: int
    var jobStatus: JobStatus
    var jobType: JobType
    var windowSize: Option<int>
    var extentSize: Option<int>
    var submitDateTime: int
    var finishDateTime: Option<int>
    var updateDateTime: int
    /** The settings object, by its serialized text. */
    var settings: Option<string>

    /** `BatchJob(documentId, job)`: a fresh id (`newId`) stands for `Guid.NewGuid()`, and the two
        reads of `DateTime.UtcNow` are two readings of the clock (`submitNow`, `updateNow`), which
        may differ. Progress and status always start over; the target, the type, the sizes and the
        settings come from the template when there is one. */
    constructor (documentId: Guid, job: BatchJob?, newId: Guid, submitNow: int, updateNow: int)
      ensures id == newId && this.documentId == documentId
      ensures progress == 0 && jobStatus == NotStarted
      ensures job == null ==> targetId == None && targetColumnName == None && settings == None
      ensures job != null ==> targetId == job.targetId && targetColumnName == job.targetColumnName
                              && settings == job.settings
      ensures jobType == if job == null then CountingGridGeneration else job.jobType
      ensures windowSize == WindowSizeFor(if job == null then None else Some(job.windowSize))
      ensures extentSize == ExtentSizeFor(jobType, if job == null then None else Some(job.extentSize))
      ensures submitDateTime == submitNow && updateDateTime == updateNow && finishDateTime == None
    {
      id := newId;
      this.documentId := documentId;
      targetId := if job == null then None else job.targetId;
      targetColumnName := if job == null then None else job.targetColumnName;
      progress := 0;
      jobStatus := NotStarted;
      var kind := if job == null then CountingGridGeneration else job.jobType;
      jobType := kind;
      var templateWindow := if job == null then None else Some(job.windowSize);
      windowSize := WindowSizeFor(templateWindow);
      var templateExtent := if job == null then None else Some(job.extentSize);
      extentSize := ExtentSizeFor(kind, templateExtent);
      settings := if job == null then None else job.settings;
      submitDateTime := submitNow;
      updateDateTime := updateNow;
      finishDateTime := None;
    }
  }
}
