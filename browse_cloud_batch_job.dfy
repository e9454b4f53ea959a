/** The client's labels for job statuses and job types. A status or type reaches these functions as
    a number, so a number outside the enumeration is possible and gets its own answer. */
module BrowseCloudBatchJob {
  import opened Js
  import opened JobStatuses

  const UnknownLabel: string := "Unknown"

  /** The label of each status. */
  function StatusLabel(s: JobStatus): string {
    match s
    case NotStarted => "Queued"
    case PreProcessing => "Pre-Processing"
    case Training => "Training"
    case Success => "Visualization Ready"
    case Failure => "Failed"
  }

  /** `jobStatusToString`: each of the five statuses has its own label, and any other number is
      "Unknown", which no status uses. */
  function JobStatusToString(jobStatus: int): (r: string)
    ensures StatusOf(jobStatus).Some? ==> r == StatusLabel(StatusOf(jobStatus).value)
    ensures r == UnknownLabel <==> StatusOf(jobStatus).None?
  {
    match StatusOf(jobStatus)
    case Some(s) => StatusLabel(s)
    case None => UnknownLabel
  }

  /** Distinct statuses have distinct labels. */
  lemma StatusLabelsDistinct(s: JobStatus, t: JobStatus)
    requires s != t
    ensures StatusLabel(s) != StatusLabel(t)
  {
  }

  const FailureText: string :=
    "The job failed to complete successfully.\nPlease contact browsecloud-team@microsoft.com and they will help make it right!"

  /** The HTML variant, spelling mistake included. */
  const FailureHtml: string :=
    "Theee job failed to complete successfully.\nPlease contact <a href=\"mailto:browsecloud-team@microsoft.com\">browsecloud-team@microsoft.com</a> and they will help make it right!"

  function StatusDescription(s: JobStatus, supportsHtml: bool): string {
    match s
    case NotStarted =>
      "The job is patiently waiting in line for a computer.\nThis might be a while, depending on the number of jobs already queued."
    case PreProcessing => "The text is being prepared for training. This should not take long."
    case Training => "The core training algorithm is running on the text."
    case Success => "The visualization is ready for viewing! Click the visualization name to see it."
    case Failure => if supportsHtml then FailureHtml else FailureText
  }

  /** `jobStatusToStringDescription`: None (null) for a number outside the enumeration; the
      `supportsHtml` flag (default false) changes the text of the failure status alone. */
  function JobStatusToStringDescription(jobStatus: int, supportsHtml: bool): (r: Option<string>)
    ensures r.None? <==> StatusOf(jobStatus).None?
    ensures r.Some? ==> r.value == StatusDescription(StatusOf(jobStatus).value, supportsHtml)
  {
    match StatusOf(jobStatus)
    case Some(s) => Some(StatusDescription(s, supportsHtml))
    case None => None
  }

  /** Asking for HTML changes the description exactly for the failure status. */
  lemma HtmlChangesOnlyFailure(jobStatus: int)
    ensures JobStatusToStringDescription(jobStatus, true) != JobStatusToStringDescription(jobStatus, false)
            <==> jobStatus == Failure.Ordinal()
  {
    assert |FailureHtml| != |FailureText|;
  }

  function TypeLabel(t: JobType): string {
    match t
    case CountingGridGeneration => "Counting Grid Generation"
    case SentimentColoring => "Sentiment Analysis Coloring"
    case MetadataColoring => "Metadata Column Coloring"
  }

  /** `jobTypeToString`: each of the three types has its own label, anything else is "Unknown". */
  function JobTypeToString(jobType: int): (r: string)
    ensures TypeOf(jobType).Some? ==> r == TypeLabel(TypeOf(jobType).value)
    ensures r == UnknownLabel <==> TypeOf(jobType).None?
  {
    match TypeOf(jobType)
    case Some(t) => TypeLabel(t)
    case None => UnknownLabel
  }

  lemma TypeLabelsDistinct(s: JobType, t: JobType)
    requires s != t
    ensures TypeLabel(s) != TypeLabel(t)
  {
  }
}
