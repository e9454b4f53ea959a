/** The job status and job type enumerations. The client, the batch worker and the service declare
    them in the same order, so a status travels between them as its ordinal. */
module JobStatuses {
  import opened Js

  datatype JobStatus = NotStarted | PreProcessing | Training | Success | Failure
  {
    /** The enum's underlying number, NotStarted = 0 … Failure = 4. */
    function Ordinal(): (n: nat)
      ensures n < 5
    {
      match this
      case NotStarted => 0
      case PreProcessing => 1
      case Training => 2
      case Success => 3
      case Failure => 4
    }
  }

  /** The status with ordinal `n`, if any (`JobStatus(n)`). */
  function StatusOf(n: int): (r: Option<JobStatus>)
    ensures r.Some? <==> 0 <= n < 5
    ensures r.Some? ==> r.value.Ordinal() == n
  {
    if n == 0 then Some(NotStarted)
    else if n == 1 then Some(PreProcessing)
    else if n == 2 then Some(Training)
    else if n == 3 then Some(Success)
    else if n == 4 then Some(Failure)
    else None
  }

  /** Every status survives the trip through its ordinal, so distinct statuses have distinct ordinals. */
  lemma StatusOrdinalRoundTrip(s: JobStatus)
    ensures StatusOf(s.Ordinal()) == Some(s)
  {
  }

  datatype JobType = CountingGridGeneration | SentimentColoring | MetadataColoring
  {
    function Ordinal(): (n: nat)
      ensures n < 3
    {
      match this
      case CountingGridGeneration => 0
      case SentimentColoring => 1
      case MetadataColoring => 2
    }
  }

  function TypeOf(n: int): (r: Option<JobType>)
    ensures r.Some? <==> 0 <= n < 3
    ensures r.Some? ==> r.value.Ordinal() == n
  {
    if n == 0 then Some(CountingGridGeneration)
    else if n == 1 then Some(SentimentColoring)
    else if n == 2 then Some(MetadataColoring)
    else None
  }

  lemma TypeOrdinalRoundTrip(t: JobType)
    ensures TypeOf(t.Ordinal()) == Some(t)
  {
  }
}
