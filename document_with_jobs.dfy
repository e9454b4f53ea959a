/** A document together with the jobs run on it, newest first, and the grouping of a list of jobs
    under a list of documents. */
module DocumentWithJobs {
  import opened Js
  import Sorting
  import DynamicSort

  /** The client's document record, by the fields the grouping reads. */
  datatype Document = Document(id: string, displayName: string)

  /** The client's job record; the dates are their time values in milliseconds. */
  datatype Job = Job(id: string, documentId: string, progress: real, jobStatus: int, jobType: int,
                     submitDateTime: real)

  /** Reading a numeric property of a job by name; any other name reads `undefined`. */
  function JobProperty(j: Job, name: string): Option<real> {
    if name == "submitDateTime" then Some(j.submitDateTime)
    else if name == "progress" then Some(j.progress)
    else if name == "jobStatus" then Some(j.jobStatus as real)
    else if name == "jobType" then Some(j.jobType as real)
    else None
  }

  const NewestFirst: string := "-submitDateTime"

  /** The sort key under which an ascending stable sort puts later submissions first. */
  function Age(j: Job): real {
    -j.submitDateTime
  }

  /** `dynamicSort('-submitDateTime')` agrees in sign with comparing ages, so sorting by it is the
      stable ascending sort by age. */
  lemma NewestFirstIsByAge(a: Job, b: Job)
    ensures DynamicSort.Compare(Some(NewestFirst), JobProperty, a, b) < 0 <==> Age(a) < Age(b)
    ensures DynamicSort.Compare(Some(NewestFirst), JobProperty, a, b) > 0 <==> Age(b) < Age(a)
  {
    assert NewestFirst[1..] == "submitDateTime";
  }

  /** `jobs.sort(dynamicSort('-submitDateTime'))`. */
  function SortedNewestFirst(jobs: seq<Job>): (r: seq<Job>)
    ensures multiset(r) == multiset(jobs)
  {
    Sorting.SortBy(jobs, Age)
  }

  /** The sorted jobs run from the latest submission to the earliest: no job is placed before one
      that the comparator puts ahead of it. */
  lemma SortedNewestFirstOrdered(jobs: seq<Job>)
    ensures forall i, j :: 0 <= i < j < |jobs| ==>
              SortedNewestFirst(jobs)[i].submitDateTime >= SortedNewestFirst(jobs)[j].submitDateTime
    ensures forall i, j :: 0 <= i < j < |jobs| ==>
              DynamicSort.Compare(Some(NewestFirst), JobProperty, SortedNewestFirst(jobs)[i], SortedNewestFirst(jobs)[j]) <= 0
  {
    var r := SortedNewestFirst(jobs);
    Sorting.SortBySorted(jobs, Age);
    forall i, j | 0 <= i < j < |jobs|
      ensures DynamicSort.Compare(Some(NewestFirst), JobProperty, r[i], r[j]) <= 0
    {
      NewestFirstIsByAge(r[i], r[j]);
    }
  }

  /** `jobs.filter((j) => j.documentId === id)`. */
  function JobsFor(jobs: seq<Job>, id: string): seq<Job> {
    if |jobs| == 0 then []
    else
      var last := jobs[|jobs| - 1];
      JobsFor(jobs[..|jobs| - 1], id) + (if last.documentId == id then [last] else [])
  }

  /** The filter keeps every job that names the document, as often as it occurs, and no other. */
  lemma {:induction false} JobsForCounts(jobs: seq<Job>, id: string)
    ensures forall j :: multiset(JobsFor(jobs, id))[j] == if j.documentId == id then multiset(jobs)[j] else 0
    ensures forall k :: 0 <= k < |JobsFor(jobs, id)| ==> JobsFor(jobs, id)[k].documentId == id
  {
    if |jobs| > 0 {
      var init, last := jobs[..|jobs| - 1], jobs[|jobs| - 1];
      JobsForCounts(init, id);
      var earlier := JobsFor(init, id);
      var added: seq<Job> := if last.documentId == id then [last] else [];
      assert JobsFor(jobs, id) == earlier + added;
      assert jobs == init + [last];
      assert multiset(jobs) == multiset(init) + multiset{last};
      assert multiset(earlier + added) == multiset(earlier) + multiset(added);
      forall k | 0 <= k < |earlier + added|
        ensures (earlier + added)[k].documentId == id
      {
        if k < |earlier| {
          assert (earlier + added)[k] == earlier[k];
        }
      }
    }
  }

  /** A job is listed under a document exactly when it names that document. */
  lemma JobsForExactly(jobs: seq<Job>, id: string, j: Job)
    ensures j in JobsFor(jobs, id) <==> j in jobs && j.documentId == id
  {
    JobsForCounts(jobs, id);
    assert j in JobsFor(jobs, id) <==> multiset(JobsFor(jobs, id))[j] > 0;
    assert j in jobs <==> multiset(jobs)[j] > 0;
  }

  class BrowseCloudDocumentWithJobs {
    var document: Document
    /** None when the constructor was given no jobs, and the field stays unset. */
    var jobs: Option<seq<Job>>

    /** The jobs, when given, are kept newest first. */
    constructor (document: Document, jobs: Option<seq<Job>>)
      ensures this.document == document
      ensures jobs.None? ==> this.jobs.None?
      ensures jobs.Some? ==> this.jobs == Some(SortedNewestFirst(jobs.value))
    {
      this.document := document;
      if jobs.Some? {
        this.jobs := Some(SortedNewestFirst(jobs.value));
      } else {
        this.jobs := None;
      }
    }

    /** `fromDocumentsAndJobs`: one new entry per document, in the documents' order, each holding
        the jobs that name that document, newest first. No documents, or an empty list, gives an
        empty list; no jobs counts as an empty list of jobs. */
    static method FromDocumentsAndJobs(documents: Option<seq<Document>>, jobs: Option<seq<Job>>)
      returns (r: seq<BrowseCloudDocumentWithJobs>)
      ensures documents.None? ==> r == []
      ensures documents.Some? ==> |r| == |documents.value|
      ensures documents.Some? ==> forall k :: 0 <= k < |r| ==>
                fresh(r[k]) && r[k].document == documents.value[k] &&
                r[k].jobs == Some(SortedNewestFirst(JobsFor(if jobs.None? then [] else jobs.value, documents.value[k].id)))
    {
      if documents.None? || |documents.value| == 0 {
        return [];
      }
      var all := if jobs.None? then [] else jobs.value;
      var docs := documents.value;
      r := [];
      var i := 0;
      while i < |docs|
        invariant 0 <= i <= |docs| && |r| == i
        invariant forall k :: 0 <= k < i ==>
                    fresh(r[k]) && r[k].document == docs[k] &&
                    r[k].jobs == Some(SortedNewestFirst(JobsFor(all, docs[k].id)))
      {
        var entry := new BrowseCloudDocumentWithJobs(docs[i], Some(JobsFor(all, docs[i].id)));
        r := r + [entry];
        i := i + 1;
      }
    }
  }
}
