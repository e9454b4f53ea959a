# BrowseCloud — a verified model of its core

BrowseCloud trains a Counting Grid on a collection of documents and shows the result as an
interactive word map. This project models, in Dafny, the parts of the system that carry its
logic:

- **The client's Counting Grid decoders** (`cg-*.ts`). Each one reads one artifact that the
  training pipeline writes:
  - `top_pi.txt`, the top words per cell;
  - `top_pi_layers.txt`, the top words per cell of the deeper layers;
  - `colors_browser.txt`, the color of each cell;
  - `docmap.txt`, the documents of each cell;
  - `words.txt`, the word counts per document;
  - `database.txt`, the document records;
  - `legend.txt`, the feature legend;
  - `correspondences.txt`, the vocabulary.

  Each decoder is modelled as a method that loops over the lines and is proved equal to a fold
  over them. The fold states the decoder's error cases, its skipping rules and its sparse-array
  results. For each artifact, round-trip lemmas show that a line or token the pipeline writes is
  read back as written.
- **`CountingGridModel`**, a class that holds the decoded artifacts, one random label offset per
  word and the cache of search results. Its three queries are modelled as methods over that
  state:
  - `getWordTags`: the search weighting over grid layers;
  - `getScaledGridData`: the visibility walk over the torus and the placed, scaled and sorted
    labels;
  - `getDocumentEntryList`: the ranking of a cell's documents, sorted in place.
- **The client's job and document helpers**:
  - the status and type labels;
  - `dynamicSort`;
  - the grouping of jobs under documents, newest first.
- **The batch worker's job record** (`batchJob.py`, `jobStatus.py`): status and progress
  updates with their validation errors.
- **The sliding-window trainer**: the windows, output directories and chained initial grids it
  hands each training run.
- **The service**:
  - document access rules and the blob file name;
  - directory identity equality;
  - the `BatchJob` constructor;
  - the validation and normalisation of uploaded training text;
  - the exception-to-response filter.

Some JavaScript semantics are modelled explicitly in the `Js` and `Patterns` modules:
- `split`, `trim`, `parseInt` and `parseFloat`, with NaN as `None`;
- sparse arrays and their `length`;
- the truncating `%`;
- the regular expressions the decoders use.

Inputs that the code draws from its environment are parameters:
- the `Math.random` draws;
- `Math.pow(w, 1 + Math.log(k))`;
- the training function;
- the CSV reader;
- `Environment.NewLine`;
- the invariant-culture case folding;
- `Guid.NewGuid()` and `DateTime.UtcNow`; each read of the clock is its own parameter, so two reads may differ.

## Model

| member | source | states |
|---|---|---|
| JobStatuses.JobStatus.Ordinal | browsecloud-client/src/app/models/browse-cloud-batch-job.ts:8-14 | the status ordinals are NotStarted = 0 … Failure = 4, all below 5 |
| JobStatuses.StatusOf | Batch/Batch/src/jobStatus.py:7-12 | `JobStatus(n)` exists exactly for 0 ≤ n < 5 and has ordinal n |
| JobStatuses.StatusOrdinalRoundTrip | BrowseCloud.Service/BrowseCloud.Service.Models/BatchJob.cs:14-40 | every status comes back from its ordinal, so the three declarations agree order for order |
| JobStatuses.JobType.Ordinal | browsecloud-client/src/app/models/browse-cloud-batch-job.ts:17-21 | the type ordinals are CountingGridGeneration = 0, SentimentColoring = 1, MetadataColoring = 2 |
| JobStatuses.TypeOf | BrowseCloud.Service/BrowseCloud.Service.Models/BatchJob.cs:45-61 | a type exists exactly for 0 ≤ n < 3 and has ordinal n |
| JobStatuses.TypeOrdinalRoundTrip | browsecloud-client/src/app/models/browse-cloud-batch-job.ts:17-21 | every type comes back from its ordinal |
| BrowseCloudBatchJob.JobStatusToString | browsecloud-client/src/app/models/browse-cloud-batch-job.ts:24-39 | each of the five statuses gets its own label; the answer is 'Unknown' exactly for a number outside the enumeration |
| BrowseCloudBatchJob.StatusLabelsDistinct | browsecloud-client/src/app/models/browse-cloud-batch-job.ts:26-35 | distinct statuses have distinct labels |
| BrowseCloudBatchJob.JobStatusToStringDescription | browsecloud-client/src/app/models/browse-cloud-batch-job.ts:41-60 | null exactly for a number outside the enumeration, otherwise the status's description |
| BrowseCloudBatchJob.HtmlChangesOnlyFailure | browsecloud-client/src/app/models/browse-cloud-batch-job.ts:52-56 | `supportsHtml` changes the description exactly for the Failure status |
| BrowseCloudBatchJob.JobTypeToString | browsecloud-client/src/app/models/browse-cloud-batch-job.ts:62-73 | each of the three types gets its own label; 'Unknown' exactly for any other number |
| BrowseCloudBatchJob.TypeLabelsDistinct | browsecloud-client/src/app/models/browse-cloud-batch-job.ts:64-69 | distinct types have distinct labels |
| BatchWorkerJob.NextStatus | Batch/Batch/src/batchJob.py:13-17 | a successor exists exactly from NotStarted, PreProcessing and Training; it is the status with the next ordinal and is never Failure |
| BatchWorkerJob.Walk | Batch/Batch/src/batchJob.py:13-17 | repeated `next` from a status is a chain of successors that ends at a status with no successor |
| BatchWorkerJob.WalkFromStart | Batch/Batch/src/batchJob.py:13-17 | from NotStarted, `next` walks NotStarted → PreProcessing → Training → Success and then raises |
| BatchWorkerJob.BatchJob.constructor | Batch/Batch/src/batchJob.py:8-11 | the job holds the given id, status and progress |
| BatchWorkerJob.BatchJob.Next | Batch/Batch/src/batchJob.py:13-17 | advances to the successor status; from Success or Failure raises ValueError and leaves the status unchanged; progress is never touched |
| BatchWorkerJob.BatchJob.MakeProgress | Batch/Batch/src/batchJob.py:19-23 | succeeds exactly for 0 ≤ progress ≤ 100 and then sets progress exactly; otherwise raises ValueError and changes nothing; the status is never touched |
| ServiceBatchJob.WindowSizeFor | BrowseCloud.Service/BrowseCloud.Service.Models/BatchJob.cs:95 | the template's window size when it has one, otherwise 5 |
| ServiceBatchJob.ExtentSizeFor | BrowseCloud.Service/BrowseCloud.Service.Models/BatchJob.cs:96 | the template's extent size when it has one; otherwise 24 for a counting grid generation and null for any other job type |
| ServiceBatchJob.BatchJob.constructor | BrowseCloud.Service/BrowseCloud.Service.Models/BatchJob.cs:81-100 | progress 0 and status NotStarted whatever the template; target id, target column and settings copied from the template (null without one); type defaults to CountingGridGeneration; the document id is the argument; the submit and update times are the two clock readings, each its own |
| DirectoryIdentities.DirectoryIdentity.EqualsDirectoryIdentity | BrowseCloud.Service/BrowseCloud.Service.Models/DirectoryIdentity.cs:60-68 | false against null; otherwise true exactly when id, display name, principal name and type all agree |
| DirectoryIdentities.EqualsIsEquivalence | BrowseCloud.Service/BrowseCloud.Service.Models/DirectoryIdentity.cs:67 | the comparison is reflexive, symmetric and transitive |
| DocumentExtensions.UserCanRead | BrowseCloud.Service/BrowseCloud.Service.Models/Extensions/DocumentExtensions.cs:22-32 | false for a null document; true for a public one; for a private one, true exactly when the owner or an access-list entry carries one of the user's ids |
| DocumentExtensions.Contains | BrowseCloud.Service/BrowseCloud.Service.Models/Extensions/DocumentExtensions.cs:29-30 | definition of the case-insensitive `ids.Contains(id)`; its meaning is stated by DocumentExtensions.MatchGrantsBoth and DocumentExtensions.NoIdsNoAccess |
| DocumentExtensions.UserCanModify | BrowseCloud.Service/BrowseCloud.Service.Models/Extensions/DocumentExtensions.cs:40-49 | false for a null document; otherwise true exactly when the owner or an access-list entry carries one of the user's ids, public or not |
| DocumentExtensions.ModifyImpliesRead | BrowseCloud.Service/BrowseCloud.Service.Models/Extensions/DocumentExtensions.cs:29-31 | whoever may modify a document may read it |
| DocumentExtensions.PublicGrantsOnlyRead | BrowseCloud.Service/BrowseCloud.Service.Models/Extensions/DocumentExtensions.cs:31 | making a document public lets everyone read it and changes nobody's right to modify it |
| DocumentExtensions.MatchGrantsBoth | BrowseCloud.Service/BrowseCloud.Service.Models/Extensions/DocumentExtensions.cs:29-30 | an id of the user that matches the owner or an access-list entry, ignoring case, grants both reading and modifying |
| DocumentExtensions.NoIdsNoAccess | BrowseCloud.Service/BrowseCloud.Service.Models/Extensions/DocumentExtensions.cs:29-31 | without any id, a private document can be neither read nor modified |
| DocumentExtensions.BlobFileName | BrowseCloud.Service/BrowseCloud.Service.Models/Extensions/DocumentExtensions.cs:57-65 | null exactly for a null document; otherwise the file name followed by ".txt" exactly for simple input and ".csv" exactly for metadata input |
| DocumentExtensions.DefaultBlobFileName | BrowseCloud.Service/BrowseCloud.Service.Models/Extensions/DocumentExtensions.cs:57 | with the default name the file is "input.txt" or "input.csv" |
| ExceptionFilter.OnException | BrowseCloud.Service/BrowseCloud.Service/Utils/SimpleExceptionFilterAttribute.cs:26-48 | validation → 400, page not found → 404, permissions denied → 403, any other exception → 500; the service's own exceptions keep their message, others get "An unexpected error occured" |
| ExceptionFilter.StatusesAndMessages | BrowseCloud.Service/BrowseCloud.Service/Utils/SimpleExceptionFilterAttribute.cs:26-48 | the status is always one of 400, 403, 404 and 500, and a 4xx status always carries the exception's own message |
| ExceptionFilter.MessageHiddenOnlyForForeign | BrowseCloud.Service/BrowseCloud.Service/Utils/SimpleExceptionFilterAttribute.cs:43-52 | the message is passed through exactly for the service's own exceptions; the response is (500, "An unexpected error occured") exactly for the others |
| DynamicSort.Compare | browsecloud-client/src/utils/dynamicSort.ts:5-19 | a null property compares everything as equal; otherwise the answer is −1, 0 or 1, with −1 exactly when `a`'s property is less and 1 exactly when it is greater, reversed when one leading '-' is stripped |
| DynamicSort.DescendingNegates | browsecloud-client/src/utils/dynamicSort.ts:10-18 | the comparator for "-p" is the negation of the comparator for "p" |
| DynamicSort.OneDashStripped | browsecloud-client/src/utils/dynamicSort.ts:11-14 | "--p" sorts by the property "-p", descending: only one '-' is stripped |
| DynamicSort.Antisymmetric | browsecloud-client/src/utils/dynamicSort.ts:15-18 | swapping the operands negates the answer |
| Sorting.Insert | browsecloud-client/src/app/models/browse-cloud-document-with-jobs.ts:19 | one more element than before |
| Sorting.InsertPos | browsecloud-client/src/app/models/browse-cloud-document-with-jobs.ts:19 | where the stable insertion step places an element; never past the end |
| Sorting.InsertPosBounds | browsecloud-client/src/app/models/browse-cloud-document-with-jobs.ts:19 | every element after the insertion position has a larger key, and the one just before it does not |
| Sorting.InsertPermutes | browsecloud-client/src/app/models/browse-cloud-document-with-jobs.ts:19 | inserting adds exactly that element to the multiset |
| Sorting.SortBy | browsecloud-client/src/app/models/browse-cloud-document-with-jobs.ts:19 | the sorted sequence is a permutation of the input |
| Sorting.InsertSorted | browsecloud-client/src/app/models/browse-cloud-document-with-jobs.ts:19 | inserting into an ordered sequence keeps it ordered |
| Sorting.SortBySorted | browsecloud-client/src/app/models/browse-cloud-document-with-jobs.ts:19 | the result is in non-decreasing key order |
| Sorting.SortByOrdered | browsecloud-client/src/app/models/browse-cloud-document-with-jobs.ts:19 | input already in key order is left unchanged (stability) |
| Sorting.SortByConstantKey | browsecloud-client/src/app/models/counting-grid-model.ts:222-230 | when all keys are equal the sort changes nothing, as a comparator answering only 0 leaves the array unchanged |
| DocumentWithJobs.NewestFirstIsByAge | browsecloud-client/src/app/models/browse-cloud-document-with-jobs.ts:19 | `dynamicSort('-submitDateTime')` puts `a` first exactly when `a` was submitted later |
| DocumentWithJobs.SortedNewestFirst | browsecloud-client/src/app/models/browse-cloud-document-with-jobs.ts:18-20 | the sorted jobs are a permutation of the given jobs |
| DocumentWithJobs.SortedNewestFirstOrdered | browsecloud-client/src/app/models/browse-cloud-document-with-jobs.ts:19 | the sorted jobs run from the latest submission to the earliest, and the comparator never puts a later job ahead of an earlier one |
| DocumentWithJobs.JobsForCounts | browsecloud-client/src/app/models/browse-cloud-document-with-jobs.ts:33 | the filter keeps every job that names the document, as often as it occurs, and no other |
| DocumentWithJobs.JobsFor | browsecloud-client/src/app/models/browse-cloud-document-with-jobs.ts:33 | definition of the job filter; its meaning is stated by DocumentWithJobs.JobsForCounts and DocumentWithJobs.JobsForExactly |
| DocumentWithJobs.JobsForExactly | browsecloud-client/src/app/models/browse-cloud-document-with-jobs.ts:33 | a job is listed under a document exactly when it is among the jobs and names that document |
| DocumentWithJobs.BrowseCloudDocumentWithJobs.constructor | browsecloud-client/src/app/models/browse-cloud-document-with-jobs.ts:15-21 | keeps the document; given jobs are stored newest first; no jobs leaves the field unset |
| DocumentWithJobs.BrowseCloudDocumentWithJobs.FromDocumentsAndJobs | browsecloud-client/src/app/models/browse-cloud-document-with-jobs.ts:23-36 | null or empty documents give []; otherwise one new entry per document, in input order, holding exactly the jobs that name it, newest first; null jobs count as none |
| SlidingWindow.SliceIndex | CountingGridsPy/EngineToBrowseCloudPipeline/slidingWindowTrainer.py:31 | a Python slice bound, normalised: within 0 … n and equal to the index when that is already in range |
| SlidingWindow.PySlice | CountingGridsPy/EngineToBrowseCloudPipeline/slidingWindowTrainer.py:31 | `data[a:b]` is the plain sub-sequence when 0 ≤ a ≤ b ≤ len, and never longer than the data |
| SlidingWindow.CeilDiv | CountingGridsPy/EngineToBrowseCloudPipeline/slidingWindowTrainer.py:25 | `ceil(a / b)` is the integer q with (q − 1)·b < a ≤ q·b for b > 0 (mirrored for b < 0) |
| SlidingWindow.WindowCount | CountingGridsPy/EngineToBrowseCloudPipeline/slidingWindowTrainer.py:25 | definition of `ceil((T − w) / s) + 1`; its meaning is stated by SlidingWindow.CeilDiv and SlidingWindow.RunWindows |
| SlidingWindow.OutputDirectory | CountingGridsPy/EngineToBrowseCloudPipeline/slidingWindowTrainer.py:32 | definition of the "./root/iter{i}" directory name; its meaning is stated by SlidingWindow.OutputDirectoriesDistinct |
| SlidingWindow.RemoveSeparators | CountingGridsPy/EngineToBrowseCloudPipeline/slidingWindowTrainer.py:21-22 | the root directory has no '.', '/' or '\\' left, and every other character occurs as often as in the output directory |
| SlidingWindow.AdvanceClosed | CountingGridsPy/EngineToBrowseCloudPipeline/slidingWindowTrainer.py:42-43 | i steps of `x = min(x + s, T)` from x₀ ≤ T reach min(x₀ + i·s, T) for s ≥ 0 and x₀ + i·s for s < 0 |
| SlidingWindow.ChainedPassesPi | CountingGridsPy/EngineToBrowseCloudPipeline/slidingWindowTrainer.py:16-18 | the first window run is handed the initial grid (None without an initial run), and each later one the grid `train` returned for the run before it |
| SlidingWindow.ChainedExtend | CountingGridsPy/EngineToBrowseCloudPipeline/slidingWindowTrainer.py:29-40 | appending the arguments of the next window run keeps the runs chained |
| SlidingWindow.RunWindows | CountingGridsPy/EngineToBrowseCloudPipeline/slidingWindowTrainer.py:27-43 | one run per entry of the iteration list, run k getting `data[first:last]` of window k, max_iter k, the k-th output directory and the previous grid; the bounds end at window count |
| SlidingWindow.SlidingTrainer | CountingGridsPy/EngineToBrowseCloudPipeline/slidingWindowTrainer.py:10-44 | a missing key, w ≥ T or a wrong iteration-list length is an AssertionError before any window run, and s = 0 a ZeroDivisionError; otherwise the chained window runs, and the call completes exactly when the last bound reached T |
| SlidingWindow.WindowBounds | CountingGridsPy/EngineToBrowseCloudPipeline/slidingWindowTrainer.py:27-43 | with 0 ≤ w < T and s > 0, 0 ≤ first ≤ last ≤ T and last − first ≤ w for every window, and the first window is `data[0:w]` |
| SlidingWindow.FinalCheckHoldsIffForward | CountingGridsPy/EngineToBrowseCloudPipeline/slidingWindowTrainer.py:24-26 | once the checks pass, `last_index >= T` after the loop exactly when s > 0 |
| SlidingWindow.OutputDirectoriesDistinct | CountingGridsPy/EngineToBrowseCloudPipeline/slidingWindowTrainer.py:32 | distinct windows write to distinct "./root/iter{i}" directories |
| DocumentHelper.CsTrimEmptyIffWhiteSpace | BrowseCloud.Service/BrowseCloud.Service.Common/Helpers/DocumentHelper.cs:34-39 | trimming leaves nothing exactly when the text is empty or white space, so a text that passes the existence check is non-empty after `Trim()` |
| DocumentHelper.TrimStartWhere | BrowseCloud.Service/BrowseCloud.Service.Common/Helpers/DocumentHelper.cs:39 | the result is a suffix of the text, every character removed is one the trim drops, and the result does not start with one |
| DocumentHelper.TrimEndWhere | BrowseCloud.Service/BrowseCloud.Service.Common/Helpers/DocumentHelper.cs:39 | the result is a prefix of the text, every character removed is one the trim drops, and the result does not end with one |
| DocumentHelper.SplitNewlines | BrowseCloud.Service/BrowseCloud.Service.Common/Helpers/DocumentHelper.cs:189 | splitting on "\r\n", "\n" and "\r" gives at least one piece, and no piece holds a CR or LF |
| DocumentHelper.SplitNewlinesNoBreak | BrowseCloud.Service/BrowseCloud.Service.Common/Helpers/DocumentHelper.cs:189 | a text without line breaks is a single piece |
| DocumentHelper.SplitNewlinesAppend | BrowseCloud.Service/BrowseCloud.Service.Common/Helpers/DocumentHelper.cs:189 | a line, a "\n" or "\r\n", and a rest split into the line followed by the pieces of the rest ("\r\n" counts once) |
| DocumentHelper.JoinedRowsSplitBack | BrowseCloud.Service/BrowseCloud.Service.Common/Helpers/DocumentHelper.cs:189 | rows without line breaks joined by "\n" or "\r\n" split back into exactly those rows |
| DocumentHelper.ValidLengthCountsRows | BrowseCloud.Service/BrowseCloud.Service.Common/Helpers/DocumentHelper.cs:187-193 | for such a text, the length rule with a title row holds exactly when there are 1001 to 20001 rows |
| DocumentHelper.IsValidDocumentLength | BrowseCloud.Service/BrowseCloud.Service.Common/Helpers/DocumentHelper.cs:187-193 | definition of the length rule; its meaning is stated by DocumentHelper.ValidLengthCountsRows |
| DocumentHelper.IndexOfCrLf | BrowseCloud.Service/BrowseCloud.Service.Common/Helpers/DocumentHelper.cs:250 | −1 exactly when no CR is followed by LF; otherwise a position of a CR LF pair |
| DocumentHelper.FirstLineLength | BrowseCloud.Service/BrowseCloud.Service.Common/Helpers/DocumentHelper.cs:250-251 | the header length is never negative and never past the end of the text |
| DocumentHelper.FirstLineLengthMeaning | BrowseCloud.Service/BrowseCloud.Service.Common/Helpers/DocumentHelper.cs:250-251 | as a missing separator counts −1, the header line is empty unless the text holds a CR LF pair; when it does, the header is the part before the first line break |
| DocumentHelper.FirstLineOfCrLfText | BrowseCloud.Service/BrowseCloud.Service.Common/Helpers/DocumentHelper.cs:250-251 | a header line ended by CR LF is read in full |
| DocumentHelper.SplitHeader | BrowseCloud.Service/BrowseCloud.Service.Common/Helpers/DocumentHelper.cs:252 | splitting the header on ',' and tab gives at least one cell |
| DocumentHelper.NoCrLfNoThrow | BrowseCloud.Service/BrowseCloud.Service.Common/Helpers/DocumentHelper.cs:250-253 | without a CR LF pair no header cell is TITLE or ABSTRACT, so metadata errors are never reported |
| DocumentHelper.HeaderName | BrowseCloud.Service/BrowseCloud.Service.Common/Helpers/DocumentHelper.cs:252 | definition of a header cell trimmed, unquoted and upper-cased; its meaning is stated by DocumentHelper.NoCrLfNoThrow |
| DocumentHelper.ThrowErrors | BrowseCloud.Service/BrowseCloud.Service.Common/Helpers/DocumentHelper.cs:250-253 | definition: some header cell names TITLE or ABSTRACT; its meaning is stated by DocumentHelper.NoCrLfNoThrow and DocumentHelper.ValidateMetadataInput |
| DocumentHelper.MetadataRowError | BrowseCloud.Service/BrowseCloud.Service.Common/Helpers/DocumentHelper.cs:273-281 | a row passes exactly when its title or its abstract is not blank and its link is blank or starts with http:// or https://, ignoring case |
| DocumentHelper.MetadataErrorMeaning | BrowseCloud.Service/BrowseCloud.Service.Common/Helpers/DocumentHelper.cs:271-282 | the rows pass exactly when every row passes; otherwise the message is that of the first failing row, numbered from 1 |
| DocumentHelper.ValidateMetadataInput | BrowseCloud.Service/BrowseCloud.Service.Common/Helpers/DocumentHelper.cs:244-296 | true exactly when every row passes and the reader raised nothing; an error is rethrown only when the header names TITLE or ABSTRACT, with the first error's message; false only when it does not |
| DocumentHelper.SimpleRowPasses | BrowseCloud.Service/BrowseCloud.Service.Common/Helpers/DocumentHelper.cs:218-226 | a row passes exactly when it has 1 to 3 columns and its third column is blank or starts with http:// or https://, ignoring case; a wrong column count gives the column-count message, otherwise the URL message |
| DocumentHelper.Clean | BrowseCloud.Service/BrowseCloud.Service.Common/Helpers/DocumentHelper.cs:228-230 | a cleaned cell keeps its length; each '"' becomes '\'', each tab, CR or LF a space, and every other character stays; a null cell becomes empty |
| DocumentHelper.FormatRowShape | BrowseCloud.Service/BrowseCloud.Service.Common/Helpers/DocumentHelper.cs:228-232 | a written row splits back on tabs into exactly its three quoted, cleaned cells, and holds no line break |
| DocumentHelper.NoBreakJoin | BrowseCloud.Service/BrowseCloud.Service.Common/Helpers/DocumentHelper.cs:232 | joining pieces without line breaks by a separator without line breaks gives no line break |
| DocumentHelper.SimpleRowsAccepted | BrowseCloud.Service/BrowseCloud.Service.Common/Helpers/DocumentHelper.cs:216-233 | the rows are converted exactly when every row passes, one written row per row read, in order |
| DocumentHelper.SimpleRowsRejected | BrowseCloud.Service/BrowseCloud.Service.Common/Helpers/DocumentHelper.cs:216-226 | a rejection carries the message of the first failing row |
| DocumentHelper.SimpleRowsRejectedPrefix | BrowseCloud.Service/BrowseCloud.Service.Common/Helpers/DocumentHelper.cs:218-226 | a failing row stops the conversion: the rows after it do not matter |
| DocumentHelper.SimpleInputLines | BrowseCloud.Service/BrowseCloud.Service.Common/Helpers/DocumentHelper.cs:232-236 | a converted text splits back, line by line, into the written rows, and each line into its three quoted cells |
| DocumentHelper.SimpleInput | BrowseCloud.Service/BrowseCloud.Service.Common/Helpers/DocumentHelper.cs:200-237 | definition of the converted text; its meaning is stated by DocumentHelper.SimpleRowsAccepted, DocumentHelper.SimpleInputLines and DocumentHelper.MakeSimpleInput |
| DocumentHelper.MakeSimpleInput | BrowseCloud.Service/BrowseCloud.Service.Common/Helpers/DocumentHelper.cs:200-237 | the loop returns the written rows joined by the newline, or the message of the first failing row or of the reader's error |
| DocumentHelper.PrepareInputText | BrowseCloud.Service/BrowseCloud.Service.Common/Helpers/DocumentHelper.cs:32-67 | null or blank text → "The file must exist."; a wrong row count after trimming → "…between 1000 and 20000 rows."; a rethrown metadata error keeps its message; accepted metadata keeps the trimmed text; otherwise the simple-input conversion or its error message |
| CGVocabulary.Vocabulary.GetLexiconWordByWord | browsecloud-client/src/app/models/cg-vocabulary.ts:23-35 | null for a null word, an unknown word, or a word whose id reads as NaN, 0 or −1 (the `\|\| -1` quirk); any other answer is the lexicon slot of the word's id, and a word whose stored id is a number other than 0 and −1 is found at that slot |
| CGVocabulary.Vocabulary.GetVocabularyWordsById | browsecloud-client/src/app/models/cg-vocabulary.ts:37-39 | the surface forms recorded for the id, and undefined exactly when none were |
| CGVocabulary.Vocabulary.GetLexiconWordById | browsecloud-client/src/app/models/cg-vocabulary.ts:41-43 | the lexicon slot of the id, undefined exactly when none was written; a found entry carries that id |
| CGVocabulary.EmptyVocabulary | browsecloud-client/src/app/models/cg-vocabulary.ts:46-48 | the empty tables keep the decoder's invariant (every lexicon slot carries its own id, every recorded id has a slot) |
| CGVocabulary.Record | browsecloud-client/src/app/models/cg-vocabulary.ts:64-77 | writing one well-formed line keeps the invariant |
| CGVocabulary.ParseLine | browsecloud-client/src/app/models/cg-vocabulary.ts:51-78 | one line keeps the invariant when it is accepted |
| CGVocabulary.ParseAll | browsecloud-client/src/app/models/cg-vocabulary.ts:45-79 | a successful parse keeps the invariant |
| CGVocabulary.ParseCorrespondences | browsecloud-client/src/app/models/cg-vocabulary.ts:45-79 | the loop over the `/\r?\n/` lines returns exactly the line-by-line fold, stopping at the first line that throws |
| CGVocabulary.ErrorPersists | browsecloud-client/src/app/models/cg-vocabulary.ts:58-60 | once a line throws, the whole parse throws that error |
| CGVocabulary.ParseLineOk | browsecloud-client/src/app/models/cg-vocabulary.ts:52-60 | a line is accepted exactly when it is blank or has a non-empty surface form, lemma and id; otherwise the error is "Correspondence file improperly formatted. Every line must have 3 values." |
| CGVocabulary.ParseSucceedsIffWellFormed | browsecloud-client/src/app/models/cg-vocabulary.ts:50-60 | the file is accepted exactly when every line is blank or well-formed, and the only error is the correspondence-format message; fields after the third are ignored |
| CGVocabulary.NonBlank | browsecloud-client/src/app/models/cg-vocabulary.ts:52-54 | the lines left hold no blank or white-space-only line |
| CGVocabulary.BlankLinesIgnored | browsecloud-client/src/app/models/cg-vocabulary.ts:52-54 | dropping blank and white-space-only lines changes nothing |
| CGVocabulary.ParsedContents | browsecloud-client/src/app/models/cg-vocabulary.ts:64-77 | after a successful parse, the lexicon slot of id k holds the lemma of the last line with id k, a surface form's id is the one on its last line, and the forms of id k are all surface forms given it, in file order, repeats kept |
| CGVocabulary.RecordContents | browsecloud-client/src/app/models/cg-vocabulary.ts:64-77 | one line overwrites the lexicon slot of its id and the id of its surface form, appends the form to its id's list, and leaves every other slot alone |
| CGVocabulary.IdConvention | browsecloud-client/src/app/models/cg-vocabulary.ts:63-71 | for the last well-formed line `w⇥l⇥N` of its id and its form, `getLexiconWordById(N−1)` is (l, N−1), the id stored for w is N−1, and `getLexiconWordByWord(w)` is (l, N−1) unless N−1 is 0 or −1 |
| CGVocabulary.LastAfter | browsecloud-client/src/app/models/cg-vocabulary.ts:70-71 | the last line for an id and a form decides both (last one wins) |
| CGVocabulary.FirstIdNeverFoundByWord | browsecloud-client/src/app/models/cg-vocabulary.ts:28-32 | a surface form whose id is 0 (file id 1) is never found by `getLexiconWordByWord` |
| CGColor.Channel | browsecloud-client/src/app/models/cg-color.ts:34-36 | a channel is the parsed field times 255, and NaN exactly when the field does not read as a number |
| CGColor.ColorMap.GetColor | browsecloud-client/src/app/models/cg-color.ts:19-25 | null exactly when row − 1 was never written; the color at (row − 1, col − 1) when that cell was written; undefined otherwise |
| CGColor.ParseColor | browsecloud-client/src/app/models/cg-color.ts:27-44 | the loop over every `/\r?\n/` line, blank ones included, returns the line-by-line fold; no line is ever rejected |
| CGColor.GetColorOfParsed | browsecloud-client/src/app/models/cg-color.ts:19-43 | after decoding, `getColor(row, col)` is null exactly when no line names the row, and is the color of the last line naming the cell when one does (last one wins) |
| CGColor.StoreGetColor | browsecloud-client/src/app/models/cg-color.ts:38-42 | one line allocates its row and overwrites its cell, and leaves every other lookup as it was |
| CGLegend.Legend.GetColorForFeature | browsecloud-client/src/app/models/cg-legend.ts:26-34 | on [0, 0.5] the fade from the first color to the middle one by 2f, on (0.5, 1] the fade from the middle to the second by 2(f − 0.5), null outside [0, 1] or for NaN; reading an absent legend's colors is a TypeError exactly for a feature in [0, 1] |
| CGLegend.Legend.HasLegend | browsecloud-client/src/app/models/cg-legend.ts:22-24 | definition: both legend colors are present; its meaning is stated by CGLegend.Legend.GetColorForFeature, which fails exactly without them |
| CGLegend.ParseLegend | browsecloud-client/src/app/models/cg-legend.ts:36-70 | null or blank text gives no legend (`hasLegend` false); other text fails with 'legend.txt improperly formatted.' exactly when it has not 11 tab fields; otherwise the names are fields 0 and 7 trimmed and the colors fields 1-3, 4-6 and 8-10, each times 255 |
| CGLegend.FeatureLandmarks | browsecloud-client/src/app/models/cg-legend.ts:26-31 | feature 0 gives the first color, 0.5 the middle one and 1 the second; the two halves meet at the middle color |
| CGLegend.FadeEnds | browsecloud-client/src/app/models/cg-legend.ts:72-84 | a fade by 0 is its start color and by 1 its end color |
| CGLegend.Fade | browsecloud-client/src/app/models/cg-legend.ts:72-84 | definition of the channel-wise fade; its meaning is stated by CGLegend.FadeEnds and CGLegend.FadeChannelBetween |
| CGLegend.FadeChannelBetween | browsecloud-client/src/app/models/cg-legend.ts:79-83 | start + (end − start)·t lies between start and end for t in [0, 1] |
| CGLegend.FirstHalfBetween | browsecloud-client/src/app/models/cg-legend.ts:27-28 | every color of the first half of the scale lies, channel by channel, between the first and the middle color |
| CGLegend.LegendRoundTrip | CountingGridsPy/EngineToBrowseCloudPipeline/browseCloudArtifactGenerator.py:237-239 | eleven tab-free fields joined by tabs, as the pipeline writes legend.txt, decode to a legend with the trimmed names and the fields' channel values |
| CGCounts.Counts.GetWordCounts | browsecloud-client/src/app/models/cg-counts.ts:19-29 | null exactly when the word has no line; otherwise the count of the first token for the entry, 0 when none |
| CGCounts.FirstCount | browsecloud-client/src/app/models/cg-counts.ts:26-28 | 0 when no element has the entry id |
| CGCounts.FirstCountFirst | browsecloud-client/src/app/models/cg-counts.ts:26-28 | the count found is that of the first list element with the entry id |
| CGCounts.ReadTokenCounts | browsecloud-client/src/app/models/cg-counts.ts:48-66 | the loop over a line's tokens returns, in order, the leftmost `digits:digits` of each token that has one, as (entry − 1, count) |
| CGCounts.ParseCounts | browsecloud-client/src/app/models/cg-counts.ts:31-70 | the loop over the `/\r?\n/` lines returns the line-by-line fold, stopping at the first rejected line with its error |
| CGCounts.ErrorPersists | browsecloud-client/src/app/models/cg-counts.ts:42-46 | once a line is rejected, later lines do not change the outcome |
| CGCounts.ParseSucceedsIffWellFormed | browsecloud-client/src/app/models/cg-counts.ts:36-46 | the file decodes exactly when every non-blank line's first field starts with `id:` and a digit; the failures are 'words.txt improperly formatted.' and the TypeError of indexing a failed `exec` |
| CGCounts.ParsedContents | browsecloud-client/src/app/models/cg-counts.ts:46-68 | word k has a list exactly when some line names id k + 1, and the list is the token counts of the last such line |
| CGCounts.CountTokens | CountingGridsPy/EngineToBrowseCloudPipeline/browseCloudArtifactGenerator.py:220-221 | one token `"<e + 1>:<n>"` per (entry, count) pair written |
| CGCounts.PairCounts | browsecloud-client/src/app/models/cg-counts.ts:58-61 | the (entry, count) pairs as word counts, element by element |
| CGCounts.CountTokensRoundTrip | browsecloud-client/src/app/models/cg-counts.ts:51-66 | the tokens the pipeline writes read back as exactly the pairs written, in order |
| CGCounts.CountsLineRoundTrip | CountingGridsPy/EngineToBrowseCloudPipeline/browseCloudArtifactGenerator.py:220-221 | a written line `id:<z + 1>` with its tokens decodes to word z mapped to exactly those pairs, every other word unchanged |
| CGCounts.NullVersusZero | browsecloud-client/src/app/models/cg-counts.ts:20-28 | a known word without the entry gives 0, an unknown word gives null |
| CGDatabase.PropSet | browsecloud-client/src/app/models/cg-database.ts:40-43 | assigning a property makes it read back the new value, leaves every other property as it was and keeps each key once; under `__proto__` the inherited setter ignores the string and the object is unchanged |
| CGDatabase.PropDelete | browsecloud-client/src/app/models/cg-database.ts:64 | deleting a property makes it undefined and leaves every other property as it was |
| CGDatabase.Components | browsecloud-client/src/app/models/cg-database.ts:40-44 | the properties the fields of a line write, in order, each key once |
| CGDatabase.ReadComponents | browsecloud-client/src/app/models/cg-database.ts:41-44 | the loop over a line's fields returns the properties the fields write, a later field with the same key overwriting an earlier one |
| CGDatabase.DeleteAll | browsecloud-client/src/app/models/cg-database.ts:63-65 | after the deletions each listed key is undefined and every other key keeps its value |
| CGDatabase.EntryOf | browsecloud-client/src/app/models/cg-database.ts:53-75 | the extra keys are exactly the line's keys outside id, title, abstract, link, layer, feature and image; `otherFields` is set exactly when there is one, and holds none of the reserved keys |
| CGDatabase.AddAll | browsecloud-client/src/app/models/cg-database.ts:69-73 | adding keys to the insertion-ordered set keeps the earlier columns in place and holds exactly the old columns and the new keys |
| CGDatabase.AddAllUnique | browsecloud-client/src/app/models/cg-database.ts:71 | the column set holds each key once |
| CGDatabase.Database.GetDocEntry | browsecloud-client/src/app/models/cg-database.ts:22-24 | the entry stored under the id, and undefined (never null) when there is none |
| CGDatabase.Record | browsecloud-client/src/app/models/cg-database.ts:68-77 | a kept line stores its entry under its id, changes no other id's lookup, and adds its extra keys to the columns |
| CGDatabase.KeptLine | browsecloud-client/src/app/models/cg-database.ts:36-52 | a line is kept exactly when it is non-blank and has non-empty `id` and `layer` values |
| CGDatabase.ParseDatabase | browsecloud-client/src/app/models/cg-database.ts:30-80 | the loop over the `/\r?\n/` lines returns the line-by-line fold; no line is rejected |
| CGDatabase.ParsedEntries | browsecloud-client/src/app/models/cg-database.ts:53-77 | `getDocEntry(k)` finds an entry exactly when some kept line's id reads as k + 1, and it is the entry of the last such line |
| CGDatabase.ParsedColumns | browsecloud-client/src/app/models/cg-database.ts:62-75 | the extra columns are exactly the non-reserved keys of the kept lines, and never a reserved key nor `__proto__` |
| CGDatabase.FieldRoundTrip | CountingGridsPy/EngineToBrowseCloudPipeline/browseCloudArtifactGenerator.py:108-109 | a written field `column:value` with a colon-free column name reads back that column and the whole value, colons in it included |
| CGDatabase.ComponentsOfWritten | CountingGridsPy/EngineToBrowseCloudPipeline/browseCloudArtifactGenerator.py:105-110 | a line of distinct colon-free columns as the pipeline writes it reads back each column's value, except a `__proto__` column, which is never held |
| CGDatabase.Keys | browsecloud-client/src/app/models/cg-database.ts:68 | `Object.keys` lists exactly the keys the object holds after the deletions |
| CGMappings.Mappings.GetMappings | browsecloud-client/src/app/models/cg-mappings.ts:28-30 | a row never allocated is a TypeError; a missing column of an allocated row is undefined; otherwise the cell's list |
| CGMappings.Mappings.GetMappingsCount | browsecloud-client/src/app/models/cg-mappings.ts:32-34 | 0 for a negative row or column; otherwise the length of the cell's list, and a TypeError exactly when that cell does not exist (row 0 and column 0 included) |
| CGMappings.Mappings.GetPositionOfEntry | browsecloud-client/src/app/models/cg-mappings.ts:36-38 | the position recorded for the entry, undefined exactly when none was |
| CGMappings.Mappings.Reorder | browsecloud-client/src/app/models/counting-grid-model.ts:222-223 | sorting the array `getMappings` returned changes that cell's list only, and no entry's position |
| CGMappings.ReadTokens | browsecloud-client/src/app/models/cg-mappings.ts:59-92 | the loop over a line's tokens pushes, in order, the entry of every token with a `digits:weight:digits` match into the line's cell, allocating the row and the cell on first use, and records each as its entry's position |
| CGMappings.ParseMappings | browsecloud-client/src/app/models/cg-mappings.ts:40-94 | the loop over the `/\r?\n/` lines returns the line-by-line fold, stopping at the first rejected line with its error |
| CGMappings.ErrorPersists | browsecloud-client/src/app/models/cg-mappings.ts:52-57 | once a line is rejected, later lines do not change the outcome |
| CGMappings.ParseSucceedsIffWellFormed | browsecloud-client/src/app/models/cg-mappings.ts:46-57 | the file decodes exactly when every non-blank line has two fields starting `row:` and `col:`, each followed by a digit; the failures are 'docmap.txt improperly formatted.' and the TypeError of indexing a failed `exec` |
| CGMappings.AddEntryEffect | browsecloud-client/src/app/models/cg-mappings.ts:75-83 | one push appends the entry to its own cell only, allocating that row and cell if needed |
| CGMappings.AddTokensCells | browsecloud-client/src/app/models/cg-mappings.ts:61-83 | a line's matching entries are appended, in order, to the line's cell only, and a row or cell is created only when an entry lands in it |
| CGMappings.AddTokensPositions | browsecloud-client/src/app/models/cg-mappings.ts:85-89 | each appended entry's position becomes the line's cell with its weight, the last token for an id winning; other ids keep theirs |
| CGMappings.ParsedCells | browsecloud-client/src/app/models/cg-mappings.ts:28-30 | after decoding, `getMappings(row, col)` is a TypeError exactly when no entry was placed in the row, undefined exactly when the row has entries but this cell none, and otherwise every entry placed in the cell in file order |
| CGMappings.ParsedPositions | browsecloud-client/src/app/models/cg-mappings.ts:85-89 | after decoding, `getPositionOfEntry` is the cell and weight of the entry's last token in the file, undefined when it has none |
| CGMappings.ParsedConsistent | browsecloud-client/src/app/models/cg-mappings.ts:83-89 | every recorded position names a cell whose list holds that entry with that weight |
| CGMappings.WrittenTokensRoundTrip | CountingGridsPy/EngineToBrowseCloudPipeline/browseCloudArtifactGenerator.py:179-180 | the tokens `id + 1:weight:layer` the pipeline writes read back as those entries, in order, the weight through `parseFloat` and the layer less one |
| CGMappings.MappingsLineRoundTrip | CountingGridsPy/EngineToBrowseCloudPipeline/browseCloudArtifactGenerator.py:179-180 | a written line, trailing empty field included, is accepted and appends exactly its written entries to cell (r, c) |
| CGTopGrid.TopGrid.RowLength | browsecloud-client/src/app/models/cg-top-grid.ts:35-37 | the grid array's length |
| CGTopGrid.TopGrid.ColumnLength | browsecloud-client/src/app/models/cg-top-grid.ts:39-44 | 0 for an empty grid; otherwise the length of row 1, a TypeError exactly when row 1 was never allocated |
| CGTopGrid.TopGrid.GetWordEntryList | browsecloud-client/src/app/models/cg-top-grid.ts:50-52 | a row never allocated is a TypeError; a missing cell of an allocated row is undefined; otherwise the cell's list |
| CGTopGrid.TopGrid.GetWordProbability | browsecloud-client/src/app/models/cg-top-grid.ts:46-48 | the weight of the cell's first entry for the word; a TypeError exactly when the cell is missing or holds no such entry |
| CGTopGrid.TopGrid.IsInBounds | browsecloud-client/src/app/models/cg-top-grid.ts:54-56 | false unless 1 ≤ row ≤ rowLength and col ≥ 1; then col ≤ columnLength, whose TypeError surfaces only in that case |
| CGTopGrid.FirstWeight | browsecloud-client/src/app/models/cg-top-grid.ts:47 | nothing exactly when no entry has the word id |
| CGTopGrid.FirstWeightFirst | browsecloud-client/src/app/models/cg-top-grid.ts:47 | the weight found is that of the first entry with the word id |
| CGTopGrid.TokenWord | browsecloud-client/src/app/models/cg-top-grid.ts:83-94 | a token yields a word only when its weight exceeds `piThreshhold` (0.0001) |
| CGTopGrid.KeptWords | browsecloud-client/src/app/models/cg-top-grid.ts:82-94 | every word kept from a line's tokens weighs more than the threshold |
| CGTopGrid.ReadTokens | browsecloud-client/src/app/models/cg-top-grid.ts:80-123 | the loop over a line's tokens adds the kept words in order and stops at the first word the lexicon does not know |
| CGTopGrid.ReadToken | browsecloud-client/src/app/models/cg-top-grid.ts:83-122 | one token of the inner `forEach` adds its word when the token is kept and changes nothing otherwise |
| CGTopGrid.KeptWordsPrefix | browsecloud-client/src/app/models/cg-top-grid.ts:82-123 | the words kept from the first k tokens begin the words kept from all tokens |
| CGTopGrid.WordErrorPersists | browsecloud-client/src/app/models/cg-top-grid.ts:110 | once a word fails the lexicon lookup, later words do not change the outcome |
| CGTopGrid.ParseTopPi | browsecloud-client/src/app/models/cg-top-grid.ts:58-125 | the loop over the `/\r?\n/` lines returns the line-by-line fold, stopping at the first rejected line with its error |
| CGTopGrid.ErrorPersists | browsecloud-client/src/app/models/cg-top-grid.ts:73-78 | once a line is rejected, later lines do not change the outcome |
| CGTopGrid.AddWordOk | browsecloud-client/src/app/models/cg-top-grid.ts:105-111 | one kept word is added exactly when the lexicon has its id, a TypeError otherwise |
| CGTopGrid.AddWordsOk | browsecloud-client/src/app/models/cg-top-grid.ts:82-123 | a line's kept words are added exactly when the lexicon knows each of them, a TypeError otherwise |
| CGTopGrid.ParseSucceedsIffWellFormed | browsecloud-client/src/app/models/cg-top-grid.ts:66-124 | the file decodes exactly when every non-blank line has `row:` and `col:` fields each followed by a digit and every kept word is in the lexicon; the failures are 'Top_pi.txt improperly formatted.' and TypeError |
| CGTopGrid.AddWordExtremes | browsecloud-client/src/app/models/cg-top-grid.ts:113-119 | one kept word keeps every tag within [`minWeight`, `maxWeight`], each extreme being its start value or some tag's weight |
| CGTopGrid.AddWordsExtremes | browsecloud-client/src/app/models/cg-top-grid.ts:82-123 | a line's kept words keep the same extremes invariant |
| CGTopGrid.ParsedExtremes | browsecloud-client/src/app/models/cg-top-grid.ts:63-119 | after decoding, every tag lies above the threshold and within [`minWeight`, `maxWeight`]; `maxWeight` is 0 or a tag's weight, `minWeight` 1 or a tag's weight |
| CGTopGrid.AddWordValid | browsecloud-client/src/app/models/cg-top-grid.ts:95-103 | allocating and pushing by index keeps every array's length one more than its highest index in use |
| CGTopGrid.AddWordsValid | browsecloud-client/src/app/models/cg-top-grid.ts:82-123 | a line's words keep the array lengths right |
| CGTopGrid.ParsedGridValid | browsecloud-client/src/app/models/cg-top-grid.ts:35-44 | after decoding, `rowLength` and each row's length are those of arrays written by index, so `isInBounds` is read against them |
| CGTopGrid.AddWordCells | browsecloud-client/src/app/models/cg-top-grid.ts:95-103 | one push appends the word to its own cell only |
| CGTopGrid.AddWordConsistent | browsecloud-client/src/app/models/cg-top-grid.ts:103-111 | one kept word keeps every tag consistent with its cell and the lexicon |
| CGTopGrid.AddWordsConsistent | browsecloud-client/src/app/models/cg-top-grid.ts:82-123 | a line's words keep the tags consistent |
| CGTopGrid.ParsedConsistent | browsecloud-client/src/app/models/cg-top-grid.ts:103-111 | after decoding, each word tag's cell holds its word with its weight, and its text is the lexicon's word for its id |
| CGTopGrid.AddWordsCells | browsecloud-client/src/app/models/cg-top-grid.ts:95-103 | a line's words are appended, in order, to the line's cell only, and a row or cell is created only when a word lands in it |
| CGTopGrid.ParsedCells | browsecloud-client/src/app/models/cg-top-grid.ts:50-52 | after decoding, `getWordEntryList` is a TypeError exactly when no word was kept in the row, undefined when the row has words but the cell none, and otherwise every word kept in the cell in file order |
| CGTopGrid.WordToken | CountingGridsPy/EngineToBrowseCloudPipeline/browseCloudArtifactGenerator.py:61-62 | a written `"%1d:%1.3f"` token is kept exactly when its weight exceeds the threshold, and then carries that word and weight |
| CGTopGrid.WrittenTokensRoundTrip | CountingGridsPy/EngineToBrowseCloudPipeline/browseCloudArtifactGenerator.py:61-62 | the written tokens read back as the written words above the threshold, in order |
| CGTopGrid.TopPiLineRoundTrip | CountingGridsPy/EngineToBrowseCloudPipeline/browseCloudArtifactGenerator.py:61-62 | a written line names its cell and adds to it exactly the written words above the threshold, in order |
| CGTopGridLayers.TopGridLayers.GetWordEntryList | browsecloud-client/src/app/models/cg-top-grid-layers.ts:32-34 | a missing layer or row is a TypeError; a missing cell of an allocated row is undefined; otherwise the cell's list |
| CGTopGridLayers.TopGridLayers.GetWordProbability | browsecloud-client/src/app/models/cg-top-grid-layers.ts:28-30 | the weight of the cell's first entry for the word; a TypeError exactly when the cell is missing or holds no such entry |
| CGTopGridLayers.ReadTokens | browsecloud-client/src/app/models/cg-top-grid-layers.ts:59-90 | the loop over a line's tokens pushes, in order, every word above the threshold into the line's cell, allocating the layer, row and cell on first use |
| CGTopGridLayers.ParseTopPiLayers | browsecloud-client/src/app/models/cg-top-grid-layers.ts:36-92 | the loop over the `/\r?\n/` lines returns the line-by-line fold, stopping at the first rejected line with its error |
| CGTopGridLayers.ReadLine | browsecloud-client/src/app/models/cg-top-grid-layers.ts:41-90 | the loop body for one line computes that line's step of the fold |
| CGTopGridLayers.ErrorPersists | browsecloud-client/src/app/models/cg-top-grid-layers.ts:47-57 | once a line is rejected, later lines do not change the outcome |
| CGTopGridLayers.ParseSucceedsIffWellFormed | browsecloud-client/src/app/models/cg-top-grid-layers.ts:41-57 | the file decodes exactly when every non-blank line has `layer:`, `row:` and `col:` fields each followed by a digit; the failures are 'Top_pi_layers.txt improperly formatted.' and TypeError |
| CGTopGridLayers.PushEffectCompose | browsecloud-client/src/app/models/cg-top-grid-layers.ts:86 | two pushes to the same cell push the words of both, in order |
| CGTopGridLayers.AddWordCells | browsecloud-client/src/app/models/cg-top-grid-layers.ts:74-86 | one push appends the word to its own cell only, creating its layer, row and cell if needed |
| CGTopGridLayers.AddWordsCells | browsecloud-client/src/app/models/cg-top-grid-layers.ts:61-90 | a line's kept words are appended, in order, to the line's cell only |
| CGTopGridLayers.CellsOfParsed | browsecloud-client/src/app/models/cg-top-grid-layers.ts:40-91 | after decoding, a layer, a row and a cell exist exactly when some line kept a word in them, and each cell holds all words kept there in file order |
| CGTopGridLayers.ParsedCells | browsecloud-client/src/app/models/cg-top-grid-layers.ts:32-34 | after decoding, `getWordEntryList` is a TypeError exactly when no word was kept in that row of that layer, undefined when the row has words but the cell none, and otherwise every word kept in the cell |
| CGTopGridLayers.AddWordValid | browsecloud-client/src/app/models/cg-top-grid-layers.ts:74-86 | allocating and pushing by index keeps every array's length one more than its highest index in use |
| CGTopGridLayers.AddWordsValid | browsecloud-client/src/app/models/cg-top-grid-layers.ts:61-90 | a line's words keep the array lengths right |
| CGTopGridLayers.ParsedLayersValid | browsecloud-client/src/app/models/cg-top-grid-layers.ts:36-92 | after decoding, every level's length is that of an array written by index |
| CGTopGridLayers.ParsedLayerLength | browsecloud-client/src/app/models/cg-top-grid-layers.ts:24-26 | after decoding, `layerLength` is the highest layer number in which a word was kept, and 0 when there is none |
| CGTopGridLayers.LayersLineRoundTrip | CountingGridsPy/EngineToBrowseCloudPipeline/browseCloudArtifactGenerator.py:91-92 | a written line names its layer, row and column and adds to that cell exactly the written words above the threshold, in order |
| CGRanking.Leading | browsecloud-client/src/app/models/counting-grid-model.ts:154-156 | the elements a `forEach` guarded by `wordIndex < maxWordsInSearch` acts on: the first k, in order (all of them when there are fewer) |
| CGRanking.Occurrences | browsecloud-client/src/app/models/counting-grid-model.ts:157 | how often an entry id is listed in the cell; 0 exactly when it is not listed |
| CGRanking.AtCell | browsecloud-client/src/app/models/counting-grid-model.ts:148-149 | the filter keeps only tags at the cell, every tag at the cell, and never more tags than it is given |
| CGRanking.AtCellSound | browsecloud-client/src/app/models/counting-grid-model.ts:149 | the filter keeps only tags it was given |
| CGRanking.PointTags | browsecloud-client/src/app/models/counting-grid-model.ts:148-150 | definition of `wordTagsForPoint`; its meaning is stated by CGRanking.PointTagsMeaning |
| CGRanking.PointTagsMeaning | browsecloud-client/src/app/models/counting-grid-model.ts:148-150 | `wordTagsForPoint` holds exactly the tags at the cell, in ascending weight |
| CGRanking.AtCellSingle | browsecloud-client/src/app/models/counting-grid-model.ts:148-149 | a single tag is kept exactly when it sits at the cell |
| CGRanking.AtCellAppend | browsecloud-client/src/app/models/counting-grid-model.ts:148-149 | the filter distributes over concatenation, so it keeps the tags at the cell in their order and with their multiplicity |
| CGRanking.AddLayers | browsecloud-client/src/app/models/counting-grid-model.ts:160-170 | the layer loop succeeds exactly when every layer 1 to `layerLength` holds the word at the cell; otherwise the failed `find` is a TypeError |
| CGRanking.AddLayersNext | browsecloud-client/src/app/models/counting-grid-model.ts:161-169 | one more layer adds its probability to the document's vote and lifts the maximum past it, or fails |
| CGRanking.AddLayersWeight | browsecloud-client/src/app/models/counting-grid-model.ts:160-170 | only the document's own vote moves, by the word's probability summed over the layers |
| CGRanking.DocVotesWeight | browsecloud-client/src/app/models/counting-grid-model.ts:157-172 | for one tag, a document's vote grows by the word's summed layer probabilities once per listing when it uses the word (a positive count), and not otherwise |
| CGRanking.DocVotesOk | browsecloud-client/src/app/models/counting-grid-model.ts:157-172 | one tag's pass fails exactly when a document using its word meets a layer without that word at the cell |
| CGRanking.TagVotesWeight | browsecloud-client/src/app/models/counting-grid-model.ts:154-174 | a document's vote is, per listing, the summed layer probabilities of the leading tags' words it uses |
| CGRanking.TagVotes | browsecloud-client/src/app/models/counting-grid-model.ts:154-174 | the search votes fail only with a TypeError; their meaning is stated by CGRanking.TagVotesWeight, CGRanking.TagVotesOk and CGRanking.TagVotesBounded |
| CGRanking.TagVotesOk | browsecloud-client/src/app/models/counting-grid-model.ts:154-174 | the search votes fail exactly when a document using one of the leading words meets a layer without it |
| CGRanking.AddLayersBounded | browsecloud-client/src/app/models/counting-grid-model.ts:167-169 | `maxDocWeight` stays at least 0 and at least every vote |
| CGRanking.DocVotesBounded | browsecloud-client/src/app/models/counting-grid-model.ts:157-172 | one tag's pass keeps `maxDocWeight` above every vote |
| CGRanking.TagVotesBounded | browsecloud-client/src/app/models/counting-grid-model.ts:152-174 | after all leading tags, `maxDocWeight` is at least 0 and at least every document's vote, so a share is at most 1 |
| CGRanking.LayersLoop | browsecloud-client/src/app/models/counting-grid-model.ts:160-170 | the `for (lay …)` loop computes the layer fold, stopping at the first missing layer with a TypeError |
| CGRanking.DocsLoop | browsecloud-client/src/app/models/counting-grid-model.ts:157-172 | the `docList.forEach` for one tag computes the fold over the documents |
| CGRanking.TagsLoop | browsecloud-client/src/app/models/counting-grid-model.ts:154-174 | the `wordTagsForPoint.forEach` computes the fold over the leading tags |
| CGRanking.UsedCount | browsecloud-client/src/app/models/counting-grid-model.ts:176-188 | the number of search words a document uses is at most the number of search words |
| CGRanking.DocHitsCount | browsecloud-client/src/app/models/counting-grid-model.ts:177-187 | one search word adds to a document's count once per listing when the document uses it |
| CGRanking.HitsCount | browsecloud-client/src/app/models/counting-grid-model.ts:176-188 | `docWeightsSearch` of a document is the number of search words it uses, times its listings |
| CGRanking.Hits | browsecloud-client/src/app/models/counting-grid-model.ts:176-188 | definition of `docWeightsSearch`; its meaning is stated by CGRanking.HitsCount |
| CGRanking.DocHitsLoop | browsecloud-client/src/app/models/counting-grid-model.ts:177-187 | the inner `docList.forEach` computes one search word's counts |
| CGRanking.HitsLoop | browsecloud-client/src/app/models/counting-grid-model.ts:176-188 | the `searchWordIds.forEach` computes `docWeightsSearch` |
| CGRanking.PlainDocVotesWeight | browsecloud-client/src/app/models/counting-grid-model.ts:203-212 | for one top grid entry, a document's weight grows by the word's top grid probability at the cell once per listing when it uses the word |
| CGRanking.PlainDocVotesOk | browsecloud-client/src/app/models/counting-grid-model.ts:203-212 | one entry's pass fails exactly when a document uses a word `getWordProbability` cannot find at the cell |
| CGRanking.PlainVotesOk | browsecloud-client/src/app/models/counting-grid-model.ts:200-214 | the plain weights fail exactly when a document uses one of the leading words and the top grid lacks it at the cell |
| CGRanking.PlainVotes | browsecloud-client/src/app/models/counting-grid-model.ts:200-214 | the plain weights fail only with a TypeError; their meaning is stated by CGRanking.PlainVotesWeight and CGRanking.PlainVotesOk |
| CGRanking.PlainDocStep | browsecloud-client/src/app/models/counting-grid-model.ts:203-212 | the loop body for one document computes its step of one entry's fold |
| CGRanking.PlainVotesWeight | browsecloud-client/src/app/models/counting-grid-model.ts:200-214 | a document's weight is, per listing, the top grid probabilities of the leading words it uses |
| CGRanking.PlainDocsLoop | browsecloud-client/src/app/models/counting-grid-model.ts:203-212 | the inner `docList.forEach` computes one entry's fold, stopping at the first TypeError |
| CGRanking.PlainEntriesLoop | browsecloud-client/src/app/models/counting-grid-model.ts:200-214 | the `getWordEntryList(row, col).forEach` computes the fold over the leading entries |
| CGRanking.SearchScore | browsecloud-client/src/app/models/counting-grid-model.ts:191-194 | the final weight is a number exactly when the mapping weight is one and `maxDocWeight` is not 0; NaN exactly for a NaN weight or 0/0, or ∞ times 0 |
| CGRanking.PlainScore | browsecloud-client/src/app/models/counting-grid-model.ts:217-218 | the final weight is a number exactly when the mapping weight is one, and never infinite |
| CGRanking.SearchFinals | browsecloud-client/src/app/models/counting-grid-model.ts:190-195 | every listed document gets a final weight; a document listed twice keeps its last listing's |
| CGRanking.PlainFinals | browsecloud-client/src/app/models/counting-grid-model.ts:216-219 | every listed document gets a final weight; a document listed twice keeps its last listing's |
| CGRanking.SearchFinalsLoop | browsecloud-client/src/app/models/counting-grid-model.ts:190-195 | the final `docList.forEach` computes `docFinalWeights` with search words |
| CGRanking.PlainFinalsLoop | browsecloud-client/src/app/models/counting-grid-model.ts:216-219 | the final `docList.forEach` computes `docFinalWeights` without search words |
| CGRanking.Ranked | browsecloud-client/src/app/models/counting-grid-model.ts:222-225 | the sort is determined exactly when all weights are numbers or all are NaN; it is a permutation of the cell, and all-NaN leaves the order as it was |
| CGRanking.RankedDescending | browsecloud-client/src/app/models/counting-grid-model.ts:223-225 | with numeric weights the documents come out highest weight first |
| CGRanking.Entries | browsecloud-client/src/app/models/counting-grid-model.ts:226-230 | the database entries of the first `maxDocuments` (100) ranked documents, in order |
| CGRanking.SearchRanking | browsecloud-client/src/app/models/counting-grid-model.ts:143-195 | the ranking with search words fails only with a TypeError |
| CGRanking.PlainRanking | browsecloud-client/src/app/models/counting-grid-model.ts:196-220 | the ranking without search words fails only with a TypeError, among others when the top grid lacks the cell |
| CGRanking.ComputeSearchRanking | browsecloud-client/src/app/models/counting-grid-model.ts:143-195 | the search branch's loops compute the search ranking |
| CGRanking.ComputePlainRanking | browsecloud-client/src/app/models/counting-grid-model.ts:196-220 | the plain branch's loops compute the plain ranking |
| CGRanking.SearchScoreMeaning | browsecloud-client/src/app/models/counting-grid-model.ts:143-195 | with search words, a document's final weight is (search words it uses × listings) × mapping weight × its vote over `maxDocWeight`, its vote being what the deeper layers give the leading tags' words it uses, and at most the maximum |
| CGRanking.PlainScoreMeaning | browsecloud-client/src/app/models/counting-grid-model.ts:196-219 | without search words, a document's final weight is its mapping weight times what the top grid gives the cell's leading words it uses, once per listing |
| CountingGridSearch.TopGridTags | browsecloud-client/src/app/models/counting-grid-model.ts:280-286 | without search words the tags, `minWeight` and `maxWeight` are the top grid's own |
| CountingGridSearch.WordTerm | browsecloud-client/src/app/models/counting-grid-model.ts:313-315 | one search word adds at most 25 (`min(25, 20 + count − 1)`) and counts as used unless its count is exactly 0; a null count counts as used |
| CountingGridSearch.SearchWeight | browsecloud-client/src/app/models/counting-grid-model.ts:310-316 | a document's weight is at most 25 per search word, its count of used words at most the number of words, and that count is 0 exactly when every word's count is 0 |
| CountingGridSearch.MappingWeight | browsecloud-client/src/app/models/counting-grid-model.ts:312-316 | the inner `searchWordIds.forEach` computes the document's weight and count |
| CountingGridSearch.CellLayered | browsecloud-client/src/app/models/counting-grid-model.ts:309-320 | a cell's vote vector has one slot per layer, each the sum over the documents assigned in that layer (a document using no search word adds 0); a document whose layer has no slot is a TypeError |
| CountingGridSearch.CellWeights | browsecloud-client/src/app/models/counting-grid-model.ts:309-320 | the `docMappings.forEach` of one cell computes its vote vector |
| CountingGridSearch.CellVector | browsecloud-client/src/app/models/counting-grid-model.ts:307-320 | a weighted cell has one vote per layer; a missing mappings row or cell list is a TypeError |
| CountingGridSearch.LayersMax | browsecloud-client/src/app/models/counting-grid-model.ts:322-326 | the running maximum is at least its start and every vote of the cell, and is its start or one of the votes |
| CountingGridSearch.RaiseMax | browsecloud-client/src/app/models/counting-grid-model.ts:322-326 | the `for (lay …)` loop computes that maximum |
| CountingGridSearch.ColsMax | browsecloud-client/src/app/models/counting-grid-model.ts:306-327 | the maximum after a row's first c cells succeeds exactly when each of them can be weighted, fails only with a TypeError, and is at least the maximum it starts from |
| CountingGridSearch.RowsMax | browsecloud-client/src/app/models/counting-grid-model.ts:302-328 | `maxLayeredWeight` fails only with a TypeError and is at least its initial 0 |
| CountingGridSearch.CellStep | browsecloud-client/src/app/models/counting-grid-model.ts:307-320 | the loop body for one cell computes its votes |
| CountingGridSearch.RowsMaxOk | browsecloud-client/src/app/models/counting-grid-model.ts:302-328 | `maxLayeredWeight` is computed exactly when every cell of the first r rows can be weighted |
| CountingGridSearch.RowsMaxFails | browsecloud-client/src/app/models/counting-grid-model.ts:302-309 | once a row throws, the whole double loop throws the TypeError |
| CountingGridSearch.RowWeights | browsecloud-client/src/app/models/counting-grid-model.ts:306-327 | the inner `for (col …)` loop computes the row's maximum, keeps every cell's votes, and that maximum is at least its start and bounds every vote of the row |
| CountingGridSearch.ColsMaxStep | browsecloud-client/src/app/models/counting-grid-model.ts:306-326 | one more cell lifts the maximum by its own votes |
| CountingGridSearch.ColsMaxFails | browsecloud-client/src/app/models/counting-grid-model.ts:307-309 | a cell that cannot be weighted fails the whole row |
| CountingGridSearch.LayeredWeights | browsecloud-client/src/app/models/counting-grid-model.ts:294-328 | the first double loop computes `maxLayeredWeight` and keeps the votes of every cell; the maximum is at least 0 and bounds every vote of the grid |
| CountingGridSearch.EntriesTags | browsecloud-client/src/app/models/counting-grid-model.ts:340-362 | one layer's entries add their tags exactly when every entry above the threshold after rescaling names a lexicon word; otherwise a TypeError |
| CountingGridSearch.SearchWeightOf | browsecloud-client/src/app/models/counting-grid-model.ts:341 | definition of the rescaled weight, NaN when `maxLayeredWeight` is 0; its meaning is stated by CountingGridSearch.EntriesTagsKept |
| CountingGridSearch.EntriesTagsKept | browsecloud-client/src/app/models/counting-grid-model.ts:340-362 | a layer's pass keeps the tags found so far, and every entry whose rescaled weight passes the threshold becomes a tag at the cell, named from the lexicon and carrying that weight |
| CountingGridSearch.EntriesTagsPrefix | browsecloud-client/src/app/models/counting-grid-model.ts:340-362 | a layer's pass only appends tags |
| CountingGridSearch.EntryTags | browsecloud-client/src/app/models/counting-grid-model.ts:340-362 | the `getWordEntryList(lay, row, col).forEach` computes those tags |
| CountingGridSearch.LaysTags | browsecloud-client/src/app/models/counting-grid-model.ts:339-363 | a cell's layers 1 to l add their tags exactly when each of those layers exists at the cell and names only known words |
| CountingGridSearch.ColsTags | browsecloud-client/src/app/models/counting-grid-model.ts:338-364 | a row's first c cells add their tags exactly when every layer of each is readable |
| CountingGridSearch.RowsTags | browsecloud-client/src/app/models/counting-grid-model.ts:337-365 | the first r rows add their tags exactly when every layer of every cell is readable |
| CountingGridSearch.CellTags | browsecloud-client/src/app/models/counting-grid-model.ts:339-363 | the `for (lay …)` loop of one cell computes its tags |
| CountingGridSearch.LayerTags | browsecloud-client/src/app/models/counting-grid-model.ts:340-362 | the loop body for one layer computes that layer's step of the cell's tags |
| CountingGridSearch.RowTags | browsecloud-client/src/app/models/counting-grid-model.ts:338-364 | the `for (col …)` loop of one row computes its tags |
| CountingGridSearch.ColsErrorPersists | browsecloud-client/src/app/models/counting-grid-model.ts:338-364 | a failed cell fails the rest of its row |
| CountingGridSearch.RowsErrorPersists | browsecloud-client/src/app/models/counting-grid-model.ts:337-365 | a failed row fails the rest of the grid |
| CountingGridSearch.SearchTagsOf | browsecloud-client/src/app/models/counting-grid-model.ts:330-365 | the second triple loop computes the rescaled tags, row by row, column by column, layer by layer |
| CountingGridSearch.AddTagHolds | browsecloud-client/src/app/models/counting-grid-model.ts:343-360 | one kept tag keeps the tags above the threshold, within the extremes, in the grid and named from the lexicon |
| CountingGridSearch.EntriesTagsHold | browsecloud-client/src/app/models/counting-grid-model.ts:340-362 | one layer's tags keep that invariant |
| CountingGridSearch.LaysTagsHold | browsecloud-client/src/app/models/counting-grid-model.ts:339-363 | one cell's tags keep it |
| CountingGridSearch.ColsTagsHold | browsecloud-client/src/app/models/counting-grid-model.ts:338-364 | one row's tags keep it |
| CountingGridSearch.RowsTagsHold | browsecloud-client/src/app/models/counting-grid-model.ts:337-365 | the tags of the first r rows keep it |
| CountingGridSearch.SearchTags | browsecloud-client/src/app/models/counting-grid-model.ts:294-370 | a search fails only with a TypeError |
| CountingGridSearch.SearchTagsHold | browsecloud-client/src/app/models/counting-grid-model.ts:330-370 | every tag of a search lies above the threshold, between `minWeight` and `maxWeight`, at a cell of the grid, and names the lexicon's word for its id; `maxWeight` is 0 or a tag's weight and `minWeight` 1 or a tag's weight |
| CountingGridSearch.ComputeSearchTags | browsecloud-client/src/app/models/counting-grid-model.ts:293-365 | the cache-miss path of `getWordTags` computes the search tags |
| CGView.WindowStart | browsecloud-client/src/app/models/counting-grid-model.ts:242-245 | `minY` (or `minX`), one line before the first drawn one, with the host's truncating `%` and the wrap `m > 0 ? m : m + n`, lies in 1 .. n |
| CGView.Steps | browsecloud-client/src/app/models/counting-grid-model.ts:258-269 | the number of `(x + 1) % n` steps from a to b, between 1 and n; its meaning is stated by CGView.FirstStep, CGView.StepAdvance and CGView.StepsInjective |
| CGView.Terminates | browsecloud-client/src/app/models/counting-grid-model.ts:258-269 | definition: the do-while loops reach their bounds; its meaning is stated by CGView.ConstructVisibility |
| CGView.Shown | browsecloud-client/src/app/models/counting-grid-model.ts:258-269 | definition of the cells the loops mark; its meaning is stated by CGView.ConstructVisibility and CGView.MeetingBoundsShowAll |
| CGView.WindowEnd | browsecloud-client/src/app/models/counting-grid-model.ts:248-251 | `maxY` (or `maxX`), one line after the last drawn one, wrapped the same way, lies in 1 .. n |
| CGView.MarkColumn | browsecloud-client/src/app/models/counting-grid-model.ts:261-267 | the inner do-while sets column x of exactly the rows from `minY` round the cycle 0 .. R to `maxY`, and changes nothing else |
| CGView.ConstructVisibility | browsecloud-client/src/app/models/counting-grid-model.ts:233-277 | a fresh (R + 1) × (C + 1) table: all true at zoom ≤ 1.5; above it, exactly the columns after `minX` round to `maxX` crossed with the rows from `minY` round to `maxY`; a TypeError exactly when zoomed in on an empty grid or a zero row distance |
| CGView.WindowHoldsBounds | browsecloud-client/src/app/models/counting-grid-model.ts:241-251 | the window holds the cells of both wrapped bounds (the column `minX` itself only when the walk goes once round); at zoom ≤ 1.5 every cell is shown |
| CGView.MeetingBoundsShowAll | browsecloud-client/src/app/models/counting-grid-model.ts:258-269 | when the wrapped bounds meet, the do-whiles go once round and every cell is shown |
| CGView.ScaledWeight | browsecloud-client/src/app/models/counting-grid-model.ts:98-105 | NaN exactly when the extremes are equal; between the extremes the weight lies in [0, 1], and above the minimum it is positive |
| CGView.Position | browsecloud-client/src/app/models/counting-grid-model.ts:111-123 | defined exactly when the word has a random offset and the extent is not 0; on a positive extent it lies in (−1, extent], and in [0, extent] when the extent is whole |
| CGView.LabelOf | browsecloud-client/src/app/models/counting-grid-model.ts:100-126 | a tag whose row is outside the table is a TypeError; a label, when drawn, carries the tag's word at a shown cell with a non-zero scaled weight and the cell's color |
| CGView.Labels | browsecloud-client/src/app/models/counting-grid-model.ts:100-127 | the labels succeed exactly when every tag's row lies inside the table, and are at most one per tag |
| CGView.CollectLabels | browsecloud-client/src/app/models/counting-grid-model.ts:100-127 | the `wordTags.forEach` reading the visibility table computes the labels |
| CGView.GridData | browsecloud-client/src/app/models/counting-grid-model.ts:86-131 | the scaled grid data succeeds exactly when every tag's row is in the table, and carries the row and column distances |
| CGView.LabelsFromShownTags | browsecloud-client/src/app/models/counting-grid-model.ts:100-126 | every label was drawn for some tag at a shown cell; with the tags between the extremes each scaled weight lies in (0, 1], and is NaN exactly when the extremes are equal |
| CGView.GridDataOrdered | browsecloud-client/src/app/models/counting-grid-model.ts:129 | the labels come out in ascending scaled weight as a permutation of those drawn; with equal extremes the tag order is kept |
| CGView.LabelsWeightless | browsecloud-client/src/app/models/counting-grid-model.ts:105 | with equal extremes every label's weight is NaN, so the comparator treats all labels alike |
| CGModel.DecodeAll | browsecloud-client/src/app/models/counting-grid-model.ts:56-74 | the decoders run in the constructor's order and the first that throws decides the error; a model that decodes has a valid grid (extremes, consistency with the lexicon) and the colors and database as their decoders give them |
| CGModel.Offsets | browsecloud-client/src/app/models/counting-grid-model.ts:75 | one offset per lexicon word, each `floor(random · 15)`, so in 0 .. 14 |
| CGModel.AtLeastOne | browsecloud-client/src/app/models/counting-grid-model.ts:86-87 | `Math.max(n, 1)`: at least 1, and n itself when n is positive |
| CGModel.CountingGridModel.Src | browsecloud-client/src/app/models/counting-grid-model.ts:42-49 | the artifacts a search reads are the model's own vocabulary, grid and mappings |
| CGModel.CountingGridModel.constructor | browsecloud-client/src/app/models/counting-grid-model.ts:56-76 | the fields hold the decoded artifacts and the offsets, and the search cache starts empty |
| CGModel.CountingGridModel.Create | browsecloud-client/src/app/models/counting-grid-model.ts:56-76 | the construction succeeds exactly when every decoder does, failing with the first decoder's error; a new model is valid, holds the decoded artifacts, one offset per lexicon word, and an empty cache |
| CGModel.CountingGridModel.GetWordTags | browsecloud-client/src/app/models/counting-grid-model.ts:279-371 | the top grid's tags for no search words, the cached tags for a repeated search, otherwise a fresh search that is stored once it succeeds; a repeated call gives the same answer, cached tags hold on the grid, and a failure is a TypeError that caches nothing |
| CGModel.CountingGridModel.WordTagsOf | browsecloud-client/src/app/models/counting-grid-model.ts:279-371 | definition of the tags for a list of search words; its meaning is stated by CGModel.CountingGridModel.GetWordTags |
| CGModel.CountingGridModel.SceneFor | browsecloud-client/src/app/models/counting-grid-model.ts:86-87 | the row distance times `max(rowLength, 1)` is the height, and the column distance times `max(columnLength, 1)` is the width |
| CGModel.CountingGridModel.GetScaledGridData | browsecloud-client/src/app/models/counting-grid-model.ts:78-132 | the distances, the visible labels with a non-zero scaled weight sorted by that weight, as the current state gives them; a TypeError when the grid has no column length, the visibility walk fails or the search fails; the search's tags are cached only when the drawing reaches `getWordTags`, and the mappings are untouched |
| CGModel.CountingGridModel.GridDataFor | browsecloud-client/src/app/models/counting-grid-model.ts:78-132 | definition of the scaled grid data; its meaning is stated by CGModel.CountingGridModel.GetScaledGridData |
| CGModel.CountingGridModel.RankCell | browsecloud-client/src/app/models/counting-grid-model.ts:134-219 | the cell's list and its ranking by search or by plain word weight, as the current state gives them; a missing cell or a failed search is a TypeError; the mappings are untouched |
| CGModel.CountingGridModel.CellRanking | browsecloud-client/src/app/models/counting-grid-model.ts:134-219 | definition of a cell's ranking; its meaning is stated by CGModel.CountingGridModel.RankCell |
| CGModel.CountingGridModel.GetDocumentEntryList | browsecloud-client/src/app/models/counting-grid-model.ts:134-231 | no entries without a point; otherwise succeeds exactly when the cell can be ranked, sorts that cell's list in place into a permutation of itself (the ranking when it is determined), touches no other cell, and returns the database entries of the first 100 documents of the sorted list; a failure is a TypeError that leaves the mappings as they were |
| Js.JsArray.Get | browsecloud-client/src/app/models/cg-top-grid.ts:36-43 | an index read finds exactly the slots written, and what was written there |
| Js.JsArray.Set | browsecloud-client/src/app/models/cg-top-grid.ts:95-103 | an index write stores the value there and lifts `length` to one past the index when the index is at or beyond it |
| Js.SetKeepsValid | browsecloud-client/src/app/models/cg-top-grid.ts:95-103 | after any index write `length` is still one past the highest index written |
| Js.EmptyArray | browsecloud-client/src/app/models/cg-color.ts:28 | `[]` has no slots and length 0 |
| Js.TrimStart | browsecloud-client/src/app/models/cg-database.ts:55-57 | `trim` drops exactly the leading white space and line terminators |
| Js.TrimEnd | browsecloud-client/src/app/models/cg-database.ts:55-57 | `trim` drops exactly the trailing white space and line terminators |
| Js.Trim | browsecloud-client/src/app/models/cg-counts.ts:36 | definition of `trim()`; its meaning is stated by Js.TrimStart, Js.TrimEnd and Js.TrimIsEmptyIffBlank |
| Js.TrimIsEmptyIffBlank | browsecloud-client/src/app/models/cg-counts.ts:36 | `line.trim() === ''` holds exactly when every character of the line is white space |
| Js.Split | browsecloud-client/src/app/models/cg-counts.ts:40 | `split` on one character gives at least one piece, and no piece holds the separator |
| Js.JoinSplit | browsecloud-client/src/app/models/cg-counts.ts:40 | joining the pieces of a split with the separator gives the string back |
| Js.SplitJoin | browsecloud-client/src/app/models/cg-counts.ts:40 | splitting pieces joined with a separator none of them holds gives the pieces back |
| Js.SplitNoSep | browsecloud-client/src/app/models/cg-counts.ts:40 | a string without the separator splits into itself |
| Js.SplitAppend | browsecloud-client/src/app/models/cg-counts.ts:40 | splitting `a + sep + b` gives `a` followed by the pieces of `b` |
| Js.SplitLines | browsecloud-client/src/app/models/cg-counts.ts:33 | `split(/\r?\n/)` gives one line per line feed, plus one |
| Js.SplitLinesWithoutLineFeed | browsecloud-client/src/app/models/cg-legend.ts:41 | text without a line feed is a single line |
| Js.IndexOf | browsecloud-client/src/app/models/cg-database.ts:42 | `indexOf` is -1 exactly when the character is absent, and otherwise its first position |
| Js.DigitPrefix | browsecloud-client/src/app/models/cg-counts.ts:46 | the longest run of decimal digits at the front, which `parseInt` and `\d+` read |
| Js.NatToString | CountingGridsPy/EngineToBrowseCloudPipeline/browseCloudArtifactGenerator.py:61 | `"%1d" % n` writes at least one decimal digit, whose value is n |
| Js.ParseIntOfNatToString | browsecloud-client/src/app/models/cg-counts.ts:59-60 | `parseInt` reads back the digits of a non-negative integer, whatever non-digit follows |
| Js.ParseIntOfDigits | browsecloud-client/src/app/models/cg-counts.ts:59-60 | `parseInt` of a digit run followed by a non-digit is that run's value |
| Js.ParseInt | browsecloud-client/src/app/models/cg-counts.ts:59-60 | definition of `parseInt(s, 10)`; its meaning is stated by Js.ParseIntOfDigits and Js.ParseIntOfNatToString |
| Js.ParseFloat | browsecloud-client/src/app/models/cg-color.ts:34-36 | definition of `parseFloat`; its meaning is stated by Js.ParseFloatOfDigits and Js.ParseFloatWithoutDigits |
| Js.ParseFloatOfDigits | browsecloud-client/src/app/models/cg-color.ts:34-36 | `parseFloat` of a digit run that no digit, point or exponent continues is the run's value, which `parseInt` also reads |
| Js.ParseFloatWithoutDigits | browsecloud-client/src/app/models/cg-color.ts:34-36 | a text with no digit at all reads as NaN |
| Js.DigitIsNotSpace | browsecloud-client/src/app/models/cg-counts.ts:59-60 | a digit is neither white space, a sign, a colon nor a point, so `parseInt` does not skip it |
| Js.DigitPrefixOfDigits | browsecloud-client/src/app/models/cg-counts.ts:46 | a digit run followed by a non-digit is read whole |
| Js.Pow10 | browsecloud-client/src/app/models/cg-mappings.ts:71 | the powers of ten `parseFloat` scales by are positive |
| Js.Part | browsecloud-client/src/app/models/cg-color.ts:31 | a destructured binding past the end of the array is undefined, and otherwise the element |
| Js.Add | browsecloud-client/src/app/models/counting-grid-model.ts:163 | number addition: NaN when either side is NaN, otherwise the sum |
| Js.Sub | browsecloud-client/src/app/models/counting-grid-model.ts:97 | number subtraction: NaN when either side is NaN, otherwise the difference |
| Js.Mul | browsecloud-client/src/app/models/cg-color.ts:34-36 | number multiplication: NaN when either side is NaN, otherwise the product |
| Js.RemBounds | browsecloud-client/src/app/models/counting-grid-model.ts:111-114 | `%` on numbers with a positive divisor lies strictly between minus the divisor and the divisor |
| Js.Rem | browsecloud-client/src/app/models/counting-grid-model.ts:111-114 | definition of `%` on numbers, `a − b·trunc(a / b)`; its meaning is stated by Js.RemBounds and Js.IntRem |
| Js.IntRem | browsecloud-client/src/app/models/counting-grid-model.ts:242-249 | `%` on integers with a positive divisor keeps the dividend's sign: the Euclidean remainder for a non-negative dividend, at most 0 for a negative one |
| Patterns.WeightPrefix | browsecloud-client/src/app/models/cg-top-grid.ts:24 | the longest run of `[eE+\-.\d]` at the front, which the weight group reads |
| Patterns.PrefixedNumber | browsecloud-client/src/app/models/cg-counts.ts:10 | `/^id:(\d+)/` (and the row, col and layer patterns) match exactly when the prefix is followed by a digit, and the group is the digit run after the prefix |
| Patterns.FindCount | browsecloud-client/src/app/models/cg-counts.ts:11 | `/(\d+):(\d+)/` gives two non-empty digit runs |
| Patterns.FindCountIffShape | browsecloud-client/src/app/models/cg-counts.ts:11 | `/(\d+):(\d+)/` matches exactly when the token has a digit, a colon and a digit in a row somewhere |
| Patterns.CountAtHasShape | browsecloud-client/src/app/models/cg-counts.ts:11 | a match at the start of the token has a digit, a colon and a digit in a row |
| Patterns.ShapeOfTail | browsecloud-client/src/app/models/cg-counts.ts:11 | the shape found one position on is a shape of the whole token |
| Patterns.ShapeAfterFirst | browsecloud-client/src/app/models/cg-counts.ts:11 | when no match starts at the first position, a shape of the token lies wholly after it |
| Patterns.RowColumnOfFields | browsecloud-client/src/app/models/cg-mappings.ts:50-57 | a line whose first two fields are `row:%1d` and `col:%1d` passes the format check and reads back as that row and column |
| Patterns.CellFieldsHaveNoTab | CountingGridsPy/EngineToBrowseCloudPipeline/browseCloudArtifactGenerator.py:179-180 | the `row:` and `col:` fields a written line starts with hold no tab, so splitting on tabs keeps them whole |
| Patterns.FindWeight | browsecloud-client/src/app/models/cg-top-grid.ts:24 | `/(\d+):([eE+\-.\d]+)/` gives a non-empty digit run and a non-empty weight literal |
| Patterns.FindWeightLayer | browsecloud-client/src/app/models/cg-mappings.ts:19 | `/(\d+):([eE+\-.\d]+):(\d+)/` gives a digit run, a weight literal and a digit run, none empty |
| Patterns.WeightPrefixOf | browsecloud-client/src/app/models/cg-top-grid.ts:24 | a weight literal followed by a character outside the class is read whole |
| Patterns.CountToken | CountingGridsPy/EngineToBrowseCloudPipeline/browseCloudArtifactGenerator.py:220-221 | a written `entry:count` token is matched with both numbers read back |
| Patterns.WeightToken | CountingGridsPy/EngineToBrowseCloudPipeline/browseCloudArtifactGenerator.py:61-62 | a written `word:weight` token is matched with both parts read back |
| Patterns.WeightLayerToken | CountingGridsPy/EngineToBrowseCloudPipeline/browseCloudArtifactGenerator.py:179-180 | a written `entry:weight:layer` token is matched with all three parts read back |
| Patterns.WeightLayerDigits | browsecloud-client/src/app/models/cg-mappings.ts:19 | `digits:weight:digits` is matched with its three parts |
| Patterns.WeightAfterDigits | browsecloud-client/src/app/models/cg-mappings.ts:19 | after the first group and its colon, `weight:digits` completes the match |
| Patterns.WeightLayerMatchesAt | browsecloud-client/src/app/models/cg-mappings.ts:19 | where the pattern matches at the first position, that is the match `exec` returns |
| Patterns.PrefixedToken | CountingGridsPy/EngineToBrowseCloudPipeline/browseCloudArtifactGenerator.py:179-180 | a written `row:n` field is matched and n read back |
| Patterns.DigitsHaveNoTab | CountingGridsPy/EngineToBrowseCloudPipeline/browseCloudArtifactGenerator.py:179-180 | digits never split a tab-separated line |
| Patterns.WeightCharsHaveNoTab | CountingGridsPy/EngineToBrowseCloudPipeline/browseCloudArtifactGenerator.py:61-62 | weight literals never split a tab-separated line |
| Patterns.NoTabConcat | CountingGridsPy/EngineToBrowseCloudPipeline/browseCloudArtifactGenerator.py:179-180 | joining two tab-free strings gives a tab-free one |
| Patterns.PrefixedFieldHasNoTab | CountingGridsPy/EngineToBrowseCloudPipeline/browseCloudArtifactGenerator.py:179-180 | a `row:n` field stays one field of its line |
| Patterns.SplitJoinedFields | browsecloud-client/src/app/models/cg-mappings.ts:50 | splitting a tab-joined line of tab-free fields gives back the fields |
| Patterns.JoinedFieldsNotBlank | browsecloud-client/src/app/models/cg-mappings.ts:46 | a written line whose first field has a visible character is not skipped as blank |

## Left out

- Floating point is modelled by reals. A NaN is `None`, or an explicit `NaN` score where a ranking needs one. Rounding, overflow to Infinity and the literal `Infinity` that `parseFloat` accepts are not modelled; `Js.ParseFloat` gives `None` for it.
- CountingGridSearch.SearchTags: `Math.pow(w, 1 + Math.log(k))` is the parameter `boost`. The model does not state its values.
- CGModel.Offsets: `Math.random()` is an input stream of draws in [0, 1), not a random source.
- CGModel.CountingGridModel.GetScaledGridData requires DrawEnds. When zoomed in on a grid with rows but no columns, or with a zero column distance, the source's outer do-while never ends. The model excludes that input instead of modelling a loop that does not terminate.
- CGModel.CountingGridModel.Valid: the cache invariant states only that cached tags hold on the grid (`TagsHoldFor`). It does not state that they equal a fresh search. The queries' `ensures` clauses do tie each result to the cached value.
- CGRanking.Ranked gives `None` when the final weights mix NaN with numbers. The engine's sort order is then implementation-defined. `getDocumentEntryList` then states only that the cell becomes a permutation of itself.
- CGDatabase.Keys: its ensures states which keys `Object.keys` lists, not their order. The extra-column set is modelled as a set, so the order in which `set(dfSave.columns)` writes the database columns is not modelled either.
- A line whose row, column or id `parseInt` reads as NaN makes the source write under the property "NaN", which no numeric lookup reaches. The models drop only those writes, not the whole line:
  - the color model drops the line, since its only write is the color stored under the NaN row or cell;
  - the vocabulary model still records the form's id as NaN in `wordToWordId`, overwriting an earlier id for that form;
  - the database model still adds the line's extra keys to the extra columns.
- The decoders are immutable values built by their parse methods. They are not classes whose fields the constructor fills in place, since nothing changes them after construction. The legend is a value in the same way.
- Array sorts (`Array.prototype.sort`, which is stable) are modelled on sequences, by a stable insertion sort. The only in-place effect the source relies on is the reorder in `getDocumentEntryList`, and it is modelled by reassigning the `mappings` field. Other aliasing of the sorted arrays is not modelled.
- Dates are reals (their epoch value), compared as numbers.
- DocumentExtensions.UserCanRead and DocumentExtensions.UserCanModify: a null `Owner` or `Acl`, which throws in the source, is not modelled. A null id is modelled.
- DocumentExtensions.BlobFileName: a null `fileName` argument is not modelled.
- DocumentExtensions: the invariant culture's `IgnoreCase` comparison is the parameter `fold`. `DocumentHelper.ToUpper` maps ASCII letters only.
- DocumentHelper: the CSV reader (`GenericParser`) is a parameter that gives the rows read and the error at the next read. A row's number in a message is its index among the data rows, plus one. `Environment.NewLine` is the parameter `newline`.
- ServiceBatchJob.BatchJob.constructor: the `documentId == null` check can never fire on a `Guid` value type, so it is not modelled.
- ExceptionFilter.OnException: the write of the status code into the HTTP context and the call to `base.OnException` are not modelled.
- SlidingWindow: training, file and directory creation, and printing are not modelled. `train` is a pure function parameter. `np.ceil` is exact integer ceiling division.
- SlidingWindow.SlidingTrainer: `kwargs` is modelled as the four keys the trainer reads or writes (`data`, `max_iter`, `output_directory`, `pi`). Any other keyword arguments handed through to `train`, and the fact that the caller's dictionary is left holding the last window's values, are not modelled.
- CGView.Position: the bound 0 < y ≤ height that the label placement is meant to keep is not proved, because the source does not keep it. With row 1, row distance 1, offset 0, zoom 1, translation −10.5 and height 10, `% 10` gives −9.5, the floor −10, and y = 0. The model proves y in (−1, height], and in [0, height] for a whole height.
- CGVocabulary.Vocabulary.GetLexiconWordByWord: `wordToWordId` is a plain object, so a surface form such as "constructor" that names an inherited property reads that property, and the lookup then gives undefined instead of null. The form "__proto__" is a further case: writing its id reaches the inherited setter, which ignores a number, so the source never records it. The model treats every word absent from the file as unknown, with the answer null, and records "__proto__" like any other form.
- Concurrency, HTTP, storage, authentication and the rest of the service and the client UI are outside the core.
