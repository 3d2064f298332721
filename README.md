# me-time self-assessment and disorder lookup, modelled in Dafny

This project models the two components of the me-time front end that have logic:

- **Assessment** (`AssessmentEngine`, `assessment.dfy`). It shows five fixed questions and
  records one answer per question: yes, no or unsure. On submit it checks that five answers
  are recorded. It then sends the answers as a five-slot array to a scoring service. If that
  request throws, it falls back to a local rule. The rule counts the "yes" answers and picks
  one of three fixed results: high for 3 or more, medium for 1 or 2, low for 0. Each result
  has a message and five remedies. Reset clears the answers and the result.
- **Disorder search** (`DisorderLookup`, `disorder_search.dfy`). A search term that is blank
  after `trim` sets a validation message and sends nothing. Otherwise the panel clears the
  error and the record and asks a lookup service. It shows the record on success. On a
  non-ok status or a thrown error it shows one fixed not-found message.

Both components are React state holders. Each is a class with the component's state as
fields, and each handler is a method with `modifies this`. The network call is a parameter
of the method: the outcome the awaited request produced. Handlers that await are split in
two. A `Begin…` method is the part before the request. A `Complete…`/`Finish…` method is the
part after it. A third method composes the two. A value that the handler's closure captured
is passed in explicitly (`submitted`, `seen`). The pure parts are functions: the request body,
the "yes" count, the classifier, `trim` and the settled search state. Lemmas about them
state the properties.

Two comments in the component promise more than its code does. The model follows the code:

- The comment "Fallback calculation if API fails" (me-time/src/components/Assessment.js:53)
  suggests that any failed scoring call falls back. In the code only a thrown error
  (transport or JSON parse) uses the local rule. A response whose body parses is stored as
  it is, whatever its HTTP status.
- The comment "Check if all questions answered" (me-time/src/components/Assessment.js:27)
  suggests a per-question check. The code compares the number of recorded keys with 5.
  `ValidatedAnswersAreComplete` proves the two agree when every key is a question index.
  The question buttons only ever record such keys.

One more observation about the code: the local rule counts the values of the answer
object, not the submitted array. `FallbackCountsSubmittedAnswers` proves they agree when
every key is a question index. `OutOfRangeKeyCountedOnlyLocally` shows that they differ
otherwise.

## Model

| member | source | states |
|---|---|---|
| `AssessmentEngine.AnswersArray` | me-time/src/components/Assessment.js:37 | the request body has one slot per question (5); slot i is the recorded answer for i, or "no" where none is recorded |
| `AssessmentEngine.YesCount` | me-time/src/components/Assessment.js:62 | the "yes" count never exceeds the number of recorded answers |
| `AssessmentEngine.ResultFor` | me-time/src/components/Assessment.js:64-99 | severity is "high" iff count >= 3, "medium" iff 1 <= count <= 2, "low" iff count = 0; every result has 5 remedies |
| `AssessmentEngine.LocalResult` | me-time/src/components/Assessment.js:61-101 | the fallback is always one of the three fixed results: the high one iff at least 3 "yes", the medium one iff 1 or 2, the low one iff none |
| `AssessmentEngine.LocalResultBuckets` | me-time/src/components/Assessment.js:62-99 | with keys in range the count is at most 5, and the three messages belong to the buckets >= 3, 1..2 and 0 |
| `AssessmentEngine.FallbackCountsSubmittedAnswers` | me-time/src/components/Assessment.js:37-62 | with keys in range, the local count over the answer object equals the count over the submitted array, so the fallback classifies what was sent |
| `AssessmentEngine.OutOfRangeKeyCountedOnlyLocally` | me-time/src/components/Assessment.js:37-62 | a "yes" under key 7 is counted by the fallback but absent from the submitted array |
| `AssessmentEngine.ValidatedAnswersAreComplete` | me-time/src/components/Assessment.js:28-37 | with keys in range, passing the key-count guard means every question has an answer, so no slot of the body takes the "no" default |
| `AssessmentEngine.YesCountWithout` | me-time/src/components/Assessment.js:62 | the count is that of the other keys plus one exactly when the given key holds "yes" |
| `AssessmentEngine.RecordedAnswerContribution` | me-time/src/components/Assessment.js:62 | recording "yes" under a key adds one to the count of the other keys; "no" and "unsure" add nothing |
| `AssessmentEngine.NonYesAnswersInterchangeable` | me-time/src/components/Assessment.js:62-99 | replacing "no" by "unsure" (or back) under any key changes neither the count nor the local result |
| `AssessmentEngine.SeverityMonotoneInYes` | me-time/src/components/Assessment.js:62-99 | answering a question "yes" never lowers the severity; answering it "no" or "unsure" never raises it |
| `AssessmentEngine.LocalResultDependsOnlyOnYesCount` | me-time/src/components/Assessment.js:61-101 | two answer objects with the same "yes" count get the same local result |
| `AssessmentEngine.ExampleThreeYesIsHigh` | me-time/src/components/Assessment.js:62-75 | yes, yes, yes, no, unsure gives the high result |
| `AssessmentEngine.ExampleAllNoIsLow` | me-time/src/components/Assessment.js:88-99 | five "no" answers give the low result |
| `AssessmentEngine.Assessment.constructor` | me-time/src/components/Assessment.js:7-9 | starts with no answers, no result and loading off |
| `AssessmentEngine.Assessment.RecordAnswer` | me-time/src/components/Assessment.js:21-23 | the index now holds the new answer (overwriting), every other key and value is unchanged, result and loading are untouched, and keys stay in range when the index is a question index |
| `AssessmentEngine.Assessment.BeginSubmit` | me-time/src/components/Assessment.js:26-37 | fewer than 5 keys: no request, result and loading unchanged; otherwise loading is on and the request body is the padded array |
| `AssessmentEngine.Assessment.CompleteSubmit` | me-time/src/components/Assessment.js:48-57 | a parsed body is stored as it is; a thrown error stores the local result for the submitted answers; loading is off; answers are untouched |
| `AssessmentEngine.Assessment.Submit` | me-time/src/components/Assessment.js:26-58 | a rejected submit changes nothing and sends nothing; an accepted one sends the padded array, ends with loading off, and stores the parsed body or (on a throw) the 5-remedy local result |
| `AssessmentEngine.Assessment.Reset` | me-time/src/components/Assessment.js:104-107 | answers empty and result cleared, loading untouched; the empty answers fail the submit guard |
| `AssessmentEngine.ResetThenSubmit` | me-time/src/components/Assessment.js:104-107 | a submit right after a reset sends nothing, shows no result, leaves the answers empty and the loading flag unchanged |
| `DisorderLookup.TrimStart` | me-time/src/components/DisorderSearch.js:16 | the result is a suffix of the input, the dropped prefix is white space, and the result does not start with white space |
| `DisorderLookup.TrimEnd` | me-time/src/components/DisorderSearch.js:16 | the result is a prefix of the input, the dropped suffix is white space, and the result does not end with white space |
| `DisorderLookup.Trim` | me-time/src/components/DisorderSearch.js:16 | the trimmed term is empty exactly when the term is blank; otherwise it neither starts nor ends with white space |
| `DisorderLookup.SettledBy` | me-time/src/components/DisorderSearch.js:29-38 | after a non-blank search exactly one of record and error is set; a record iff the outcome is Ok, and then it is the returned record; otherwise no record and the not-found message |
| `DisorderLookup.FailuresCollapse` | me-time/src/components/DisorderSearch.js:29-38 | a non-ok status and a thrown error leave the same state, a non-empty message distinct from the validation message |
| `DisorderLookup.BlankTerms` | me-time/src/components/DisorderSearch.js:16-19 | "", "   " and "\t \n" are blank; none of the quick-search terms is |
| `DisorderLookup.DisorderSearch.constructor` | me-time/src/components/DisorderSearch.js:9-12 | starts with an empty term, no record, loading off and no error |
| `DisorderLookup.DisorderSearch.SetSearchTerm` | me-time/src/components/DisorderSearch.js:72 | replaces the term and nothing else |
| `DisorderLookup.DisorderSearch.BeginSearch` | me-time/src/components/DisorderSearch.js:16-23 | a blank term sets the validation message and leaves record and loading unchanged, with no request; otherwise loading is on, error and record are cleared, and the term as typed (untrimmed) is requested |
| `DisorderLookup.DisorderSearch.FinishSearch` | me-time/src/components/DisorderSearch.js:29-41 | Ok stores the record and does not touch the error; a non-ok status or a throw sets the not-found message and does not touch the record; loading is off |
| `DisorderLookup.DisorderSearch.SearchFor` | me-time/src/components/DisorderSearch.js:15-42 | the whole handler for the term its closure sees: blank terms as in BeginSearch, otherwise the request is the term, loading ends off and the state is the settled state of the outcome |
| `DisorderLookup.DisorderSearch.Search` | me-time/src/components/DisorderSearch.js:15-42 | the handler for the current term: blank terms rejected without a request; otherwise loading ends off, exactly one of record and error is set, Ok stores the record with an empty error, and every failure gives no record and the not-found message |
| `DisorderLookup.DisorderSearch.KeyPress` | me-time/src/components/DisorderSearch.js:45-49 | Enter runs the search: the term is kept, a blank term sets the validation message with no request and leaves record and loading unchanged, a non-blank term is requested and ends with loading off in the settled state of the outcome; any other key changes nothing and sends nothing |
| `DisorderLookup.DisorderSearch.QuickSearchAsWritten` | me-time/src/components/DisorderSearch.js:52-55 | sets the term to the clicked one but searches the previous term: if that was blank, no request, the validation message, record and loading unchanged; otherwise it requests the previous term and ends with loading off in the settled state of the outcome |
| `DisorderLookup.DisorderSearch.QuickSearch` | me-time/src/components/DisorderSearch.js:52-55 | sets the term; a blank term sends nothing, sets the validation message and leaves record and loading unchanged; otherwise it requests the term and ends with loading off in the settled state of the outcome |
| `DisorderLookup.QuickSearchOnFreshPanelAsWritten` | me-time/src/components/DisorderSearch.js:52-55 | on a fresh panel the "depression" tag as written sends nothing and shows "Please enter a disorder name" |
| `DisorderLookup.QuickSearchOnFreshPanel` | me-time/src/components/DisorderSearch.js:52-55 | on a fresh panel each quick-search tag as intended requests its own term |

## Findings

| source | as written | input that shows it | evidently intended | confidence | as-written member | corrected member |
|---|---|---|---|---|---|---|
| me-time/src/components/DisorderSearch.js:52-55 | `quickSearch` sets the term, then its timer calls the `handleSearch` of the render that handled the click. That closure still reads the previous `searchTerm`. | A fresh panel (empty term) and a click on "depression": no request is sent and the error reads "Please enter a disorder name". After typing "anxiety", a click on "bipolar" looks up "anxiety". | The clicked term is searched. | high (not executed) | `DisorderLookup.DisorderSearch.QuickSearchAsWritten`, exhibited by `DisorderLookup.QuickSearchOnFreshPanelAsWritten` | `DisorderLookup.DisorderSearch.QuickSearch`, used by `DisorderLookup.QuickSearchOnFreshPanel` |

## Left out

- The HTTP requests, their URLs and JSON encoding and decoding. Each request is an outcome parameter: `ScoringOutcome` (`Returned(data)` or `Threw`) and `FetchOutcome` (`Ok(record)`, `NotOk` or `Failure`).
- The search URL is built from the term without encoding. That is string building for the network layer. The model only records which term is requested.
- A scoring response that parses but has another shape, such as an error object from a non-2xx status. The component stores it as it is. The model's `Returned` carries only the documented `{ result, remedies, severity }` shape. A lookup body that parses to `null` is also not modelled.
- The 100 ms timer in `quickSearch`. The model runs the scheduled search straight after the term change. It keeps which term that search sees.
- Interleaving of handlers while a request is in flight, and overlapping requests with last-write-wins. The model runs each handler's two halves back to back. The Begin/Complete methods can be called separately, but no property about interleavings is stated.
- The disabled state of the submit and search buttons while loading. This is rendering, and the Enter key is not disabled.
- `alert` and `console.error`. A rejected submit returns `None` instead of raising an alert.
- All JSX rendering and CSS classes, including the capitalised option labels and severity badge.
- me-time/src/App.jsx (a two-tab toggle) and me-time/src/components/Header.js (static markup) are not part of this model.
- `Trim` works on Dafny characters (Unicode scalar values), while JavaScript strings are UTF-16 code units. Every character that `trim` removes is a single code unit, so blankness agrees.
