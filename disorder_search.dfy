/**
 * The disorder lookup panel (components/DisorderSearch.js): a search term, the
 * record found, an error message and a loading flag, driven by one search
 * handler whose remote lookup is given as its outcome.
 */
module DisorderLookup {
  import opened Wrappers

  /** A record returned by the lookup service. */
  datatype DisorderRecord = DisorderRecord(name: string, description: string, remedies: seq<string>)

  /**
   * How the awaited lookup ended: a response with an ok status whose body
   * parsed, a response with a non-ok status, or an exception from the
   * transport or the parse.
   */
  datatype FetchOutcome = Ok(record: DisorderRecord) | NotOk | Failure

  const EmptyTermError := "Please enter a disorder name"
  const NotFoundError := "Disorder not found. Try: depression, anxiety, or bipolar"

  /** The example terms offered as quick searches. */
  const QuickSearchTerms := ["depression", "anxiety", "bipolar"]

  /** The characters String.prototype.trim removes: white space and line terminators. */
  predicate IsWhitespace(c: char) {
    || c == '\t' || c == '\n' || c == '\U{000B}' || c == '\U{000C}' || c == '\r' || c == ' '
    || c == '\U{00A0}' || c == '\U{1680}' || ('\U{2000}' <= c <= '\U{200A}')
    || c == '\U{2028}' || c == '\U{2029}' || c == '\U{202F}' || c == '\U{205F}'
    || c == '\U{3000}' || c == '\U{FEFF}'
  }

  /** Empty, or made of white space only. */
  predicate IsBlank(s: string) {
    forall i | 0 <= i < |s| :: IsWhitespace(s[i])
  }

  /** Drops leading white space: the result is a suffix of s, every dropped character is white space, and it does not start with white space. */
  function TrimStart(s: string): (r: string)
    ensures |r| <= |s| && r == s[|s| - |r|..]
    ensures forall i | 0 <= i < |s| - |r| :: IsWhitespace(s[i])
    ensures r == [] || !IsWhitespace(r[0])
  {
    if s != [] && IsWhitespace(s[0]) then TrimStart(s[1..]) else s
  }

  /** Drops trailing white space: the result is a prefix of s, every dropped character is white space, and it does not end with white space. */
  function TrimEnd(s: string): (r: string)
    ensures |r| <= |s| && r == s[..|r|]
    ensures forall i | |r| <= i < |s| :: IsWhitespace(s[i])
    ensures r == [] || !IsWhitespace(r[|r| - 1])
  {
    if s != [] && IsWhitespace(s[|s| - 1]) then TrimEnd(s[..|s| - 1]) else s
  }

  /** String.prototype.trim: empty exactly when s is blank, otherwise it neither starts nor ends with white space. */
  function Trim(s: string): (r: string)
    ensures |r| <= |s|
    ensures r == [] <==> IsBlank(s)
    ensures r != [] ==> !IsWhitespace(r[0]) && !IsWhitespace(r[|r| - 1])
  {
    var t := TrimStart(s);
    TrimStartEmptyIffBlank(s);
    TrimEndEmptyIffBlank(t);
    var r := TrimEnd(t);
    assert r != [] ==> r[0] == t[0];
    r
  }

  lemma TrimStartEmptyIffBlank(s: string)
    ensures TrimStart(s) == [] <==> IsBlank(s)
  {
  }

  lemma TrimEndEmptyIffBlank(s: string)
    ensures TrimEnd(s) == [] <==> IsBlank(s)
  {
  }

  /** The error and record shown once a non-blank search settles. */
  datatype Settled = Settled(disorder: Option<DisorderRecord>, error: string)

  /**
   * The state a non-blank search leaves behind: a record on success; on a
   * non-ok status or a thrown error, no record and the one not-found message.
   */
  function SettledBy(outcome: FetchOutcome): (s: Settled)
    ensures s.disorder.Some? <==> s.error == ""
    ensures s.disorder.Some? <==> outcome.Ok?
    ensures outcome.Ok? ==> s.disorder == Some(outcome.record)
    ensures !outcome.Ok? ==> s == Settled(None, NotFoundError)
  {
    match outcome
    case Ok(record) => Settled(Some(record), "")
    case NotOk => Settled(None, NotFoundError)
    case Failure => Settled(None, NotFoundError)
  }

  /** Not-found and transport failures are indistinguishable to the user. */
  lemma FailuresCollapse()
    ensures SettledBy(NotOk) == SettledBy(Failure)
    ensures SettledBy(NotOk).error != "" && SettledBy(NotOk).error != EmptyTermError
  {
  }

  /** The empty term and a spaces-only term are rejected; every quick-search term is accepted. */
  lemma BlankTerms()
    ensures IsBlank("") && IsBlank("   ") && IsBlank("\t \n")
    ensures forall t | t in QuickSearchTerms :: !IsBlank(t)
  {
    assert !IsWhitespace('d') && !IsWhitespace('a') && !IsWhitespace('b');
    assert QuickSearchTerms[0][0] == 'd' && QuickSearchTerms[1][0] == 'a' && QuickSearchTerms[2][0] == 'b';
  }

  /** The component's state: the input text, the record shown (or null), the loading flag and the error message. */
  class DisorderSearch {
    var searchTerm: string
    var disorder: Option<DisorderRecord>
    var loading: bool
    var error: string

    constructor ()
      ensures searchTerm == "" && disorder == None && !loading && error == ""
    {
      searchTerm := "";
      disorder := None;
      loading := false;
      error := "";
    }

    /** The input's change handler: replaces the search term and nothing else. */
    method SetSearchTerm(value: string)
      modifies this
      ensures searchTerm == value
      ensures disorder == old(disorder) && loading == old(loading) && error == old(error)
    {
      searchTerm := value;
    }

    /**
     * The synchronous part of the search handler, for the term its closure
     * sees: a blank term sets the validation error and issues no request;
     * otherwise loading is set, error and record are cleared and the term, as
     * typed, is requested.
     */
    method BeginSearch(seen: string) returns (request: Option<string>)
      modifies this
      ensures searchTerm == old(searchTerm)
      ensures IsBlank(seen) ==> request == None && error == EmptyTermError
      ensures IsBlank(seen) ==> disorder == old(disorder) && loading == old(loading)
      ensures !IsBlank(seen) ==> request == Some(seen) && loading && error == "" && disorder == None
    {
      // `!seen.trim()` holds exactly when the term is blank (the contract of Trim).
      if IsBlank(seen) {
        error := EmptyTermError;
        request := None;
      } else {
        loading := true;
        error := "";
        disorder := None;
        request := Some(seen);
      }
    }

    /**
     * The part of the search handler after the lookup settles: success stores
     * the record, any failure sets the not-found message, and loading is
     * cleared either way.
     */
    method FinishSearch(outcome: FetchOutcome)
      modifies this
      ensures searchTerm == old(searchTerm) && !loading
      ensures outcome.Ok? ==> disorder == Some(outcome.record) && error == old(error)
      ensures !outcome.Ok? ==> disorder == old(disorder) && error == NotFoundError
    {
      match outcome {
        case Ok(record) =>
          disorder := Some(record);
        case NotOk =>
          error := NotFoundError;
        case Failure =>
          error := NotFoundError;
      }
      loading := false;
    }

    /** The whole search handler for the term its closure sees, the lookup ending with the given outcome. */
    method SearchFor(seen: string, outcome: FetchOutcome) returns (request: Option<string>)
      modifies this
      ensures searchTerm == old(searchTerm)
      ensures IsBlank(seen) ==> request == None && error == EmptyTermError
      ensures IsBlank(seen) ==> disorder == old(disorder) && loading == old(loading)
      ensures !IsBlank(seen) ==> request == Some(seen) && !loading
      ensures !IsBlank(seen) ==> Settled(disorder, error) == SettledBy(outcome)
    {
      request := BeginSearch(seen);
      if request.Some? {
        FinishSearch(outcome);
      }
    }

    /** The search button: searches for the current term. */
    method Search(outcome: FetchOutcome) returns (request: Option<string>)
      modifies this
      ensures searchTerm == old(searchTerm)
      ensures IsBlank(searchTerm) ==> request == None && error == EmptyTermError
      ensures IsBlank(searchTerm) ==> disorder == old(disorder) && loading == old(loading)
      ensures !IsBlank(searchTerm) ==> request == Some(searchTerm) && !loading
      ensures !IsBlank(searchTerm) ==> (disorder.Some? <==> error == "")
      ensures !IsBlank(searchTerm) && outcome.Ok? ==> disorder == Some(outcome.record) && error == ""
      ensures !IsBlank(searchTerm) && !outcome.Ok? ==> disorder == None && error == NotFoundError
    {
      request := SearchFor(searchTerm, outcome);
    }

    /** The input's key handler: Enter searches, any other key does nothing. */
    method KeyPress(key: string, outcome: FetchOutcome) returns (request: Option<string>)
      modifies this
      ensures key != "Enter" ==> request == None
      ensures key != "Enter" ==> searchTerm == old(searchTerm) && disorder == old(disorder)
      ensures key != "Enter" ==> loading == old(loading) && error == old(error)
      ensures key == "Enter" ==> searchTerm == old(searchTerm)
      ensures key == "Enter" && IsBlank(searchTerm) ==> request == None && error == EmptyTermError
      ensures key == "Enter" && IsBlank(searchTerm) ==> disorder == old(disorder) && loading == old(loading)
      ensures key == "Enter" && !IsBlank(searchTerm) ==> request == Some(searchTerm) && !loading
      ensures key == "Enter" && !IsBlank(searchTerm) ==> Settled(disorder, error) == SettledBy(outcome)
    {
      if key == "Enter" {
        request := Search(outcome);
      } else {
        request := None;
      }
    }

    /**
     * A quick-search tag as written: it sets the term, then (after a timer)
     * runs the search handler of the render that was current at the click,
     * whose closure still holds the previous term.
     */
    method QuickSearchAsWritten(term: string, outcome: FetchOutcome) returns (request: Option<string>)
      modifies this
      ensures searchTerm == term
      ensures request == if IsBlank(old(searchTerm)) then None else Some(old(searchTerm))
      ensures IsBlank(old(searchTerm)) ==> error == EmptyTermError && disorder == old(disorder) && loading == old(loading)
      ensures !IsBlank(old(searchTerm)) ==> !loading && Settled(disorder, error) == SettledBy(outcome)
    {
      var seen := searchTerm;
      searchTerm := term;
      request := SearchFor(seen, outcome);
    }

    /** A quick-search tag as intended: sets the term and searches for it. */
    method QuickSearch(term: string, outcome: FetchOutcome) returns (request: Option<string>)
      modifies this
      ensures searchTerm == term
      ensures IsBlank(term) ==> request == None && error == EmptyTermError
      ensures IsBlank(term) ==> disorder == old(disorder) && loading == old(loading)
      ensures !IsBlank(term) ==> request == Some(term) && !loading
      ensures !IsBlank(term) ==> Settled(disorder, error) == SettledBy(outcome)
    {
      searchTerm := term;
      request := SearchFor(term, outcome);
    }
  }

  /** On a fresh panel, the "depression" tag as written issues no request and shows the validation error. */
  method QuickSearchOnFreshPanelAsWritten(outcome: FetchOutcome) returns (request: Option<string>, error: string)
    ensures request == None && error == EmptyTermError
  {
    var panel := new DisorderSearch();
    request := panel.QuickSearchAsWritten("depression", outcome);
    error := panel.error;
  }

  /** On a fresh panel, every quick-search tag as intended requests its own term. */
  method QuickSearchOnFreshPanel(k: nat, outcome: FetchOutcome) returns (request: Option<string>)
    requires k < |QuickSearchTerms|
    ensures request == Some(QuickSearchTerms[k])
  {
    BlankTerms();
    var panel := new DisorderSearch();
    request := panel.QuickSearch(QuickSearchTerms[k], outcome);
  }
}
