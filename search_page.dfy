/**
 * The search page (src/pages/SearchPage.tsx): it runs a search with the panel's parameters,
 * remembers them, re-runs them after a delete and summarises them.
 */
module SearchPage {
  import opened Common
  import opened Api
  import opened SearchFilters

  /** "Found N file[s] matching your criteria": "file" for exactly one result. */
  function FoundMessage(n: nat): string
  {
    "Found " + IntToString(n) + (if n == 1 then " file" else " files") + " matching your criteria"
  }

  /** The "Search completed" toast, shown only when some parameter is active. */
  function CompletionToast(params: SearchParams, found: seq<FileInfo>): (t: Option<Toast>)
    ensures t.Some? <==> HasActiveFilters(params)
    ensures t.Some? ==> t.value == Toast("Search completed", FoundMessage(|found|))
  {
    if HasActiveFilters(params) then Some(Toast("Search completed", FoundMessage(|found|))) else None
  }

  const ShowingAll: string := "Showing all files"

  /** getSearchSummary; None stands for `null`. */
  function SearchSummary(last: Option<SearchParams>): Option<string>
  {
    match last
    case None => None
    case Some(p) =>
      var n := ActiveCount(p);
      if n == 0 then Some(ShowingAll)
      else Some("Search results for " + IntToString(n) + (if n > 1 then " filters" else " filter"))
  }

  /**
   * No summary before the first search; "Showing all files" exactly when no parameter is
   * active; otherwise the count of active parameters, with "filters" exactly when it is above one.
   */
  lemma SearchSummarySpec(last: Option<SearchParams>)
    ensures SearchSummary(last).None? <==> last.None?
    ensures last.Some? ==> (SearchSummary(last) == Some(ShowingAll) <==> ActiveCount(last.value) == 0)
    ensures last.Some? && ActiveCount(last.value) > 0 ==>
              var s := SearchSummary(last).value;
              var n := IntToString(ActiveCount(last.value));
              && StartsWith(s, "Search results for ")
              && s[19..] == n + (if ActiveCount(last.value) > 1 then " filters" else " filter")
  {
    if last.Some? && ActiveCount(last.value) > 0 {
      var s := SearchSummary(last).value;
      assert s[..19] == "Search results for ";
      assert s[0] == 'S' && ShowingAll[0] == 'S';
      assert s[7] == 'r' && ShowingAll[7] == ' ';
    }
  }

  /** The completion toast appears exactly when the summary counts some filter. */
  lemma ToastAgreesWithSummary(params: SearchParams, found: seq<FileInfo>)
    ensures CompletionToast(params, found).Some? <==> SearchSummary(Some(params)) != Some(ShowingAll)
  {
    HasActiveIffCount(params);
    SearchSummarySpec(Some(params));
  }

  lemma SearchSummaryExamples()
    ensures SearchSummary(None) == None
    ensures SearchSummary(Some(Initial)) == Some("Showing all files")
    ensures SearchSummary(Some(Initial.(filename := Str("report")))) == Some("Search results for 1 filter")
  {
    InitialHasNoActiveFilter();
    var p := Initial.(filename := Str("report"));
    ActiveCountByField(p);
    assert ActiveCount(p) == 1;
    assert IntToString(1) == "1";
    assert SearchSummary(Some(p)) == Some("Search results for " + "1" + " filter");
    assert "Search results for " + "1" + " filter" == "Search results for 1 filter";
  }

  lemma FoundMessageOne()
    ensures FoundMessage(1) == "Found 1 file matching your criteria"
  {
    var digits, word, tail := IntToString(1), " file", " matching your criteria";
    assert FoundMessage(1) == (("Found " + digits) + word) + tail;
    SingleDigit(1);
    assert "Found " + digits == "Found 1";
    assert "Found 1" + word == "Found 1 file";
    assert "Found 1 file" + tail == "Found 1 file matching your criteria";
  }

  lemma FoundMessageNone()
    ensures FoundMessage(0) == "Found 0 files matching your criteria"
  {
    var digits, word, tail := IntToString(0), " files", " matching your criteria";
    assert FoundMessage(0) == (("Found " + digits) + word) + tail;
    SingleDigit(0);
    assert "Found " + digits == "Found 0";
    assert "Found 0" + word == "Found 0 files";
    assert "Found 0 files" + tail == "Found 0 files matching your criteria";
  }

  class SearchView {
    var results: seq<FileInfo>
    var loading: bool
    var hasSearched: bool
    var lastParams: Option<SearchParams>

    constructor ()
      ensures results == [] && !loading && !hasSearched && lastParams == None
    {
      results := [];
      loading := false;
      hasSearched := false;
      lastParams := None;
    }

    /**
     * handleSearch with the search call's outcome. The parameters are remembered before the
     * request whatever its outcome; a failure empties the results and shows the error;
     * loading is false afterwards either way.
     */
    method HandleSearch(params: SearchParams, outcome: Result<FileListResponse, string>)
      returns (query: seq<(string, string)>, toast: Option<Toast>)
      modifies this
      ensures query == SearchQuery(Entries(params))
      ensures lastParams == Some(params) && hasSearched && !loading
      ensures outcome.Ok? ==> results == outcome.value.files && toast == CompletionToast(params, results)
      ensures outcome.Err? ==> results == [] && toast == Some(Toast("Search failed", outcome.error))
    {
      loading := true;
      hasSearched := true;
      lastParams := Some(params);
      query := BuildSearchQuery(Entries(params));
      match outcome {
        case Ok(response) =>
          results := response.files;
          toast := if HasActiveFilters(params)
                   then Some(Toast("Search completed", FoundMessage(|response.files|)))
                   else None;
        case Err(e) =>
          toast := Some(Toast("Search failed", e));
          results := [];
      }
      loading := false;
    }

    /** handleFileDeleted re-runs exactly the last parameters, and does nothing before any search. */
    method HandleFileDeleted(outcome: Result<FileListResponse, string>)
      returns (rerun: Option<seq<(string, string)>>, toast: Option<Toast>)
      modifies this
      ensures rerun.Some? <==> old(lastParams).Some?
      ensures old(lastParams).Some? ==>
                && rerun.value == SearchQuery(Entries(old(lastParams).value))
                && lastParams == old(lastParams) && hasSearched && !loading
                && (outcome.Ok? ==> && results == outcome.value.files
                                    && toast == CompletionToast(old(lastParams).value, results))
                && (outcome.Err? ==> results == [] && toast == Some(Toast("Search failed", outcome.error)))
      ensures old(lastParams).None? ==>
                && results == old(results) && loading == old(loading)
                && hasSearched == old(hasSearched) && lastParams == None && toast == None
    {
      if lastParams.Some? {
        var query;
        query, toast := HandleSearch(lastParams.value, outcome);
        rerun := Some(query);
      } else {
        rerun := None;
        toast := None;
      }
    }
  }
}
