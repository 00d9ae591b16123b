/**
 * The "My Files" page (src/pages/FilesPage.tsx): one page of the file list, the page-change
 * guard, the refresh after a delete, the five-button page window and the range label.
 */
module FilesPage {
  import opened Common
  import opened Api

  const PageSize: int := 20

  // ----- navigation rules -----

  /** handlePageChange fetches only a page between 1 and the known page count. */
  predicate PageChangeAccepted(newPage: int, totalPages: int)
  {
    1 <= newPage <= totalPages
  }

  /**
   * The page fetched after a delete: page 1 when the deleted row was the only one on a page
   * after the first, the current page otherwise.
   */
  function PageAfterDelete(rowsShown: nat, currentPage: int): (p: int)
    ensures p == 1 || p == currentPage
    ensures p == 1 <==> (rowsShown == 1 && currentPage > 1) || currentPage == 1
  {
    if rowsShown == 1 && currentPage > 1 then 1 else currentPage
  }

  /** Deleting the last row of page 3 goes back to page 1; any other delete reloads in place. */
  lemma PageAfterDeleteExamples()
    ensures PageAfterDelete(1, 3) == 1
    ensures PageAfterDelete(2, 3) == 3
    ensures PageAfterDelete(1, 1) == 1
    ensures PageAfterDelete(0, 4) == 4
  {
  }

  // ----- the pagination bar -----

  /** The bar is rendered only when there is more than one page. */
  predicate PaginationShown(totalPages: int)
  {
    totalPages > 1
  }

  predicate PrevDisabled(currentPage: int, loading: bool)
  {
    currentPage <= 1 || loading
  }

  predicate NextDisabled(currentPage: int, totalPages: int, loading: bool)
  {
    currentPage >= totalPages || loading
  }

  /** The label of button i of the window. */
  function PageButton(currentPage: int, totalPages: int, i: int): int
  {
    if totalPages <= 5 then i + 1
    else if currentPage <= 3 then i + 1
    else if currentPage >= totalPages - 2 then totalPages - 4 + i
    else currentPage - 2 + i
  }

  /** `Array.from({ length: Math.min(5, totalPages) }, ...)`; a negative length gives no buttons. */
  function PageWindow(currentPage: int, totalPages: int): seq<int>
  {
    seq(Max(0, Min(5, totalPages)), i requires 0 <= i => PageButton(currentPage, totalPages, i))
  }

  /**
   * The window holds min(5, totalPages) consecutive page numbers, all of them real pages,
   * and it holds the current page whenever that is a real page.
   */
  lemma PageWindowSpec(currentPage: int, totalPages: int)
    ensures var w := PageWindow(currentPage, totalPages);
            && |w| == Max(0, Min(5, totalPages))
            && (forall i :: 0 < i < |w| ==> w[i] == w[i - 1] + 1)
            && (forall i :: 0 <= i < |w| ==> 1 <= w[i] <= totalPages)
            && (1 <= currentPage <= totalPages ==> currentPage in w)
  {
    var w := PageWindow(currentPage, totalPages);
    if 1 <= currentPage <= totalPages {
      var k := if totalPages <= 5 || currentPage <= 3 then currentPage - 1
               else if currentPage >= totalPages - 2 then currentPage - totalPages + 4
               else 2;
      assert w[k] == currentPage;
    }
  }

  /** Every page button, and Previous and Next while enabled, leads to a page the guard accepts. */
  lemma ButtonsAgreeWithGuard(currentPage: int, totalPages: int)
    requires 1 <= currentPage <= totalPages
    ensures forall n :: n in PageWindow(currentPage, totalPages) ==> PageChangeAccepted(n, totalPages)
    ensures !PrevDisabled(currentPage, false) <==> PageChangeAccepted(currentPage - 1, totalPages)
    ensures !NextDisabled(currentPage, totalPages, false) <==> PageChangeAccepted(currentPage + 1, totalPages)
  {
    PageWindowSpec(currentPage, totalPages);
  }

  lemma PageWindowExamples()
    ensures PageWindow(1, 3) == [1, 2, 3]
    ensures PageWindow(2, 10) == [1, 2, 3, 4, 5]
    ensures PageWindow(6, 10) == [4, 5, 6, 7, 8]
    ensures PageWindow(9, 10) == [6, 7, 8, 9, 10]
  {
  }

  // ----- the range label -----

  function RangeStart(currentPage: int): int
  {
    (currentPage - 1) * PageSize + 1
  }

  function RangeEnd(currentPage: int, totalFiles: int): int
  {
    Min(currentPage * PageSize, totalFiles)
  }

  /** "Showing X to Y of Z files". */
  function RangeLabel(currentPage: int, totalFiles: int): string
  {
    "Showing " + IntToString(RangeStart(currentPage)) + " to " + IntToString(RangeEnd(currentPage, totalFiles))
      + " of " + IntToString(totalFiles) + " files"
  }

  /**
   * On a real, non-empty page the range lies within the files, spans at most one page
   * and counts exactly the rows the page can hold.
   */
  lemma RangeBounds(currentPage: int, totalFiles: int)
    requires currentPage >= 1 && (currentPage - 1) * PageSize < totalFiles
    ensures 1 <= RangeStart(currentPage) <= RangeEnd(currentPage, totalFiles) <= totalFiles
    ensures RangeEnd(currentPage, totalFiles) - RangeStart(currentPage) + 1
            == Min(PageSize, totalFiles - (currentPage - 1) * PageSize)
  {
  }

  /** Consecutive full pages tile the files: each range starts right after the previous one ends. */
  lemma RangesTile(currentPage: int, totalFiles: int)
    requires currentPage * PageSize <= totalFiles
    ensures RangeStart(currentPage + 1) == RangeEnd(currentPage, totalFiles) + 1
  {
  }

  lemma RangeLabelExample()
    ensures RangeLabel(3, 41) == "Showing 41 to 41 of 41 files"
  {
    var n := IntToString(41);
    assert n == "41" by {
      assert NatToString(41) == NatToString(4) + [DigitChar(1)];
    }
    assert RangeStart(3) == 41 && RangeEnd(3, 41) == 41;
    assert RangeLabel(3, 41) == "Showing " + n + " to " + n + " of " + n + " files";
  }

  // ----- the page's state -----

  class FilesView {
    var fileList: seq<FileInfo>
    var loading: bool
    var currentPage: int
    var totalPages: int
    var totalFiles: int

    constructor ()
      ensures fileList == [] && loading && currentPage == 1 && totalPages == 1 && totalFiles == 0
    {
      fileList := [];
      loading := true;
      currentPage := 1;
      totalPages := 1;
      totalFiles := 0;
    }

    /**
     * The state fetchFiles leaves behind: on success the list is replaced wholesale and the
     * pagination fields take the server's values, not the page asked for; on failure the
     * state stays as it was. Loading is false either way.
     */
    twostate predicate AfterFetch(outcome: Result<FileListResponse, string>)
      reads this
    {
      && !loading
      && (outcome.Ok? ==> && fileList == outcome.value.files
                          && currentPage == outcome.value.pagination.currentPage
                          && totalPages == outcome.value.pagination.totalPages
                          && totalFiles == outcome.value.pagination.totalFiles)
      && (outcome.Err? ==> && fileList == old(fileList) && currentPage == old(currentPage)
                           && totalPages == old(totalPages) && totalFiles == old(totalFiles))
    }

    /**
     * fetchFiles(page) with the list call's outcome: the request goes to the list endpoint
     * for `page`, the new state is AfterFetch, and a failure's message is shown.
     */
    method FetchFiles(page: int, outcome: Result<FileListResponse, string>)
      returns (requested: string, errorShown: Option<string>)
      modifies this
      ensures requested == ListEndpoint(page, PageSize)
      ensures AfterFetch(outcome)
      ensures errorShown == if outcome.Ok? then None else Some(outcome.error)
    {
      loading := true;
      requested := ListEndpoint(page, PageSize);
      match outcome {
        case Ok(response) =>
          fileList := response.files;
          currentPage := response.pagination.currentPage;
          totalPages := response.pagination.totalPages;
          totalFiles := response.pagination.totalFiles;
          errorShown := None;
        case Err(e) =>
          errorShown := Some(e);
      }
      loading := false;
    }

    /** The first load on mount asks for page 1. */
    method Mount(outcome: Result<FileListResponse, string>) returns (requested: string, errorShown: Option<string>)
      modifies this
      ensures requested == ListEndpoint(1, PageSize)
      ensures AfterFetch(outcome)
      ensures errorShown == if outcome.Ok? then None else Some(outcome.error)
    {
      requested, errorShown := FetchFiles(1, outcome);
    }

    /** handlePageChange(newPage): a fetch of newPage when the guard accepts it, nothing otherwise. */
    method HandlePageChange(newPage: int, outcome: Result<FileListResponse, string>)
      returns (requested: Option<string>, errorShown: Option<string>)
      modifies this
      ensures requested.Some? <==> PageChangeAccepted(newPage, old(totalPages))
      ensures requested.Some? ==> && requested.value == ListEndpoint(newPage, PageSize)
                                  && AfterFetch(outcome)
                                  && errorShown == if outcome.Ok? then None else Some(outcome.error)
      ensures requested.None? ==> && fileList == old(fileList) && loading == old(loading)
                                  && currentPage == old(currentPage) && totalPages == old(totalPages)
                                  && totalFiles == old(totalFiles) && errorShown == None
    {
      if newPage >= 1 && newPage <= totalPages {
        var path;
        path, errorShown := FetchFiles(newPage, outcome);
        requested := Some(path);
      } else {
        requested, errorShown := None, None;
      }
    }

    /** handleFileDeleted: reload page 1 or the current page, as PageAfterDelete says. */
    method HandleFileDeleted(outcome: Result<FileListResponse, string>)
      returns (requested: string, errorShown: Option<string>)
      modifies this
      ensures requested == ListEndpoint(PageAfterDelete(|old(fileList)|, old(currentPage)), PageSize)
      ensures AfterFetch(outcome)
      ensures errorShown == if outcome.Ok? then None else Some(outcome.error)
    {
      var page := if |fileList| == 1 && currentPage > 1 then 1 else currentPage;
      requested, errorShown := FetchFiles(page, outcome);
    }
  }
}
