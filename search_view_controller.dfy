/** The search screen: the results list rendered from the shared search
    state, the category guard in front of every search, and the presence of
    the landscape grid that a rotation adds or removes. */
module SearchScreen {
  import opened SearchHolder
  import Landscape

  /** The three kinds of table cell the list dequeues. */
  datatype Cell = LoadingCell | NothingFoundCell | ResultCell(item: SearchResult)

  /** numberOfRowsInSection: nothing before the first search, one placeholder
      row while loading or when nothing was found, one row per result. */
  function RowCount(state: SearchState): (rows: nat)
    ensures state.NotSearchedYet? ==> rows == 0
    ensures state.Loading? || state.NoResults? ==> rows == 1
    ensures state.Results? ==> rows == |state.list|
  {
    match state
    case NotSearchedYet => 0
    case Loading => 1
    case NoResults => 1
    case Results(list) => |list|
  }

  /** cellForRowAt, for the rows the table asks about. The not-searched state
      has no rows, so the source's fatal branch for it cannot be reached. */
  function CellFor(state: SearchState, row: nat): (cell: Cell)
    requires row < RowCount(state)
    ensures cell == LoadingCell <==> state.Loading?
    ensures cell == NothingFoundCell <==> state.NoResults?
    ensures cell.ResultCell? <==> state.Results?
    ensures cell.ResultCell? ==> cell.item == state.list[row]
  {
    match state
    case Loading => LoadingCell
    case NoResults => NothingFoundCell
    case Results(list) => ResultCell(list[row])
  }

  /** willSelectRowAt: a row can be selected only while results are shown,
      and then the selection is the row itself. */
  function WillSelectRow(state: SearchState, row: nat): (selected: Option<nat>)
    ensures selected.Some? <==> state.Results?
    ensures selected.Some? ==> selected.value == row
  {
    match state
    case NotSearchedYet => None
    case Loading => None
    case NoResults => None
    case Results(_) => Some(row)
  }

  /** prepare(for:sender:): the detail segue receives `list[row]` while results
      are shown; otherwise nothing is handed over. The source does not check
      the index, so it must be in range. */
  function DetailForRow(state: SearchState, segueId: string, row: nat): (item: Option<SearchResult>)
    requires segueId == "ShowDetail" && state.Results? ==> row < |state.list|
    ensures item.Some? <==> segueId == "ShowDetail" && state.Results?
    ensures item.Some? ==> item.value == state.list[row]
  {
    if segueId == "ShowDetail" then
      match state
      case Results(list) => Some(list[row])
      case _ => None
    else None
  }

  /** What performSearch hands to the search holder. */
  datatype SearchRequest = SearchRequest(text: string, category: Category)

  /** performSearch: a search is issued, with the search bar's text, only when
      the selected segment is the raw value of a category; otherwise nothing
      happens at all (no search, no reload, the keyboard stays). */
  function SearchRequestFor(selectedIndex: int, text: string): (request: Option<SearchRequest>)
    ensures request.Some? <==> 0 <= selectedIndex < 4
    ensures request.Some? ==> request.value.text == text && request.value.category.RawValue() == selectedIndex
  {
    match CategoryFromRaw(selectedIndex)
    case None => None
    case Some(category) => Some(SearchRequest(text, category))
  }

  /** Only a row that shows a result can be selected, and the detail screen
      then receives exactly the result that row shows. */
  lemma SelectedRowOpensItsItem(state: SearchState, row: nat)
    requires row < RowCount(state)
    ensures WillSelectRow(state, row).Some? <==> CellFor(state, row).ResultCell?
    ensures WillSelectRow(state, row).Some? ==>
              var selected := WillSelectRow(state, row).value;
              selected < RowCount(state) &&
              DetailForRow(state, "ShowDetail", selected) == Some(CellFor(state, row).item)
  {
  }

  /** With results shown, the list and the grid present the same items in the
      same order: row `k` and the `k`-th button of a tiling show the same
      result, and tapping either opens it. */
  lemma ListAndGridAgree(d: Landscape.Display, list: seq<SearchResult>, viewWidth: real)
    ensures var state, t := Results(list), Landscape.Tiled(d, list, viewWidth);
            && |t.buttons| - |d.buttons| == RowCount(state)
            && forall k :: 0 <= k < RowCount(state) ==>
                 var b := t.buttons[|d.buttons| + k];
                 CellFor(state, k) == ResultCell(b.item) &&
                 Landscape.DetailForButton(state, "ShowDetail", b.tag) == DetailForRow(state, "ShowDetail", k)
  {
    Landscape.TilingShowsEveryResult(d, list, viewWidth);
  }

  /** The vertical size class the screen is about to take. */
  datatype SizeClass = Compact | Regular | Unspecified

  class SearchViewController {
    const search: Search
    var landscapeVC: Landscape.LandscapeViewController?

    /** The landscape screen, when present, shares this screen's search holder. */
    ghost predicate Valid()
      reads this, landscapeVC
    {
      landscapeVC != null ==> landscapeVC.search == search && landscapeVC.Valid()
    }

    constructor (search: Search)
      ensures this.search == search && landscapeVC == null && Valid()
    {
      this.search := search;
      landscapeVC := null;
    }

    /** showLandscape: a no-op when a landscape screen is already present;
        otherwise a new one, sharing the holder, becomes present. */
    method ShowLandscape(initialWidth: real)
      requires Valid()
      modifies this`landscapeVC
      ensures Valid() && landscapeVC != null
      ensures old(landscapeVC) != null ==> landscapeVC == old(landscapeVC)
      ensures old(landscapeVC) == null ==>
                fresh(landscapeVC) && landscapeVC.firstTime && landscapeVC.display == Landscape.Blank &&
                landscapeVC.viewWidth == initialWidth
    {
      if landscapeVC != null {
        return;
      }
      landscapeVC := new Landscape.LandscapeViewController(search, initialWidth);
    }

    /** hideLandscape: removes the landscape screen if there is one. */
    method HideLandscape()
      requires Valid()
      modifies this`landscapeVC
      ensures Valid() && landscapeVC == null
    {
      if landscapeVC != null {
        landscapeVC := null;
      }
    }

    /** willTransition: a compact vertical size class shows the landscape
        screen, a regular or unspecified one hides it. A new landscape
        screen's scroll view starts out `initialWidth` wide. */
    method WillTransition(newSizeClass: SizeClass, initialWidth: real)
      requires Valid()
      modifies this`landscapeVC
      ensures Valid()
      ensures landscapeVC != null <==> newSizeClass == Compact
      ensures newSizeClass == Compact && old(landscapeVC) != null ==> landscapeVC == old(landscapeVC)
      ensures newSizeClass == Compact && old(landscapeVC) == null ==>
                fresh(landscapeVC) && landscapeVC.firstTime && landscapeVC.display == Landscape.Blank &&
                landscapeVC.viewWidth == initialWidth
    {
      match newSizeClass
      case Compact =>
        ShowLandscape(initialWidth);
      case Regular =>
        HideLandscape();
      case Unspecified =>
        HideLandscape();
    }

    /** The completion handler performSearch passes to the holder: it reports
        whether to show the network-error alert, and the landscape screen, if
        present, renders the finished search. */
    method SearchCompleted(success: bool) returns (showNetworkError: bool)
      requires Valid()
      modifies if landscapeVC != null then {landscapeVC} else {}
      ensures Valid() && landscapeVC == old(landscapeVC)
      ensures showNetworkError == !success
      ensures landscapeVC != null ==>
                landscapeVC.firstTime == old(landscapeVC.firstTime) &&
                landscapeVC.viewWidth == old(landscapeVC.viewWidth)
      ensures landscapeVC != null ==>
                landscapeVC.display ==
                  Landscape.Received(old(landscapeVC.display), search.state, landscapeVC.viewWidth)
    {
      showNetworkError := !success;
      if landscapeVC != null {
        landscapeVC.SearchResultsReceived();
      }
    }
  }
}
