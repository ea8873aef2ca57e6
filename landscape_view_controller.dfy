/** The landscape screen: a paged grid of result buttons over the shared
    search state. Its view hierarchy is abstracted to what its code adds:
    spinners, "Nothing Found" labels, tiled buttons and the page control. */
module Landscape {
  import opened SearchHolder
  import opened LandscapeGeometry

  /** What the screen has put on display so far. Nothing the source adds is
      ever removed except the spinner, so the counters and the button list only grow. */
  datatype Display = Display(
    spinners: nat,            // activity indicators tagged 1000
    nothingFoundLabels: nat,  // "Nothing Found" labels
    buttons: seq<Button>,     // buttons in the scroll view, oldest first
    numberOfPages: int,       // the page control's page count
    currentPage: int,         // the page control's current page
    contentWidth: real)       // the scroll view's content width

  /** The screen as loaded: nothing shown and a page control with no pages. */
  const Blank: Display := Display(0, 0, [], 0, 0, 0.0)

  /** One run of tileButtons for a scroll view `viewWidth` points wide. */
  function Tiled(d: Display, results: seq<SearchResult>, viewWidth: real): Display {
    var p := ProfileFor(viewWidth);
    var pages := PageCount(|results|, p.ButtonsPerPage());
    d.(buttons := d.buttons + TiledButtons(p, results),
       contentWidth := Times(pages, viewWidth),
       numberOfPages := pages,
       currentPage := 0)
  }

  /** What the first layout pass shows for each search state. */
  function FirstLayout(d: Display, state: SearchState, viewWidth: real): Display {
    match state
    case NotSearchedYet => d
    case Loading => d.(spinners := d.spinners + 1)
    case NoResults => d.(nothingFoundLabels := d.nothingFoundLabels + 1)
    case Results(list) => Tiled(d, list, viewWidth)
  }

  /** searchResultsReceived: drop the spinner, then show the finished search. */
  function Received(d: Display, state: SearchState, viewWidth: real): Display {
    var e := d.(spinners := if d.spinners > 0 then d.spinners - 1 else 0);
    match state
    case NotSearchedYet => e
    case Loading => e
    case NoResults => e.(nothingFoundLabels := e.nothingFoundLabels + 1)
    case Results(list) => Tiled(e, list, viewWidth)
  }

  /** The detail item a tapped button opens: `list[tag - 2000]` when the
      segue is the detail segue and the state holds results, nothing otherwise.
      The source does not check the index, so it must be in range. */
  function DetailForButton(state: SearchState, segueId: string, tag: int): (item: Option<SearchResult>)
    requires segueId == "ShowDetail" && state.Results? ==> 0 <= tag - TagBase < |state.list|
    ensures item.Some? <==> segueId == "ShowDetail" && state.Results?
    ensures item.Some? ==> item.value == state.list[tag - TagBase]
  {
    if segueId == "ShowDetail" && state.Results? then Some(state.list[tag - TagBase]) else None
  }

  /** A tiling adds one button per result, in order, tagged 2000 + its index;
      it keeps the buttons already there; every new button is on a counted
      page; and the page control is back on the first page. */
  lemma TilingShowsEveryResult(d: Display, results: seq<SearchResult>, viewWidth: real)
    ensures var t, p := Tiled(d, results, viewWidth), ProfileFor(viewWidth);
            && |t.buttons| == |d.buttons| + |results|
            && t.buttons[..|d.buttons|] == d.buttons
            && (forall i :: 0 <= i < |results| ==>
                  var b := t.buttons[|d.buttons| + i];
                  b.tag == TagBase + i && b.item == results[i] &&
                  i / p.ButtonsPerPage() < t.numberOfPages)
            && t.currentPage == 0
            && (results != [] ==> t.numberOfPages >= 1)
            && t.spinners == d.spinners && t.nothingFoundLabels == d.nothingFoundLabels
  {
    var t, p := Tiled(d, results, viewWidth), ProfileFor(viewWidth);
    forall i | 0 <= i < |results|
      ensures i / p.ButtonsPerPage() < t.numberOfPages
    {
      ButtonPageCounted(|results|, p.ButtonsPerPage(), i);
    }
  }

  /** On the four device widths the layout table names, every tiled button
      lies within the scroll view's content, on the page its index puts it on. */
  lemma TiledButtonsFitContent(results: seq<SearchResult>, viewWidth: real, i: nat)
    requires viewWidth == 568.0 || viewWidth == 667.0 || viewWidth == 736.0 || viewWidth == 724.0
    requires i < |results|
    ensures var t, p := Tiled(Blank, results, viewWidth), ProfileFor(viewWidth);
            var f, page := t.buttons[i].frame, i / p.ButtonsPerPage();
            Times(page, viewWidth) <= f.x && f.x + f.width <= Times(page + 1, viewWidth) &&
            f.x + f.width <= t.contentWidth
  {
    var t, p := Tiled(Blank, results, viewWidth), ProfileFor(viewWidth);
    var page := i / p.ButtonsPerPage();
    RecognizedWidthsFillPage(viewWidth);
    ButtonOnItsPage(p, i);
    ButtonPageCounted(|results|, p.ButtonsPerPage(), i);
    TimesMonotone(page + 1, t.numberOfPages, viewWidth);
  }

  /** The button a tiling made for result `k` opens exactly that result. */
  lemma TappedButtonOpensItsItem(d: Display, list: seq<SearchResult>, viewWidth: real, k: nat)
    requires k < |list|
    ensures var b := Tiled(d, list, viewWidth).buttons[|d.buttons| + k];
            DetailForButton(Results(list), "ShowDetail", b.tag) == Some(b.item) &&
            b.item == list[k]
  {
  }

  /** Tiling never removes the buttons of an earlier tiling. After a longer
      list is followed by a shorter one, the earlier buttons past the new
      list's end are still there, and their tags lie outside the list the
      detail lookup now indexes. */
  lemma StaleButtonsOutliveShorterTiling(first: seq<SearchResult>, second: seq<SearchResult>, viewWidth: real)
    requires |second| < |first|
    ensures var t := Tiled(Tiled(Blank, first, viewWidth), second, viewWidth);
            |t.buttons| == |first| + |second| &&
            forall k :: |second| <= k < |first| ==>
              t.buttons[k].tag == TagBase + k && !(0 <= t.buttons[k].tag - TagBase < |second|)
  {
    var once := Tiled(Blank, first, viewWidth);
    TilingShowsEveryResult(Blank, first, viewWidth);
    TilingShowsEveryResult(once, second, viewWidth);
  }

  class LandscapeViewController {
    const search: Search
    var firstTime: bool
    var viewWidth: real
    var display: Display

    /** At most one spinner is ever on screen, and none before the first layout. */
    ghost predicate Valid()
      reads this
    {
      display.spinners <= 1 && (firstTime ==> display.spinners == 0)
    }

    /** Instantiation and viewDidLoad: shares the holder, shows nothing yet.
        Until the first layout pass the scroll view keeps the width it was
        given in the storyboard, `initialWidth`, which the model leaves open. */
    constructor (search: Search, initialWidth: real)
      ensures this.search == search && firstTime && viewWidth == initialWidth && display == Blank
      ensures Valid()
    {
      this.search := search;
      firstTime := true;
      viewWidth := initialWidth;
      display := Blank;
    }

    /** viewWillLayoutSubviews: the scroll view takes the safe area's width on
        every pass; only the first pass renders the search state. */
    method ViewWillLayoutSubviews(safeWidth: real)
      requires Valid()
      modifies this
      ensures Valid() && !firstTime && viewWidth == safeWidth
      ensures old(firstTime) ==> display == FirstLayout(old(display), search.state, safeWidth)
      ensures !old(firstTime) ==> display == old(display)
    {
      viewWidth := safeWidth;
      if firstTime {
        firstTime := false;
        match search.state
        case NotSearchedYet =>
        case Loading =>
          display := display.(spinners := display.spinners + 1);
        case NoResults =>
          display := display.(nothingFoundLabels := display.nothingFoundLabels + 1);
        case Results(list) =>
          TileButtons(list);
      }
    }

    /** searchResultsReceived: removes the spinner, then shows "Nothing Found"
        or tiles the results; a state still loading shows nothing new. */
    method SearchResultsReceived()
      requires Valid()
      modifies this
      ensures Valid() && firstTime == old(firstTime) && viewWidth == old(viewWidth)
      ensures display == Received(old(display), search.state, viewWidth)
      ensures display.spinners == 0
    {
      if display.spinners > 0 {
        display := display.(spinners := display.spinners - 1);
      }
      match search.state
      case NotSearchedYet =>
      case Loading =>
      case NoResults =>
        display := display.(nothingFoundLabels := display.nothingFoundLabels + 1);
      case Results(list) =>
        TileButtons(list);
    }

    /** tileButtons: picks the profile for the current width, places one button
        per result, and sets the content width and the page control. */
    method TileButtons(results: seq<SearchResult>)
      modifies this`display
      ensures display == Tiled(old(display), results, viewWidth)
    {
      var p := ProfileFor(viewWidth);
      var placed := LayoutButtons(p, results);
      assert placed == TiledButtons(p, results);
      var buttonsPerPage := p.columnsPerPage * p.rowsPerPage;
      var numPages := 1 + SwiftDiv(|results| - 1, buttonsPerPage);
      assert numPages == PageCount(|results|, buttonsPerPage);
      TimesIsProduct(numPages, viewWidth);
      display := display.(buttons := display.buttons + placed,
                          contentWidth := (numPages as real) * viewWidth,
                          numberOfPages := numPages,
                          currentPage := 0);
    }
  }
}
