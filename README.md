# StoreSearch presentation logic in Dafny

StoreSearch is an iOS store browser. A search holder publishes a four-case
search state: not searched yet, loading, no results, or results with a list of
items. Two screens render that state:

- the portrait **search screen** (`SearchViewController`) shows it as a table;
- the **landscape screen** (`LandscapeViewController`) shows it as a paged grid of buttons.

This project models the logic under those two view controllers and proves
what they promise:

- `search_holder.dfy` (module `SearchHolder`) holds the search state, the result
  items and the category filter. It also holds the shared holder object, as state only.
- `search_view_controller.dfy` (module `SearchScreen`) covers the table:
  - the row count, the cell kind and row selection;
  - the item handed to the detail screen;
  - the category guard in front of every search;
  - the presence of the landscape screen as a class whose methods show, hide and
    switch on the size class.
- `landscape_geometry.dfy` (module `LandscapeGeometry`) covers the grid arithmetic:
  - the layout table keyed on the scroll view's width;
  - the placement loop of `tileButtons`, proved against a closed form of every button's frame;
  - Swift's truncating division and the page count.
- `landscape_view_controller.dfy` (module `Landscape`) models the landscape
  screen as a class. Its display is what the screen's code has added so far:
  spinners, "Nothing Found" labels, tiled buttons and the page control. The
  class covers the one-shot first layout, the rendering when a search
  finishes, `tileButtons`, and the button-tag to detail-item lookup.

Geometry is exact: CGFloat lengths are Dafny `real`s, so `(95 - 82) / 2` is
`6.5`. A count times a length, such as `CGFloat(numPages) * viewWidth`, is
written `Times(n, x)`: `x` added `n` times, proved equal to the product by
`TimesIsProduct`. Integer division is Swift's, truncating toward zero, so an empty list
still gets `1 + (0 - 1) / perPage = 1` page.

Choices the code dictates:

- Both `prepare(for:sender:)` methods index the result list without a bounds
  check (SearchViewController.swift:90, LandscapeViewController.swift:101).
  `DetailForRow` and `DetailForButton` therefore require the index to be in range.
- Nothing in these two files keeps the results case from holding an empty
  list, so the model admits `Results([])`. Its page count is the code's `1`.
- Old buttons are never removed from the scroll view. A second tiling adds to
  them, and the model's button list keeps the earlier ones. After a longer list
  is followed by a shorter one, the earlier buttons past the new list's end stay,
  and their tags point outside the new list (`StaleButtonsOutliveShorterTiling`).
  Tapping one of them would index out of range.
- Until its first layout pass, the landscape screen's scroll view keeps the
  width the storyboard gave it. The model takes that width as a parameter,
  because the storyboard is not part of it. A search that finishes before the
  first layout pass is tiled with that width.

## Model

| member | source | states |
|---|---|---|
| SearchHolder.CategoryFromRaw | StoreSearch/SearchViewController.swift:154-155 | a segment index yields a category exactly when it is 0 to 3, and the category's raw value is that index |
| SearchHolder.CategoryRoundTrip | StoreSearch/SearchViewController.swift:154-155 | every category is recovered from its own raw value |
| SearchHolder.Search.constructor | StoreSearch/SearchViewController.swift:36 | a new search holder has not searched yet |
| SearchScreen.RowCount | StoreSearch/SearchViewController.swift:171-182 | 0 rows before any search, 1 placeholder row while loading or when nothing was found, one row per result |
| SearchScreen.CellFor | StoreSearch/SearchViewController.swift:184-205 | the loading cell exactly while loading, the nothing-found cell exactly for no results, and for results the item at that row; the not-searched state has no row to ask about |
| SearchScreen.WillSelectRow | StoreSearch/SearchViewController.swift:212-219 | selection is refused in the three placeholder states and returns the same row when results are shown |
| SearchScreen.DetailForRow | StoreSearch/SearchViewController.swift:85-94 | the detail segue receives `list[row]` exactly when results are shown; any other state or segue hands nothing over |
| SearchScreen.SearchRequestFor | StoreSearch/SearchViewController.swift:153-167 | a search is issued only for a segment index that is a category's raw value, and then with the search bar's text and that category; otherwise nothing happens |
| SearchScreen.SelectedRowOpensItsItem | StoreSearch/SearchViewController.swift:207-219 | only a row showing a result can be selected, and the detail screen then gets the very item that row shows |
| SearchScreen.ListAndGridAgree | StoreSearch/SearchViewController.swift:179-203 | with results shown, the list has as many rows as the tiling adds buttons, row k and button k show the same item, and tapping either opens the same item |
| SearchScreen.SearchViewController.constructor | StoreSearch/SearchViewController.swift:36-37 | the screen starts with no landscape screen present |
| SearchScreen.SearchViewController.ShowLandscape | StoreSearch/SearchViewController.swift:106-125 | afterwards a landscape screen is present; if one already was, it is the same one (showing twice leaves exactly one); otherwise it is new, shares the holder, has not laid out yet and has the given starting width |
| SearchScreen.SearchViewController.HideLandscape | StoreSearch/SearchViewController.swift:127-141 | afterwards no landscape screen is present, whether or not one was |
| SearchScreen.SearchViewController.WillTransition | StoreSearch/SearchViewController.swift:67-78 | a landscape screen is present afterwards exactly when the new vertical size class is compact; an existing one is kept, and a new one has the given starting width |
| SearchScreen.SearchViewController.SearchCompleted | StoreSearch/SearchViewController.swift:156-162 | the network-error alert is shown exactly when the search failed; a present landscape screen stays the same screen, keeps its first-layout flag and width, and renders the finished state |
| LandscapeGeometry.ProfileFor | StoreSearch/LandscapeViewController.swift:123-163 | width 667 gives 7x3 items of 95x98 with margins 1/29; 736 gives 8x4 of 92x88 with margins 0/20; 724 gives 8x3 of 90x98 with margins 2/29; 568 and any other width give the default 6x3 of 94x88 with margins 2/20 |
| LandscapeGeometry.RecognizedWidthsFillPage | StoreSearch/LandscapeViewController.swift:132-163 | for the four device widths the table names, one page of columns plus its two margins spans exactly the screen width |
| LandscapeGeometry.LayoutButtons | StoreSearch/LandscapeViewController.swift:165-189 | the loop over `row`, `column` and `x` places exactly one button per result; button i is tagged 2000 + i, shows result i, is 82x82, and its origin is `marginX + (i / rows) * itemWidth + (i / perPage) * 2 * marginX + padding`, `marginY + (i % rows) * itemHeight + padding` |
| LandscapeGeometry.SwiftDiv | StoreSearch/LandscapeViewController.swift:192 | Swift's integer `/`: the quotient truncated toward zero, for either sign of the dividend |
| LandscapeGeometry.PageCount | StoreSearch/LandscapeViewController.swift:191-192 | for n >= 1 results, `1 + (n - 1) / perPage` is the fewest pages that hold them all; for no results it is one page (none if a page held a single button) |
| LandscapeGeometry.PageCountIsCeiling | StoreSearch/LandscapeViewController.swift:191-192 | for n >= 1 the page count equals the ceiling of n / perPage |
| LandscapeGeometry.ButtonPageCounted | StoreSearch/LandscapeViewController.swift:191-198 | the page `i / perPage` of every placed button is one of the pages the page control counts |
| LandscapeGeometry.ButtonCentredInCell | StoreSearch/LandscapeViewController.swift:165-179 | each button sits inside its item cell with equal padding on both sides, horizontally and vertically |
| LandscapeGeometry.ButtonsDoNotOverlap | StoreSearch/LandscapeViewController.swift:170-189 | no two buttons of one tiling overlap |
| LandscapeGeometry.ButtonOnItsPage | StoreSearch/LandscapeViewController.swift:179-189 | button i lies wholly within page `i / perPage` of the strip of pages, each one page width wide: between `page * pageWidth` and `(page + 1) * pageWidth` |
| LandscapeGeometry.TimesIsProduct | StoreSearch/LandscapeViewController.swift:179 | repeated addition of a length `n` times equals `CGFloat(n)` times that length, which is how the source computes a row's offset and the content width |
| Landscape.DetailForButton | StoreSearch/LandscapeViewController.swift:97-105 | the detail segue receives `list[tag - 2000]` exactly when results are shown; otherwise nothing is handed over |
| Landscape.TappedButtonOpensItsItem | StoreSearch/LandscapeViewController.swift:101 | the tag 2000 + k given to the button for result k leads the detail lookup back to result k |
| Landscape.StaleButtonsOutliveShorterTiling | StoreSearch/LandscapeViewController.swift:165-199 | after tiling a longer list and then a shorter one, the first tiling's buttons past the shorter list's end remain, tagged 2000 + k, and no such tag indexes into the shorter list |
| Landscape.TilingShowsEveryResult | StoreSearch/LandscapeViewController.swift:173-199 | a tiling adds one button per result in order with tags 2000 + i, keeps the buttons already there, puts each new button on a counted page, has at least one page for a non-empty list, and resets the current page to 0 |
| Landscape.TiledButtonsFitContent | StoreSearch/LandscapeViewController.swift:130-195 | on the four named widths every tiled button lies between `page * viewWidth` and `(page + 1) * viewWidth` for its page, and within the scroll view's content width `numPages * viewWidth` |
| Landscape.LandscapeViewController.constructor | StoreSearch/LandscapeViewController.swift:37-53 | a new landscape screen shares the holder, has not laid out yet and shows nothing, with a page control of zero pages; its scroll view keeps the width it was created with |
| Landscape.LandscapeViewController.ViewWillLayoutSubviews | StoreSearch/LandscapeViewController.swift:55-76 | every pass takes the new width; only the first pass renders the state (spinner, "Nothing Found" label or tiling), and later passes change nothing on display |
| Landscape.LandscapeViewController.SearchResultsReceived | StoreSearch/LandscapeViewController.swift:108-119 | the spinner is gone; not-searched and loading add nothing, no results adds the "Nothing Found" label, and results are tiled |
| Landscape.LandscapeViewController.TileButtons | StoreSearch/LandscapeViewController.swift:122-200 | the new display is the old one with the tiling's buttons appended, the content width set to pages times the view width, the page count set, and the current page set to 0 |

## Left out

- DetailForRow: an out-of-range row is excluded by a precondition. The crash the source hits on a stale row is not modelled as an outcome.
- DetailForButton: an out-of-range tag is excluded by a precondition. The crash the source hits on a stale button's tag (see `StaleButtonsOutliveShorterTiling`) is not modelled as an outcome.
- The scroll view's width from the storyboard is not known to the model; the constructor, `ShowLandscape` and `WillTransition` take it as a parameter.
- Image downloading is not modelled: the per-button `URLSession` task, the `downloads` list and its cancellation in `deinit` (LandscapeViewController.swift:78-83, 202-218). It is network I/O and asynchrony, and no button's frame, tag or page depends on it.
- Floating-point view math is not modelled: page rounding in `scrollViewDidScroll`, the content offset in `pageChanged`, the spinner's centre and the label's rounded size. Only the fact that a spinner or a label is added or removed is kept.
- UIKit set-up that carries no decisions is not modelled: nib registration, content insets, colours, segmented-control styling, constraint removal, first-responder changes, and the page control's frame.
- Alerts and localized strings are reduced to one fact: `SearchCompleted` reports whether the network-error alert is shown.
- Segues, child-controller containment and transition animations are reduced to whether a landscape screen is present.
- The source clears `landscapeVC` in the hide animation's completion block. `HideLandscape` clears it at once, as the state after the transition completes.
- Instantiating the landscape screen from the storyboard is assumed to succeed. The source's `as?` cast could give nil, which would leave the field empty.
- `SizeClass` is a closed datatype, so the source's `@unknown default: fatalError()` branch has no counterpart.
- The search holder's source is not part of this model:
  - its network request, its completion order, and when it moves to loading;
  - whether it ever publishes an empty result list;
  - the category raw values are assumed to be 0 to 3 (All, Music, Software, E-books).
  - The state is assigned by the environment, and `SearchRequestFor` returns the request that `performSearch` would hand over.
- `tableView.reloadData()` is implicit: the table re-reads `RowCount` and `CellFor` from the current state.
- The scroll view's content height is not modelled. The grid's width is the safe area's width, taken as exact.
