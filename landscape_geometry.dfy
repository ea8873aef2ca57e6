/** The arithmetic of the landscape grid: the per-width layout table, where
    the placement loop puts each button, and how many pages the grid needs.
    Lengths are points, kept as exact `real`s (the source's values are whole
    numbers and halves). */
module LandscapeGeometry {
  import opened SearchHolder

  const ButtonWidth: real := 82.0
  const ButtonHeight: real := 82.0

  /** Button `i` of a tiling carries the tag `TagBase + i`. */
  const TagBase: int := 2000

  /** `n` copies of `x` added up, which is `CGFloat(n) * x` (see TimesIsProduct).
      Written as a sum so that every proof about lengths stays linear. */
  function Times(n: nat, x: real): real {
    if n == 0 then 0.0 else Times(n - 1, x) + x
  }

  /** The layout constants tileButtons works with. */
  datatype Profile = Profile(
    columnsPerPage: int,
    rowsPerPage: int,
    itemWidth: real,
    itemHeight: real,
    marginX: real,
    marginY: real)
  {
    /** What the placement loop relies on: a non-empty grid whose cells hold a button. */
    predicate Valid() {
      columnsPerPage > 0 && rowsPerPage > 0 &&
      itemWidth >= ButtonWidth && itemHeight >= ButtonHeight &&
      marginX >= 0.0
    }

    function ButtonsPerPage(): (k: int)
      requires Valid()
      ensures k >= columnsPerPage && k >= rowsPerPage
    {
      MulAtLeast(columnsPerPage, rowsPerPage);
      columnsPerPage * rowsPerPage
    }

    /** The width one page of the grid spans: a margin either side of its columns. */
    function PageWidth(): real
      requires Valid()
    {
      2.0 * marginX + Times(columnsPerPage, itemWidth)
    }
  }

  const DefaultProfile: Profile := Profile(6, 3, 94.0, 88.0, 2.0, 20.0)

  /** The switch on the scroll view's width at the top of tileButtons. */
  function ProfileFor(viewWidth: real): (p: Profile)
    ensures p.Valid()
    ensures viewWidth == 667.0 ==> p == Profile(7, 3, 95.0, 98.0, 1.0, 29.0)
    ensures viewWidth == 736.0 ==> p == Profile(8, 4, 92.0, 88.0, 0.0, 20.0)
    ensures viewWidth == 724.0 ==> p == Profile(8, 3, 90.0, 98.0, 2.0, 29.0)
    ensures viewWidth != 667.0 && viewWidth != 736.0 && viewWidth != 724.0 ==>
              p == Profile(6, 3, 94.0, 88.0, 2.0, 20.0)
  {
    var d := DefaultProfile;
    if viewWidth == 568.0 then d
    else if viewWidth == 667.0 then
      d.(columnsPerPage := 7, itemWidth := 95.0, itemHeight := 98.0, marginX := 1.0, marginY := 29.0)
    else if viewWidth == 736.0 then
      d.(columnsPerPage := 8, rowsPerPage := 4, itemWidth := 92.0, marginX := 0.0)
    else if viewWidth == 724.0 then
      d.(columnsPerPage := 8, rowsPerPage := 3, itemWidth := 90.0, itemHeight := 98.0, marginX := 2.0, marginY := 29.0)
    else d
  }

  /** For the four device widths the table names, one page of the grid spans
      exactly the screen; any other width falls back to the 568-point layout. */
  lemma RecognizedWidthsFillPage(viewWidth: real)
    requires viewWidth == 568.0 || viewWidth == 667.0 || viewWidth == 736.0 || viewWidth == 724.0
    ensures ProfileFor(viewWidth).PageWidth() == viewWidth
  {
    var p := ProfileFor(viewWidth);
    TimesIsProduct(p.columnsPerPage, p.itemWidth);
  }

  datatype Frame = Frame(x: real, y: real, width: real, height: real)

  /** A tiled button: its tag, its frame, and the result whose image it shows. */
  datatype Button = Button(tag: int, frame: Frame, item: SearchResult)

  /** Where the placement loop puts button `i`, in closed form: columns fill
      top to bottom, pages left to right, and every page adds two margins. */
  function ButtonFrame(p: Profile, i: nat): Frame
    requires p.Valid()
  {
    Frame(
      p.marginX + Times(i / p.rowsPerPage, p.itemWidth)
        + Times(i / p.ButtonsPerPage(), 2.0 * p.marginX)
        + (p.itemWidth - ButtonWidth) / 2.0,
      p.marginY + Times(i % p.rowsPerPage, p.itemHeight)
        + (p.itemHeight - ButtonHeight) / 2.0,
      ButtonWidth,
      ButtonHeight)
  }

  /** The buttons one tiling adds, one per result, in order. */
  function TiledButtons(p: Profile, results: seq<SearchResult>): (bs: seq<Button>)
    requires p.Valid()
    ensures |bs| == |results|
  {
    seq(|results|, i requires 0 <= i < |results| => Button(TagBase + i, ButtonFrame(p, i), results[i]))
  }

  /** The placement loop of tileButtons: it walks `row`, `column` and `x` and
      places one button per result, tagged with its index. */
  method LayoutButtons(p: Profile, results: seq<SearchResult>) returns (placed: seq<Button>)
    requires p.Valid()
    ensures |placed| == |results|
    ensures forall i :: 0 <= i < |placed| ==>
              placed[i] == Button(TagBase + i, ButtonFrame(p, i), results[i])
  {
    var paddingHorz := (p.itemWidth - ButtonWidth) / 2.0;
    var paddingVert := (p.itemHeight - ButtonHeight) / 2.0;
    var row, column, x := 0, 0, p.marginX;
    ghost var columnsDone: nat, pagesDone: nat := 0, 0;
    placed := [];
    var index := 0;
    while index < |results|
      invariant 0 <= index <= |results| && |placed| == index
      invariant 0 <= row < p.rowsPerPage && 0 <= column < p.columnsPerPage
      invariant index == columnsDone * p.rowsPerPage + row
      invariant columnsDone == pagesDone * p.columnsPerPage + column
      invariant x == CursorX(p, columnsDone, pagesDone)
      invariant forall i :: 0 <= i < index ==>
                  placed[i] == Button(TagBase + i, ButtonFrame(p, i), results[i])
    {
      CursorIsButtonFrame(p, index, columnsDone, pagesDone, row, column);
      var frame := Frame(x + paddingHorz, p.marginY + (row as real) * p.itemHeight + paddingVert,
                         ButtonWidth, ButtonHeight);
      placed := placed + [Button(TagBase + index, frame, results[index])];
      row := row + 1;
      if row == p.rowsPerPage {
        NextColumn(p, columnsDone, pagesDone);
        row, x, column := 0, x + p.itemWidth, column + 1;
        columnsDone := columnsDone + 1;
        if column == p.columnsPerPage {
          NextPage(p, columnsDone, pagesDone);
          column, x := 0, x + p.marginX * 2.0;
          pagesDone := pagesDone + 1;
        }
      }
      index := index + 1;
    }
  }

  /** The loop's `x` after `columnsDone` full columns and `pagesDone` full pages. */
  function CursorX(p: Profile, columnsDone: nat, pagesDone: nat): real {
    p.marginX + Times(columnsDone, p.itemWidth) + Times(pagesDone, 2.0 * p.marginX)
  }

  /** Finishing a column moves the cursor one item width right, and one more column. */
  lemma NextColumn(p: Profile, columnsDone: nat, pagesDone: nat)
    ensures CursorX(p, columnsDone + 1, pagesDone) == CursorX(p, columnsDone, pagesDone) + p.itemWidth
    ensures (columnsDone + 1) * p.rowsPerPage == columnsDone * p.rowsPerPage + p.rowsPerPage
  {
  }

  /** Finishing a page moves the cursor two margins right, and one more page. */
  lemma NextPage(p: Profile, columnsDone: nat, pagesDone: nat)
    ensures CursorX(p, columnsDone, pagesDone + 1) == CursorX(p, columnsDone, pagesDone) + p.marginX * 2.0
    ensures (pagesDone + 1) * p.columnsPerPage == pagesDone * p.columnsPerPage + p.columnsPerPage
  {
  }

  /** Where the loop puts the button it is at is where the closed form says. */
  lemma CursorIsButtonFrame(p: Profile, index: nat, columnsDone: nat, pagesDone: nat, row: int, column: int)
    requires p.Valid()
    requires 0 <= row < p.rowsPerPage && 0 <= column < p.columnsPerPage
    requires index == columnsDone * p.rowsPerPage + row
    requires columnsDone == pagesDone * p.columnsPerPage + column
    ensures ButtonFrame(p, index) ==
              Frame(CursorX(p, columnsDone, pagesDone) + (p.itemWidth - ButtonWidth) / 2.0,
                    p.marginY + (row as real) * p.itemHeight + (p.itemHeight - ButtonHeight) / 2.0,
                    ButtonWidth, ButtonHeight)
  {
    GridPosition(p, index, columnsDone, pagesDone, row, column);
    TimesIsProduct(row, p.itemHeight);
  }

  /** Swift's `/` on `Int`: the quotient truncated toward zero. */
  function SwiftDiv(a: int, b: int): (q: int)
    requires b > 0
    ensures a >= 0 ==> 0 <= a - q * b < b
    ensures a < 0 ==> 0 <= q * b - a < b
  {
    if a >= 0 then a / b else -((-a) / b)
  }

  /** `1 + (count - 1) / buttonsPerPage`: the fewest pages holding every
      button. For an empty list Swift's `/` truncates -1 / perPage toward
      zero, which gives one page, or none when a page holds a single button. */
  function PageCount(count: nat, perPage: int): (pages: nat)
    requires perPage > 0
    ensures count == 0 ==> pages == (if perPage == 1 then 0 else 1)
    ensures count >= 1 ==> (pages - 1) * perPage < count <= pages * perPage
  {
    var q := SwiftDiv(count - 1, perPage);
    assert (1 + q - 1) * perPage == q * perPage;
    assert (1 + q) * perPage == q * perPage + perPage;
    assert q >= -1 by {
      if q < -1 { MulMonotone(q, -2, perPage); }
    }
    assert count >= 1 ==> q >= 0 by {
      if count >= 1 && q < 0 { MulMonotone(q, -1, perPage); }
    }
    assert count == 0 && perPage > 1 ==> q == 0 by {
      if count == 0 && perPage > 1 && q != 0 {
        if q > 0 { MulMonotone(1, q, perPage); }
        else { MulMonotone(q, -1, perPage); }
      }
    }
    1 + q
  }

  /** For a non-empty list the page count is the ceiling of count / perPage. */
  lemma PageCountIsCeiling(count: nat, perPage: int)
    requires perPage > 0 && count >= 1
    ensures PageCount(count, perPage) == (count + perPage - 1) / perPage
  {
    var pages := PageCount(count, perPage);
    var rest := count + perPage - 1 - pages * perPage;
    assert 0 <= rest < perPage;
    DivModOf(count + perPage - 1, perPage, pages, rest);
  }

  /** Button `i` falls on page `i / perPage`, which is one of the pages counted. */
  lemma ButtonPageCounted(count: nat, perPage: int, i: nat)
    requires perPage > 0 && i < count
    ensures 0 <= i / perPage < PageCount(count, perPage)
  {
    var pages := PageCount(count, perPage);
    assert (i / perPage) * perPage <= i;
    if i / perPage >= pages {
      MulMonotone(pages, i / perPage, perPage);
      assert false;
    }
  }

  /** Each button sits in the middle of its grid cell: the padding is the
      same on both sides, horizontally and vertically. */
  lemma ButtonCentredInCell(p: Profile, i: nat)
    requires p.Valid()
    ensures var f := ButtonFrame(p, i);
            var cellX := ColumnLeft(p, i / p.rowsPerPage);
            var cellY := p.marginY + Times(i % p.rowsPerPage, p.itemHeight);
            && cellX <= f.x && f.x - cellX == (cellX + p.itemWidth) - (f.x + f.width)
            && cellY <= f.y && f.y - cellY == (cellY + p.itemHeight) - (f.y + f.height)
  {
    ButtonLeft(p, i);
  }

  /** No two buttons of one tiling overlap. */
  lemma ButtonsDoNotOverlap(p: Profile, i: nat, j: nat)
    requires p.Valid() && i != j
    ensures var f, g := ButtonFrame(p, i), ButtonFrame(p, j);
            f.x + f.width <= g.x || g.x + g.width <= f.x ||
            f.y + f.height <= g.y || g.y + g.height <= f.y
  {
    var rows := p.rowsPerPage;
    if i / rows == j / rows {
      SameColumnRowsApart(p, i, j);
    } else if i / rows < j / rows {
      ColumnsApart(p, i, j);
    } else {
      ColumnsApart(p, j, i);
    }
  }

  /** Button `i` lies wholly inside page `i / ButtonsPerPage()` of the strip of
      pages, each page `PageWidth()` wide. */
  lemma ButtonOnItsPage(p: Profile, i: nat)
    requires p.Valid()
    ensures var f, page := ButtonFrame(p, i), i / p.ButtonsPerPage();
            Times(page, p.PageWidth()) <= f.x &&
            f.x + f.width <= Times(page + 1, p.PageWidth())
  {
    var cols, w := p.columnsPerPage, p.itemWidth;
    var c := i / p.rowsPerPage;
    var page := PageOf(p, i);
    ButtonLeft(p, i);
    ColumnLeftOnPage(p, c);
    TimesStep(c % cols, cols, w);
    TimesMonotone(0, c % cols, w);
  }

  // ---------------------------------------------------------------------
  // Steps of the geometry proofs

  /** Two buttons of one item column are at least a button height apart. */
  lemma SameColumnRowsApart(p: Profile, i: nat, j: nat)
    requires p.Valid() && i != j && i / p.rowsPerPage == j / p.rowsPerPage
    ensures var fy, gy := ButtonFrame(p, i).y, ButtonFrame(p, j).y;
            fy + ButtonHeight <= gy || gy + ButtonHeight <= fy
  {
    var rows := p.rowsPerPage;
    var q, r, s := i / rows, i % rows, j % rows;
    assert i == q * rows + r;
    assert j == q * rows + s;
    if r < s {
      TimesStep(r, s, p.itemHeight);
    } else {
      TimesStep(s, r, p.itemHeight);
    }
  }

  /** A button in a later column starts at least one item width further right. */
  lemma ColumnsApart(p: Profile, i: nat, j: nat)
    requires p.Valid() && i / p.rowsPerPage < j / p.rowsPerPage
    ensures ButtonFrame(p, i).x + ButtonWidth <= ButtonFrame(p, j).x
  {
    ButtonLeft(p, i);
    ButtonLeft(p, j);
    ColumnLeftGrows(p, i / p.rowsPerPage, j / p.rowsPerPage);
  }

  /** Each later column's cell starts at least one item width further right. */
  lemma ColumnLeftGrows(p: Profile, c: nat, d: nat)
    requires p.Valid() && c < d
    ensures ColumnLeft(p, c) + p.itemWidth <= ColumnLeft(p, d)
  {
    var cols := p.columnsPerPage;
    DivMonotone(c, d, cols);
    TimesStep(c, d, p.itemWidth);
    TimesMonotone(c / cols, d / cols, 2.0 * p.marginX);
  }

  /** The left edge of the cell of item column `c`, counting columns across all pages. */
  function ColumnLeft(p: Profile, c: nat): real
    requires p.Valid()
  {
    p.marginX + Times(c, p.itemWidth) + Times(c / p.columnsPerPage, 2.0 * p.marginX)
  }

  lemma ButtonLeft(p: Profile, i: nat)
    requires p.Valid()
    ensures ButtonFrame(p, i).x == ColumnLeft(p, i / p.rowsPerPage) + (p.itemWidth - ButtonWidth) / 2.0
  {
    var page := PageOf(p, i);
  }

  /** Column `c` is column `c % cols` of page `c / cols`. */
  lemma ColumnLeftOnPage(p: Profile, c: nat)
    requires p.Valid()
    ensures ColumnLeft(p, c) ==
              Times(c / p.columnsPerPage, p.PageWidth()) + p.marginX + Times(c % p.columnsPerPage, p.itemWidth)
  {
    var cols, w, gap := p.columnsPerPage, p.itemWidth, 2.0 * p.marginX;
    var page, col := c / cols, c % cols;
    assert c == page * cols + col;
    TimesAdd(page * cols, col, w);
    TimesMul(page, cols, w);
    TimesDistributes(page, gap, Times(cols, w));
  }

  /** The page of button `i`, as the column it is in divided by the columns per page. */
  lemma PageOf(p: Profile, i: nat) returns (page: nat)
    requires p.Valid()
    ensures page == i / p.ButtonsPerPage() == (i / p.rowsPerPage) / p.columnsPerPage
  {
    DivDiv(i, p.rowsPerPage, p.columnsPerPage);
    assert p.rowsPerPage * p.columnsPerPage == p.ButtonsPerPage();
    page := i / p.ButtonsPerPage();
  }

  /** The loop's counters are the quotients and remainders of the closed form. */
  lemma GridPosition(p: Profile, index: nat, columnsDone: nat, pagesDone: nat, row: int, column: int)
    requires p.Valid()
    requires 0 <= row < p.rowsPerPage && 0 <= column < p.columnsPerPage
    requires index == columnsDone * p.rowsPerPage + row
    requires columnsDone == pagesDone * p.columnsPerPage + column
    ensures index / p.rowsPerPage == columnsDone && index % p.rowsPerPage == row
    ensures index / p.ButtonsPerPage() == pagesDone
  {
    var rows, cols := p.rowsPerPage, p.columnsPerPage;
    DivModOf(index, rows, columnsDone, row);
    DivDiv(index, rows, cols);
    DivModOf(columnsDone, cols, pagesDone, column);
  }

  // ---------------------------------------------------------------------
  // Repeated addition

  /** `Times` is multiplication. */
  lemma {:induction false} TimesIsProduct(n: nat, x: real)
    ensures Times(n, x) == (n as real) * x
  {
    if n > 0 {
      TimesIsProduct(n - 1, x);
      assert ((n - 1) as real) * x + x == (n as real) * x;
    }
  }

  lemma {:induction false} TimesMonotone(a: nat, b: nat, x: real)
    requires a <= b && x >= 0.0
    ensures Times(a, x) <= Times(b, x)
  {
    if a < b {
      TimesMonotone(a, b - 1, x);
    }
  }

  lemma TimesStep(a: nat, b: nat, x: real)
    requires a < b && x >= 0.0
    ensures Times(a, x) + x <= Times(b, x)
  {
    TimesMonotone(a + 1, b, x);
  }

  lemma {:induction false} TimesAdd(a: nat, b: nat, x: real)
    ensures Times(a + b, x) == Times(a, x) + Times(b, x)
  {
    if b > 0 {
      TimesAdd(a, b - 1, x);
    }
  }

  lemma {:induction false} TimesMul(a: nat, b: nat, x: real)
    ensures Times(a * b, x) == Times(a, Times(b, x))
  {
    if a > 0 {
      TimesMul(a - 1, b, x);
      assert a * b == (a - 1) * b + b;
      TimesAdd((a - 1) * b, b, x);
    }
  }

  lemma {:induction false} TimesDistributes(n: nat, x: real, y: real)
    ensures Times(n, x + y) == Times(n, x) + Times(n, y)
  {
    if n > 0 {
      TimesDistributes(n - 1, x, y);
    }
  }

  // ---------------------------------------------------------------------
  // Integer helpers

  lemma MulAtLeast(a: int, b: int)
    requires a > 0 && b > 0
    ensures a * b >= a && a * b >= b
  {
  }

  lemma MulMonotone(a: int, b: int, k: int)
    requires a <= b && k >= 0
    ensures a * k <= b * k
  {
  }

  /** Quotient and remainder are the unique pair with `n == q * d + r`, `0 <= r < d`. */
  lemma DivModOf(n: int, d: int, q: int, r: int)
    requires d > 0 && 0 <= r < d && n == q * d + r
    ensures n / d == q && n % d == r
  {
    var q0, r0 := n / d, n % d;
    assert n == q0 * d + r0;
    if q0 < q {
      MulMonotone(q0 + 1, q, d);
      assert false;
    } else if q < q0 {
      MulMonotone(q + 1, q0, d);
      assert false;
    }
  }

  /** Dividing by `a` and then by `b` is dividing by `a * b`. */
  lemma DivDiv(n: nat, a: int, b: int)
    requires a > 0 && b > 0
    ensures n / (a * b) == (n / a) / b
  {
    var q1, r1 := n / a, n % a;
    var q2, r2 := q1 / b, q1 % b;
    assert n == q1 * a + r1;
    assert q1 == q2 * b + r2;
    assert n == q2 * (a * b) + (r2 * a + r1);
    MulMonotone(r2, b - 1, a);
    DivModOf(n, a * b, q2, r2 * a + r1);
  }

  lemma DivMonotone(a: nat, b: nat, d: int)
    requires a <= b && d > 0
    ensures a / d <= b / d
  {
    assert (a / d) * d <= a;
    assert b < (b / d + 1) * d;
    if a / d > b / d {
      MulMonotone(b / d + 1, a / d, d);
      assert false;
    }
  }
}
