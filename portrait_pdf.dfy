/** src/image_processing/portrait_pdf_gen.py: which directory entries are portraits, and
    where `generate_pdf_from_dir` puts each of them on the A4 pages of the grid. The
    FPDF drawing calls and the floating-point fitting of an image into its cell are not
    part of this model; a page is what `pdf.add_page()` starts and a placement is one
    `pdf.image(...)` call, given by its page and its grid slot. */
module PortraitPdf {
  import opened Wrappers
  import opened Text

  ////////////////////////////////////////////////////////////////////////////
  // Picking the images.

  /** `c.lower()` on the ASCII letters. Of the other characters only U+0130 and U+212A
      lower-case into ASCII (to "i" with a combining dot and to "k"), and neither of
      those is a letter of an extension below, so the membership test is exact. */
  function LowerChar(c: char): char {
    if 'A' <= c <= 'Z' then (c as int + 32) as char else c
  }

  function Lower(s: string): (r: string)
    ensures |r| == |s| && forall i :: 0 <= i < |s| ==> r[i] == LowerChar(s[i])
  {
    seq(|s|, i requires 0 <= i < |s| => LowerChar(s[i]))
  }

  /** `PurePath(name).suffix` for a file name: from the last dot on, unless that dot is
      the first or the last character, in which case there is no suffix. */
  function Suffix(name: string): (r: string)
    ensures r == [] || (r[0] == '.' && |r| >= 2 && '.' !in r[1..])
    ensures r != [] ==> |r| < |name| && r == name[|name| - |r|..]
  {
    var i := RFind(name, '.');
    if 0 < i < |name| - 1 then name[i..] else []
  }

  const Extensions: set<string> := {".jpg", ".jpeg", ".png", ".bmp", ".webp"}

  predicate IsImage(name: string) {
    Lower(Suffix(name)) in Extensions
  }

  /** `get_image_files`: the entries with an image suffix, in the order the directory listed them. */
  function ImageFiles(entries: seq<string>): (r: seq<string>)
    ensures |r| <= |entries|
    ensures forall k :: 0 <= k < |r| ==> IsImage(r[k])
  {
    if entries == [] then []
    else if IsImage(entries[0]) then [entries[0]] + ImageFiles(entries[1..])
    else ImageFiles(entries[1..])
  }

  /** Exactly the image entries are kept, each as many times as it was listed. */
  lemma {:induction false} ImageFilesKeep(entries: seq<string>, x: string)
    ensures multiset(ImageFiles(entries))[x] == if IsImage(x) then multiset(entries)[x] else 0
  {
    if entries != [] {
      ImageFilesKeep(entries[1..], x);
      assert entries == [entries[0]] + entries[1..];
    }
  }

  lemma ImageFilesMembers(entries: seq<string>, x: string)
    ensures x in ImageFiles(entries) <==> x in entries && IsImage(x)
  {
    ImageFilesKeep(entries, x);
  }

  /** An upper-case extension counts; a dot file such as ".png" has no suffix and does not. */
  lemma SuffixExamples()
    ensures IsImage("dwarf.PNG")
    ensures !IsImage(".png")
  {
    assert "dwarf.PNG"[5] == '.' && '.' !in "dwarf.PNG"[6..];
    assert RFind("dwarf.PNG", '.') == 5;
    assert Suffix("dwarf.PNG") == ".PNG";
    assert Lower(".PNG") == ".png";
    assert RFind(".png", '.') == 0;
  }

  ////////////////////////////////////////////////////////////////////////////
  // Python's integer `%` and `//`.

  function Abs(k: int): nat {
    if k < 0 then -k else k
  }

  /** Python's `a % b`: the remainder takes the sign of `b`. */
  function PyMod(a: int, b: int): (r: int)
    requires b != 0
    ensures b > 0 ==> 0 <= r < b
    ensures b < 0 ==> b < r <= 0
    ensures (r == 0) <==> (a % Abs(b) == 0)
  {
    var m := a % Abs(b);
    if b < 0 && m != 0 then m + b else m
  }

  /** Python's `a // b`: the floor of the quotient. */
  function PyDiv(a: int, b: int): (r: int)
    requires b != 0
    ensures a == b * r + PyMod(a, b)
  {
    if b > 0 then a / b
    else if a % Abs(b) == 0 then -(a / Abs(b))
    else -(a / Abs(b)) - 1
  }

  ////////////////////////////////////////////////////////////////////////////
  // The grid.

  /** One `pdf.image(...)` call: the image, the page it is drawn on (counted from 0) and
      the cell `(col, row)`. */
  datatype Placement = Placement(image: string, page: nat, col: int, row: int)

  /** What the loop produces: the number of pages added and the images drawn, in order. */
  datatype Document = Document(pages: nat, placements: seq<Placement>)

  /** How many of `0, 1, ..., n - 1` are multiples of `k`: the pages the loop adds for `n` images. */
  function PageCount(n: nat, k: int): nat
    requires k != 0
  {
    if n == 0 then 0 else (n - 1) / Abs(k) + 1
  }

  /** Where the `i`-th image goes: `idx_on_page = i % (columns * rows)`,
      `col = idx_on_page % columns`, `row = idx_on_page // columns`, on the page that
      the last `add_page` before it started. */
  function SlotOf(image: string, i: nat, columns: int, rows: int): Placement
    requires columns != 0 && rows != 0
  {
    var idx := PyMod(i, columns * rows);
    Placement(image, i / Abs(columns * rows), PyMod(idx, columns), PyDiv(idx, columns))
  }

  /** The pages added and the images placed, in list order. */
  function Layout(images: seq<string>, columns: int, rows: int): (d: Document)
    requires columns != 0 && rows != 0
    ensures |d.placements| == |images|
    ensures forall i :: 0 <= i < |images| ==> d.placements[i].image == images[i]
  {
    Document(PageCount(|images|, columns * rows),
      seq(|images|, i requires 0 <= i < |images| => SlotOf(images[i], i, columns, rows)))
  }

  /** What `Image.open` and `pdf.image` give each image: None when the file opens as an
      image and is drawn, else the text of the exception raised (a sub-directory or a file
      that is not an image can carry an image suffix). The error of the first image that
      does not open, in list order, or None when every image opens. */
  function OpenFailure(images: seq<string>, opens: string -> Option<string>): (r: Option<string>)
    ensures r.None? <==> forall i :: 0 <= i < |images| ==> opens(images[i]).None?
  {
    if images == [] then None
    else
      var front := images[..|images| - 1];
      var p := OpenFailure(front, opens);
      assert forall i :: 0 <= i < |front| ==> front[i] == images[i];
      if p.Some? then p else opens(images[|images| - 1])
  }

  /** `generate_pdf_from_dir`, up to the output: the `ValueError` for a path that is not
      a directory or holds no image, the `ZeroDivisionError` of `available_width / columns`
      or `available_height / rows`, the exception of the first image that does not open,
      or the document. `dirText` is `str(input_dir)`. */
  function Generate(isDir: bool, dirText: string, entries: seq<string>, columns: int, rows: int,
                    opens: string -> Option<string>): (r: Result<Document, string>)
    ensures r.Ok? <==> isDir && ImageFiles(entries) != [] && columns != 0 && rows != 0 && OpenFailure(ImageFiles(entries), opens).None?
    ensures r.Ok? ==> r.value == Layout(ImageFiles(entries), columns, rows)
    ensures isDir && ImageFiles(entries) != [] && columns != 0 && rows != 0 && OpenFailure(ImageFiles(entries), opens).Some? ==>
      r == Err(OpenFailure(ImageFiles(entries), opens).value)
  {
    if !isDir then Err(dirText + " is not a directory")
    else
      var images := ImageFiles(entries);
      if images == [] then Err("No images found in " + dirText)
      else if columns == 0 || rows == 0 then Err("float division by zero")
      else
        match OpenFailure(images, opens)
        case Some(e) => Err(e)
        case None => Ok(Layout(images, columns, rows))
  }

  /** The loop of `generate_pdf_from_dir`: a page is added whenever `count` is a
      multiple of `columns * rows`, then the image is opened and placed in its slot; the
      first image that does not open ends the loop with its exception. */
  method Place(images: seq<string>, columns: int, rows: int, opens: string -> Option<string>) returns (r: Result<Document, string>)
    requires columns != 0 && rows != 0
    ensures r == match OpenFailure(images, opens) case Some(e) => Err(e) case None => Ok(Layout(images, columns, rows))
  {
    var perPage := columns * rows;
    var pages: nat := 0;
    var placed: seq<Placement> := [];
    var count := 0;
    while count < |images|
      invariant 0 <= count <= |images|
      invariant pages == PageCount(count, perPage)
      invariant placed == Layout(images[..count], columns, rows).placements
      invariant OpenFailure(images[..count], opens).None?
    {
      if PyMod(count, perPage) == 0 {
        pages := pages + 1;
      }
      NextPage(count, perPage);
      var idx := PyMod(count, perPage);
      var col := PyMod(idx, columns);
      var row := PyDiv(idx, columns);
      assert images[..count + 1][..count] == images[..count];
      var status := opens(images[count]);
      if status.Some? {
        assert forall j :: 0 <= j < count ==> opens(images[j]).None? by {
          forall j | 0 <= j < count ensures opens(images[j]).None? {
            assert images[..count][j] == images[j];
          }
        }
        OpenFailureFirst(images, count, opens);
        return Err(status.value);
      }
      placed := placed + [Placement(images[count], pages - 1, col, row)];
      count := count + 1;
    }
    assert images[..count] == images;
    r := Ok(Document(pages, placed));
  }

  /** When the images before `k` open and image `k` does not, its exception is the one
      reported, whatever the images after it give. */
  lemma {:induction false} OpenFailureFirst(images: seq<string>, k: nat, opens: string -> Option<string>)
    requires k < |images| && opens(images[k]).Some?
    requires forall j :: 0 <= j < k ==> opens(images[j]).None?
    ensures OpenFailure(images, opens) == opens(images[k])
    decreases |images|
  {
    var front := images[..|images| - 1];
    if k == |images| - 1 {
      assert forall i :: 0 <= i < |front| ==> opens(front[i]).None? by {
        forall i | 0 <= i < |front| ensures opens(front[i]).None? {
          assert front[i] == images[i];
        }
      }
    } else {
      assert front[k] == images[k];
      assert forall j :: 0 <= j < k ==> opens(front[j]).None? by {
        forall j | 0 <= j < k ensures opens(front[j]).None? {
          assert front[j] == images[j];
        }
      }
      OpenFailureFirst(front, k, opens);
    }
  }


  /** Image `n` opens a page exactly when `n` is a multiple of the page size, and it is
      drawn on the last page opened so far. */
  lemma NextPage(n: nat, k: int)
    requires k != 0
    ensures PageCount(n + 1, k) == PageCount(n, k) + (if n % Abs(k) == 0 then 1 else 0)
    ensures PageCount(n + 1, k) >= 1 && n / Abs(k) == PageCount(n + 1, k) - 1
  {
    var a := Abs(k);
    if n > 0 {
      assert n == (n - 1) + 1;
      DivStep(n - 1, a);
    }
  }

  lemma DivStep(m: nat, a: nat)
    requires a > 0
    ensures (m + 1) / a == m / a + (if (m + 1) % a == 0 then 1 else 0)
  {
    var q, r := m / a, m % a;
    assert m == q * a + r && 0 <= r < a;
    if r + 1 == a {
      assert m + 1 == (q + 1) * a + 0;
      DivModUnique(m + 1, a, q + 1, 0);
    } else {
      DivModUnique(m + 1, a, q, r + 1);
    }
  }

  lemma DivModUnique(m: int, a: int, q: int, r: int)
    requires a > 0 && m == q * a + r && 0 <= r < a
    ensures m / a == q && m % a == r
  {
    var q', r' := m / a, m % a;
    assert (q - q') * a == r' - r;
    MulBetween(q - q', a);
  }

  lemma MulBetween(x: int, a: int)
    requires a > 0 && -a < x * a < a
    ensures x == 0
  {
  }

  lemma MulPositive(a: int, x: int)
    requires a > 0 && a * x > 0
    ensures x > 0
  {
  }

  lemma MulMono(a: int, x: int, y: int)
    requires a > 0 && x <= y
    ensures a * x <= a * y
  {
  }

  /** Dividing by a positive number keeps the order. */
  lemma DivMono(m: int, n: int, a: int)
    requires a > 0 && m <= n
    ensures m / a <= n / a
  {
    var q1, r1, q2, r2 := m / a, m % a, n / a, n % a;
    assert m == q1 * a + r1 && n == q2 * a + r2;
    assert a * (q2 - q1 + 1) == (n - r2) - (m - r1) + a;
    MulPositive(a, q2 - q1 + 1);
  }

  /** `generate_pdf_from_dir` through the loop. */
  method GeneratePdf(isDir: bool, dirText: string, entries: seq<string>, columns: int, rows: int,
                     opens: string -> Option<string>) returns (r: Result<Document, string>)
    ensures r == Generate(isDir, dirText, entries, columns, rows, opens)
  {
    if !isDir {
      return Err(dirText + " is not a directory");
    }
    var images := ImageFiles(entries);
    if images == [] {
      return Err("No images found in " + dirText);
    }
    if columns == 0 || rows == 0 {
      return Err("float division by zero");
    }
    r := Place(images, columns, rows, opens);
  }

  ////////////////////////////////////////////////////////////////////////////
  // What the layout promises for a grid of at least one column and one row.

  /** `n` images take `ceil(n / (columns * rows))` pages. */
  lemma PagesAreCeiling(n: nat, columns: int, rows: int)
    requires columns >= 1 && rows >= 1
    ensures var k := columns * rows; var p := PageCount(n, k);
      p * k >= n && (n > 0 ==> (p - 1) * k < n) && p == (n + k - 1) / k
  {
    var k := columns * rows;
    MulMono(rows, 1, columns);
    assert k >= 1;
    if n > 0 {
      var q := (n - 1) / k;
      var r := (n - 1) % k;
      assert n - 1 == q * k + r && 0 <= r < k;
      assert (q + 1) * k == q * k + k;
      DivModUnique(n + k - 1, k, q + 1, r);
    } else {
      DivModUnique(k - 1, k, 0, k - 1);
    }
  }

  /** Each image's slot is inside the grid, and it is the `idx_on_page`-th cell in
      row-major order. */
  lemma SlotInGrid(image: string, i: nat, columns: int, rows: int)
    requires columns >= 1 && rows >= 1
    ensures var p := SlotOf(image, i, columns, rows);
      && 0 <= p.col < columns && 0 <= p.row < rows
      && p.row * columns + p.col == i % (columns * rows)
  {
    var k := columns * rows;
    MulMono(rows, 1, columns);
    var idx := PyMod(i, k);
    assert 0 <= idx < k && idx == i % k;
    var col := PyMod(idx, columns);
    var row := PyDiv(idx, columns);
    assert idx == columns * row + col && 0 <= col < columns;
    RowBound(idx, columns, rows, row, col);
  }

  lemma RowBound(idx: int, columns: int, rows: int, row: int, col: int)
    requires columns >= 1 && rows >= 1 && 0 <= idx < columns * rows
    requires idx == columns * row + col && 0 <= col < columns
    ensures 0 <= row < rows
  {
    assert columns * (row + 1) == idx - col + columns;
    MulPositive(columns, row + 1);
    assert columns * (rows - row) == columns * rows - columns * row;
    MulPositive(columns, rows - row);
  }

  /** Two different images on the same page get different cells. */
  lemma SlotsDistinct(a: string, b: string, i: nat, j: nat, columns: int, rows: int)
    requires columns >= 1 && rows >= 1 && i != j
    requires SlotOf(a, i, columns, rows).page == SlotOf(b, j, columns, rows).page
    ensures (SlotOf(a, i, columns, rows).col, SlotOf(a, i, columns, rows).row)
         != (SlotOf(b, j, columns, rows).col, SlotOf(b, j, columns, rows).row)
  {
    var k := columns * rows;
    MulMono(rows, 1, columns);
    SlotInGrid(a, i, columns, rows);
    SlotInGrid(b, j, columns, rows);
    SameCell(i, j, k, SlotOf(a, i, columns, rows).row * columns + SlotOf(a, i, columns, rows).col,
      SlotOf(b, j, columns, rows).row * columns + SlotOf(b, j, columns, rows).col);
  }

  lemma SameCell(i: nat, j: nat, k: int, ci: int, cj: int)
    requires k >= 1 && i != j && i / k == j / k && ci == i % k && cj == j % k
    ensures ci != cj
  {
    assert i == (i / k) * k + i % k;
    assert j == (j / k) * k + j % k;
  }

  /** The document lists every image once, in order, with a page count of the ceiling. */
  lemma LayoutShape(images: seq<string>, columns: int, rows: int)
    requires columns >= 1 && rows >= 1
    ensures var d := Layout(images, columns, rows); var k := columns * rows;
      && |d.placements| == |images|
      && (forall i :: 0 <= i < |images| ==> d.placements[i].image == images[i] && d.placements[i].page < d.pages)
      && d.pages * k >= |images|
  {
    var d := Layout(images, columns, rows);
    var k := columns * rows;
    PagesAreCeiling(|images|, columns, rows);
    MulMono(rows, 1, columns);
    forall i | 0 <= i < |images| ensures d.placements[i].page < d.pages {
      NextPage(i, k);
      PageCountGrows(i + 1, |images|, k);
    }
  }

  lemma PageCountGrows(m: nat, n: nat, k: int)
    requires k != 0 && m <= n
    ensures PageCount(m, k) <= PageCount(n, k)
  {
    if m > 0 {
      DivMono(m - 1, n - 1, Abs(k));
    }
  }
}
