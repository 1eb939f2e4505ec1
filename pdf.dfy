/**
 * `generatePDF` of src/lib/pdf.ts: the title block, the menu and shopping
 * list sections drawn line by line with a vertical cursor `y` (millimetres
 * from the top of an A4 page), page breaks when the cursor passes a limit,
 * and a footer on every page.
 *
 * The jsPDF document is an abstract page-and-text log: how many pages it has,
 * which one is current, and the texts drawn, each with its page and position.
 * `splitTextToSize` and the cost formatting (a regular-expression match,
 * `parseFloat` and `toFixed`) are collaborators passed in as functions.
 */
module Pdf {
  import opened Wrappers
  import opened JsString

  /** Where the cursor starts, below the title block. */
  const StartY: int := 50
  /** Where the cursor restarts on a new page. */
  const TopY: int := 20
  /** A body line is drawn on this page only while `y` is at most this. */
  const BodyLimit: int := 270
  /** The shopping-list heading is drawn on this page only while `y` is at most this. */
  const ListHeadingLimit: int := 250
  /** Advance after a body line. */
  const LineStep: int := 5
  /** Advance after a section heading, and the gap between sections. */
  const HeadingStep: int := 10
  const LeftMargin: int := 20
  /** Where each page's footer is centred. */
  const FooterX: int := 105
  const FooterY: int := 290

  const DocumentTitle: string := "Jefree - Lista de Compra y Menú"
  const MenuTitle: string := "Menú Semanal"
  const ListTitle: string := "Lista de Compra"
  const CostPrefix: string := "Coste estimado: "

  /** What a drawn text is (the font size and colour each gets are not modelled). */
  datatype Kind = Title | Info | MenuHeading | ListHeading | Body | Cost | Footer

  /** One `doc.text(text, x, y)` call on page `page` (1-based). */
  datatype DrawOp = DrawOp(kind: Kind, page: nat, text: string, x: int, y: int)

  /** `GeneratePDFOptions`. */
  datatype PdfOptions = PdfOptions(menuPlan: Option<string>, shoppingList: Option<string>,
                                   costEstimate: Option<string>, userName: string, isPremium: bool)

  /** An optional string that is present and non-empty (truthy). */
  predicate Truthy(o: Option<string>) {
    o.Some? && o.value != ""
  }

  // ---------------------------------------------------------------------------
  // The jsPDF document
  // ---------------------------------------------------------------------------

  /** The part of a jsPDF document the builder uses. */
  class PdfDocument {
    var pages: nat
    var current: nat
    var ops: seq<DrawOp>

    ghost predicate Valid()
      reads this
    {
      1 <= current <= pages
    }

    /** `new jsPDF(...)`: one empty page, which is current. */
    constructor ()
      ensures Valid() && pages == 1 && current == 1 && ops == []
    {
      pages := 1;
      current := 1;
      ops := [];
    }

    /** `doc.addPage()`: a new last page, which becomes current. */
    method AddPage()
      requires Valid()
      modifies this
      ensures Valid() && pages == old(pages) + 1 && current == pages && ops == old(ops)
    {
      pages := pages + 1;
      current := pages;
    }

    /** `doc.setPage(n)`. */
    method SetPage(n: nat)
      requires Valid() && 1 <= n <= pages
      modifies this
      ensures Valid() && current == n && pages == old(pages) && ops == old(ops)
    {
      current := n;
    }

    /** `doc.text(text, x, y)`: drawn on the current page. */
    method Text(kind: Kind, text: string, x: int, y: int)
      requires Valid()
      modifies this
      ensures Valid() && pages == old(pages) && current == old(current)
      ensures ops == old(ops) + [DrawOp(kind, current, text, x, y)]
    {
      ops := ops + [DrawOp(kind, current, text, x, y)];
    }
  }

  // ---------------------------------------------------------------------------
  // The line loop
  // ---------------------------------------------------------------------------

  /** A position of the cursor: the current page and `y`. */
  datatype Cursor = Cursor(page: nat, y: int)

  /** Texts drawn by a part of the builder and the cursor after it. */
  datatype Placed = Placed(ops: seq<DrawOp>, end: Cursor)

  /** `if (y > limit) { doc.addPage(); y = 20; }` */
  function BreakIfPast(c: Cursor, limit: int): Cursor {
    if c.y > limit then Cursor(c.page + 1, TopY) else c
  }

  /**
   * The loop `for (const line of lines)` started at cursor `c`: before each
   * line a new page when `y > 270`, then the line at `y`, then `y += 5`.
   */
  function PlaceLines(c: Cursor, lines: seq<string>): (r: Placed)
    ensures |r.ops| == |lines| && c.page <= r.end.page
    decreases |lines|
  {
    if lines == [] then Placed([], c)
    else
      var prev := PlaceLines(c, lines[..|lines| - 1]);
      var at := BreakIfPast(prev.end, BodyLimit);
      Placed(prev.ops + [DrawOp(Body, at.page, lines[|lines| - 1], LeftMargin, at.y)],
             Cursor(at.page, at.y + LineStep))
  }

  /**
   * Each line is drawn once, in order, at the left margin, on a page between
   * the start page and the end page, at a `y` in [20, 270]; the cursor never
   * goes above 20.
   */
  lemma {:induction false} PlaceLinesBounds(c: Cursor, lines: seq<string>)
    requires TopY <= c.y
    ensures |PlaceLines(c, lines).ops| == |lines|
    ensures forall k :: 0 <= k < |lines| ==>
              && PlaceLines(c, lines).ops[k].kind == Body
              && PlaceLines(c, lines).ops[k].text == lines[k]
              && PlaceLines(c, lines).ops[k].x == LeftMargin
              && TopY <= PlaceLines(c, lines).ops[k].y <= BodyLimit
              && c.page <= PlaceLines(c, lines).ops[k].page <= PlaceLines(c, lines).end.page
    ensures TopY <= PlaceLines(c, lines).end.y
    ensures c.page <= PlaceLines(c, lines).end.page
    decreases |lines|
  {
    if lines != [] {
      var init := lines[..|lines| - 1];
      PlaceLinesBounds(c, init);
      var prev := PlaceLines(c, init);
      var at := BreakIfPast(prev.end, BodyLimit);
      var p := PlaceLines(c, lines);
      assert p.ops == prev.ops + [DrawOp(Body, at.page, lines[|lines| - 1], LeftMargin, at.y)];
      forall k | 0 <= k < |lines|
        ensures p.ops[k].kind == Body && p.ops[k].text == lines[k] && p.ops[k].x == LeftMargin
        ensures TopY <= p.ops[k].y <= BodyLimit && c.page <= p.ops[k].page <= p.end.page
      {
        if k < |init| {
          assert p.ops[k] == prev.ops[k] && init[k] == lines[k];
        }
      }
    }
  }

  /** How the cursor moves from one body line to the next. */
  predicate Advances(a: DrawOp, b: DrawOp) {
    if a.y + LineStep > BodyLimit then b.page == a.page + 1 && b.y == TopY
    else b.page == a.page && b.y == a.y + LineStep
  }

  /**
   * The first line goes where the break check puts the start cursor, each
   * later line 5 below the one before or at the top of the next page, and
   * the cursor ends 5 below the last line.
   */
  lemma {:induction false} PlaceLinesAdvance(c: Cursor, lines: seq<string>)
    ensures |PlaceLines(c, lines).ops| == |lines|
    ensures lines == [] ==> PlaceLines(c, lines).end == c
    ensures lines != [] ==>
              var first := PlaceLines(c, lines).ops[0];
              Cursor(first.page, first.y) == BreakIfPast(c, BodyLimit)
    ensures lines != [] ==>
              var last := PlaceLines(c, lines).ops[|lines| - 1];
              PlaceLines(c, lines).end == Cursor(last.page, last.y + LineStep)
    ensures forall k :: 0 < k < |lines| ==>
              Advances(PlaceLines(c, lines).ops[k - 1], PlaceLines(c, lines).ops[k])
    decreases |lines|
  {
    if lines != [] {
      var init := lines[..|lines| - 1];
      PlaceLinesAdvance(c, init);
      var prev := PlaceLines(c, init);
      var at := BreakIfPast(prev.end, BodyLimit);
      var p := PlaceLines(c, lines);
      assert p.ops == prev.ops + [DrawOp(Body, at.page, lines[|lines| - 1], LeftMargin, at.y)];
      forall k | 0 < k < |lines| ensures Advances(p.ops[k - 1], p.ops[k]) {
        if k < |init| {
          assert p.ops[k - 1] == prev.ops[k - 1] && p.ops[k] == prev.ops[k];
        }
      }
      if init != [] {
        assert p.ops[0] == prev.ops[0];
      }
    }
  }

  // ---------------------------------------------------------------------------
  // The whole layout
  // ---------------------------------------------------------------------------

  /** The texts drawn before the footers, and how many pages the document has. */
  datatype Sheet = Sheet(ops: seq<DrawOp>, pages: nat)

  /** The title bar and the user line, on the first page. */
  function HeaderOps(o: PdfOptions, date: string): (r: seq<DrawOp>)
    ensures |r| == 3 && forall k :: 0 <= k < |r| ==> r[k].page == 1 && r[k].kind != Body
  {
    [DrawOp(Title, 1, DocumentTitle, 20, 13),
     DrawOp(Info, 1, "Generado para: " + o.userName, 20, 30),
     DrawOp(Info, 1, date, 150, 30)]
  }

  /** The menu section (when the menu plan is truthy) started at cursor `c`. */
  function MenuSection(o: PdfOptions, split: string -> seq<string>, c: Cursor): (r: Placed)
    ensures Truthy(o.menuPlan) ==> |r.ops| == 1 + |split(o.menuPlan.value)|
    ensures c.page <= r.end.page
  {
    if !Truthy(o.menuPlan) then Placed([], c)
    else
      var body := PlaceLines(Cursor(c.page, c.y + HeadingStep), split(o.menuPlan.value));
      Placed([DrawOp(MenuHeading, c.page, MenuTitle, LeftMargin, c.y)] + body.ops,
             Cursor(body.end.page, body.end.y + HeadingStep))
  }

  /** An ASCII digit, the class `\d`. */
  predicate IsDigit(ch: char) {
    '0' <= ch <= '9'
  }

  /** The index of the first digit of `s` at or after `i`, or `|s|` when there is none. */
  function NextDigit(s: string, i: nat): (r: nat)
    requires i <= |s|
    ensures i <= r <= |s|
    ensures forall k :: i <= k < r ==> !IsDigit(s[k])
    ensures r < |s| ==> IsDigit(s[r])
    decreases |s| - i
  {
    if i == |s| || IsDigit(s[i]) then i else NextDigit(s, i + 1)
  }

  /** The end of the run of digits of `s` that starts at `i`. */
  function DigitsEnd(s: string, i: nat): (r: nat)
    requires i <= |s|
    ensures i <= r <= |s|
    ensures forall k :: i <= k < r ==> IsDigit(s[k])
    ensures r < |s| ==> !IsDigit(s[r])
    decreases |s| - i
  {
    if i < |s| && IsDigit(s[i]) then DigitsEnd(s, i + 1) else i
  }

  /**
   * `s.match(/\d+([.,]\d{1,2})?/)`: the leftmost match starts at the first
   * digit and takes the whole run of digits, then a '.' or ',' with the one or
   * two digits after it when a digit follows the separator.
   */
  function CostMatch(s: string): (r: Option<string>)
    ensures r.Some? ==> r.value != [] && IsDigit(r.value[0])
  {
    var i := NextDigit(s, 0);
    if i == |s| then None
    else
      var j := DigitsEnd(s, i);
      if j + 1 < |s| && (s[j] == '.' || s[j] == ',') && IsDigit(s[j + 1]) then
        Some(s[i..if j + 2 < |s| && IsDigit(s[j + 2]) then j + 3 else j + 2])
      else Some(s[i..j])
  }

  /** Every character of `s` is a digit. */
  predicate AllDigits(s: string) {
    forall k :: 0 <= k < |s| ==> IsDigit(s[k])
  }

  /** A run of digits, optionally followed by '.' or ',' and one or two digits. */
  predicate AmountShape(m: string) {
    exists d :: 1 <= d <= |m| && AllDigits(m[..d])
                && (d == |m| || ((m[d] == '.' || m[d] == ',') && (|m| == d + 2 || |m| == d + 3) && AllDigits(m[d + 1..])))
  }

  /** The pattern matches exactly the strings that contain a digit. */
  lemma CostMatchFound(s: string)
    ensures CostMatch(s).Some? <==> exists k :: 0 <= k < |s| && IsDigit(s[k])
  {
    var i := NextDigit(s, 0);
    if i < |s| {
      assert IsDigit(s[i]);
    }
  }

  /**
   * A match is an amount, and it is the text of `s` from its first digit `i`
   * to some end `e`. The match is greedy: with `j` the end of the run of
   * digits at `i`, the whole run is taken; a '.' or ',' followed by a digit
   * is always taken, with the digit, and none otherwise; and a second
   * fraction digit is taken whenever one follows.
   */
  lemma CostMatchIsAmount(s: string)
    requires CostMatch(s).Some?
    ensures AmountShape(CostMatch(s).value)
    ensures NextDigit(s, 0) + |CostMatch(s).value| <= |s|
    ensures s[NextDigit(s, 0)..NextDigit(s, 0) + |CostMatch(s).value|] == CostMatch(s).value
    ensures var i := NextDigit(s, 0);
            var j, e := DigitsEnd(s, i), i + |CostMatch(s).value|;
            var fraction := j + 1 < |s| && (s[j] == '.' || s[j] == ',') && IsDigit(s[j + 1]);
            && j <= e <= j + 3
            && (e == j <==> !fraction)
            && (fraction ==> j + 2 <= e)
            && (fraction && j + 2 < |s| && IsDigit(s[j + 2]) ==> e == j + 3)
  {
    var i := NextDigit(s, 0);
    var j := DigitsEnd(s, i);
    assert IsDigit(s[i]);
    var separated := j + 1 < |s| && (s[j] == '.' || s[j] == ',') && IsDigit(s[j + 1]);
    var e := if !separated then j else if j + 2 < |s| && IsDigit(s[j + 2]) then j + 3 else j + 2;
    assert CostMatch(s) == Some(s[i..e]);
    AmountShapeOf(s, i, j, e);
  }

  /**
   * The text `s[i..e]` is an amount when `s[i..j]` is a run of digits and
   * `s[j..e]` is either empty or a separator and one or two digits.
   */
  lemma AmountShapeOf(s: string, i: nat, j: nat, e: nat)
    requires i < j <= e <= |s|
    requires forall k :: i <= k < j ==> IsDigit(s[k])
    requires e == j || ((s[j] == '.' || s[j] == ',') && j + 2 <= e <= j + 3
                        && forall k :: j + 1 <= k < e ==> IsDigit(s[k]))
    ensures AmountShape(s[i..e])
  {
    var m := s[i..e];
    var d := j - i;
    assert AllDigits(m[..d]) by {
      forall k | 0 <= k < d ensures IsDigit(m[..d][k]) {
        assert m[..d][k] == s[i + k];
      }
    }
    if d < |m| {
      assert m[d] == s[j];
      var fraction := m[d + 1..];
      forall k | 0 <= k < |fraction| ensures IsDigit(fraction[k]) {
        assert fraction[k] == s[j + 1 + k];
      }
    }
  }

  /** The cost line of the shopping-list section, when the estimate yields an amount. */
  function CostOps(o: PdfOptions, formatAmount: string -> string, c: Cursor): (r: seq<DrawOp>)
    ensures |r| <= 1 && forall k :: 0 <= k < |r| ==> r[k].kind == Cost && r[k].page == c.page
  {
    if !Truthy(o.costEstimate) then []
    else
      var amount := CostMatch(o.costEstimate.value);
      if amount.None? then []
      else [DrawOp(Cost, c.page, CostPrefix + formatAmount(amount.value) + "€", LeftMargin, c.y + HeadingStep)]
  }

  /**
   * The shopping-list section (when the list is truthy) started at cursor
   * `c`: a new page first when `y > 250`, the heading, the lines, and the
   * cost line when there is one.
   */
  function ListSection(o: PdfOptions, split: string -> seq<string>, formatAmount: string -> string,
                       c: Cursor): (r: Placed)
    ensures c.page <= r.end.page
  {
    if !Truthy(o.shoppingList) then Placed([], c)
    else
      var at := BreakIfPast(c, ListHeadingLimit);
      var body := PlaceLines(Cursor(at.page, at.y + HeadingStep), split(o.shoppingList.value));
      var end := if Truthy(o.costEstimate) then Cursor(body.end.page, body.end.y + HeadingStep) else body.end;
      Placed([DrawOp(ListHeading, at.page, ListTitle, LeftMargin, at.y)] + body.ops
             + CostOps(o, formatAmount, body.end), end)
  }

  /** Everything `generatePDF` draws before the footer loop, and the page count it reaches. */
  function Layout(o: PdfOptions, date: string, split: string -> seq<string>,
                  formatAmount: string -> string): (r: Sheet)
    ensures r.pages >= 1
  {
    var menu := MenuSection(o, split, Cursor(1, StartY));
    var list := ListSection(o, split, formatAmount, menu.end);
    Sheet(HeaderOps(o, date) + menu.ops + list.ops, list.end.page)
  }

  /** `Página ${i} de ${pageCount}`. */
  function FooterText(i: nat, n: nat): string {
    "Página " + NatToString(i) + " de " + NatToString(n)
  }

  /**
   * A footer reads back as its page and the page count: "Página ", digits
   * denoting `i`, " de ", digits denoting `n`.
   */
  lemma FooterTextNamesPages(i: nat, n: nat)
    ensures var r, a := FooterText(i, n), |NatToString(i)|;
            && |r| == 11 + a + |NatToString(n)|
            && r[..7] == "Página " && DigitsValue(r[7..7 + a]) == i
            && r[7 + a..11 + a] == " de " && DigitsValue(r[11 + a..]) == n
  {
    FooterParts(NatToString(i), NatToString(n));
  }

  /** The four parts of a footer built from the digit strings `p` and `q`. */
  lemma FooterParts(p: string, q: string)
    ensures var r := "Página " + p + " de " + q;
            && |r| == 11 + |p| + |q|
            && r[..7] == "Página " && r[7..7 + |p|] == p
            && r[7 + |p|..11 + |p|] == " de " && r[11 + |p|..] == q
  {
    var r := "Página " + p + " de " + q;
    assert r[..7] == "Página ";
    assert r[7..7 + |p|] == p;
    assert r[7 + |p|..11 + |p|] == " de ";
    assert r[11 + |p|..] == q;
  }

  /** The footers of pages 1 to `i` of an `n`-page document, in page order. */
  function Footers(n: nat, i: nat): (r: seq<DrawOp>)
    ensures |r| == i
    decreases i
  {
    if i == 0 then [] else Footers(n, i - 1) + [DrawOp(Footer, i, FooterText(i, n), FooterX, FooterY)]
  }

  lemma {:induction false} FootersAt(n: nat, i: nat)
    ensures forall k :: 0 <= k < i ==>
              Footers(n, i)[k] == DrawOp(Footer, k + 1, FooterText(k + 1, n), FooterX, FooterY)
    decreases i
  {
    if i > 0 {
      FootersAt(n, i - 1);
      var r := Footers(n, i);
      assert r == Footers(n, i - 1) + [DrawOp(Footer, i, FooterText(i, n), FooterX, FooterY)];
      forall k | 0 <= k < i ensures r[k] == DrawOp(Footer, k + 1, FooterText(k + 1, n), FooterX, FooterY) {
        if k < i - 1 {
          assert r[k] == Footers(n, i - 1)[k];
        }
      }
    }
  }

  /** The finished document's texts: the layout, then one footer per page. */
  function Document(o: PdfOptions, date: string, split: string -> seq<string>,
                    formatAmount: string -> string): seq<DrawOp>
  {
    var sheet := Layout(o, date, split, formatAmount);
    sheet.ops + Footers(sheet.pages, sheet.pages)
  }

  // ---------------------------------------------------------------------------
  // What the layout guarantees
  // ---------------------------------------------------------------------------

  /** The pages some text of `ops` is drawn on. */
  function Pages(ops: seq<DrawOp>): set<nat>
    decreases |ops|
  {
    if ops == [] then {} else Pages(ops[..|ops| - 1]) + {ops[|ops| - 1].page}
  }

  /** The kinds of the texts among `ops` that are not body lines, in order. */
  function Marks(ops: seq<DrawOp>): seq<Kind>
    decreases |ops|
  {
    if ops == [] then []
    else Marks(ops[..|ops| - 1]) + (if ops[|ops| - 1].kind == Body then [] else [ops[|ops| - 1].kind])
  }

  /** The texts of the body lines among `ops`, in order. */
  function BodyTexts(ops: seq<DrawOp>): seq<string>
    decreases |ops|
  {
    if ops == [] then []
    else BodyTexts(ops[..|ops| - 1]) + (if ops[|ops| - 1].kind == Body then [ops[|ops| - 1].text] else [])
  }

  lemma {:induction false} PagesAppend(a: seq<DrawOp>, b: seq<DrawOp>)
    ensures Pages(a + b) == Pages(a) + Pages(b)
    decreases |b|
  {
    if b == [] {
      assert a + b == a;
    } else {
      var init := b[..|b| - 1];
      PagesAppend(a, init);
      assert (a + b)[..|a + b| - 1] == a + init;
    }
  }

  lemma {:induction false} MarksAppend(a: seq<DrawOp>, b: seq<DrawOp>)
    ensures Marks(a + b) == Marks(a) + Marks(b)
    decreases |b|
  {
    if b == [] {
      assert a + b == a;
    } else {
      var init := b[..|b| - 1];
      MarksAppend(a, init);
      assert (a + b)[..|a + b| - 1] == a + init;
    }
  }

  lemma {:induction false} BodyTextsAppend(a: seq<DrawOp>, b: seq<DrawOp>)
    ensures BodyTexts(a + b) == BodyTexts(a) + BodyTexts(b)
    decreases |b|
  {
    if b == [] {
      assert a + b == a;
    } else {
      var init := b[..|b| - 1];
      BodyTextsAppend(a, init);
      assert (a + b)[..|a + b| - 1] == a + init;
    }
  }

  lemma PagesOne(op: DrawOp)
    ensures Pages([op]) == {op.page}
  {
    assert [op][..0] == [];
  }

  lemma TextsOne(op: DrawOp)
    ensures Marks([op]) == if op.kind == Body then [] else [op.kind]
    ensures BodyTexts([op]) == if op.kind == Body then [op.text] else []
  {
    assert [op][..0] == [];
  }

  /** `Pages` holds exactly the pages of the texts. */
  lemma {:induction false} PagesMeaning(ops: seq<DrawOp>)
    ensures forall q :: q in Pages(ops) <==> exists k :: 0 <= k < |ops| && ops[k].page == q
    decreases |ops|
  {
    if ops != [] {
      var init := ops[..|ops| - 1];
      PagesMeaning(init);
      forall q ensures q in Pages(ops) <==> exists k :: 0 <= k < |ops| && ops[k].page == q {
        if exists k :: 0 <= k < |ops| && ops[k].page == q {
          var k :| 0 <= k < |ops| && ops[k].page == q;
          if k < |init| { assert init[k] == ops[k]; }
        }
        if q in Pages(init) {
          var k :| 0 <= k < |init| && init[k].page == q;
          assert ops[k] == init[k];
        }
      }
    }
  }

  /**
   * A placement started at cursor `c` stays on the pages from `c.page` to its
   * end page, leaves none of the pages it opened blank, and never moves the
   * cursor above the top margin.
   */
  ghost predicate Confined(c: Cursor, p: Placed) {
    && TopY <= p.end.y && c.page <= p.end.page
    && (forall q :: q in Pages(p.ops) ==> c.page <= q <= p.end.page)
    && (forall q :: c.page < q <= p.end.page ==> q in Pages(p.ops))
  }

  /** Every body line lies between the top margin and the body limit. */
  predicate BodyInMargins(ops: seq<DrawOp>) {
    forall k :: 0 <= k < |ops| && ops[k].kind == Body ==> TopY <= ops[k].y <= BodyLimit
  }

  /** Every shopping-list heading lies between the top margin and the heading limit. */
  predicate ListHeadingInMargins(ops: seq<DrawOp>) {
    forall k :: 0 <= k < |ops| && ops[k].kind == ListHeading ==> TopY <= ops[k].y <= ListHeadingLimit
  }

  /** A confined placement whose body lines and list headings keep to their margins. */
  ghost predicate WellPlaced(c: Cursor, p: Placed) {
    Confined(c, p) && BodyInMargins(p.ops) && ListHeadingInMargins(p.ops)
  }

  lemma MarginsConcat(a: seq<DrawOp>, b: seq<DrawOp>)
    requires BodyInMargins(a) && BodyInMargins(b)
    requires ListHeadingInMargins(a) && ListHeadingInMargins(b)
    ensures BodyInMargins(a + b) && ListHeadingInMargins(a + b)
  {
    forall k | 0 <= k < |a + b|
      ensures (a + b)[k] == if k < |a| then a[k] else b[k - |a|]
    { }
  }

  /** Two placements one after the other make one placement. */
  lemma Join(c: Cursor, a: seq<DrawOp>, m: Cursor, b: seq<DrawOp>, e: Cursor)
    requires WellPlaced(c, Placed(a, m)) && WellPlaced(m, Placed(b, e))
    ensures WellPlaced(c, Placed(a + b, e))
  {
    PagesAppend(a, b);
    MarginsConcat(a, b);
  }

  /** Moving the end of a placement further down its last page keeps it well placed. */
  lemma Lower(c: Cursor, p: Placed, y: int)
    requires WellPlaced(c, p) && p.end.y <= y
    ensures WellPlaced(c, Placed(p.ops, Cursor(p.end.page, y)))
  { }

  /** The line loop from a cursor below the top margin is confined. */
  lemma {:induction false} PlaceLinesConfined(c: Cursor, lines: seq<string>)
    requires TopY <= c.y
    ensures Confined(c, PlaceLines(c, lines))
    decreases |lines|
  {
    if lines != [] {
      var init := lines[..|lines| - 1];
      PlaceLinesConfined(c, init);
      var prev := PlaceLines(c, init);
      var at := BreakIfPast(prev.end, BodyLimit);
      var op := DrawOp(Body, at.page, lines[|lines| - 1], LeftMargin, at.y);
      var p := PlaceLines(c, lines);
      assert p == Placed(prev.ops + [op], Cursor(at.page, at.y + LineStep));
      PagesOne(op);
      PagesAppend(prev.ops, [op]);
    }
  }

  /** The line loop from a cursor below the top margin is well placed. */
  lemma PlaceLinesPlaced(c: Cursor, lines: seq<string>)
    requires TopY <= c.y
    ensures WellPlaced(c, PlaceLines(c, lines))
  {
    PlaceLinesConfined(c, lines);
    PlaceLinesBounds(c, lines);
  }

  /** The line loop draws only body lines, and exactly `lines` as body text. */
  lemma {:induction false} PlaceLinesTexts(c: Cursor, lines: seq<string>)
    ensures Marks(PlaceLines(c, lines).ops) == []
    ensures BodyTexts(PlaceLines(c, lines).ops) == lines
    decreases |lines|
  {
    if lines != [] {
      var init := lines[..|lines| - 1];
      PlaceLinesTexts(c, init);
      var prev := PlaceLines(c, init);
      var at := BreakIfPast(prev.end, BodyLimit);
      var op := DrawOp(Body, at.page, lines[|lines| - 1], LeftMargin, at.y);
      assert PlaceLines(c, lines).ops == prev.ops + [op];
      MarksAppend(prev.ops, [op]);
      BodyTextsAppend(prev.ops, [op]);
      TextsOne(op);
      assert lines == init + [lines[|lines| - 1]];
    }
  }

  /**
   * A heading drawn on the page the cursor is on or on the next one, before
   * a run starting on the heading's page.
   */
  lemma HeadingPlaced(c: Cursor, op: DrawOp, next: Cursor)
    requires op.kind != Body && TopY <= next.y && op.page == next.page
    requires op.page == c.page || op.page == c.page + 1
    requires op.kind == ListHeading ==> TopY <= op.y <= ListHeadingLimit
    ensures WellPlaced(c, Placed([op], next))
  {
    PagesOne(op);
  }

  /** The cost line, drawn on the page the list's lines end on. */
  lemma CostPlaced(o: PdfOptions, formatAmount: string -> string, e: Cursor, end: Cursor)
    requires TopY <= e.y <= end.y && end.page == e.page
    ensures WellPlaced(e, Placed(CostOps(o, formatAmount, e), end))
  {
    var cost := CostOps(o, formatAmount, e);
    if cost != [] {
      PagesOne(cost[0]);
    }
  }

  lemma CostTexts(o: PdfOptions, formatAmount: string -> string, e: Cursor)
    ensures Marks(CostOps(o, formatAmount, e)) ==
              if Truthy(o.costEstimate) && CostMatch(o.costEstimate.value).Some? then [Cost] else []
    ensures BodyTexts(CostOps(o, formatAmount, e)) == []
  {
    var cost := CostOps(o, formatAmount, e);
    if cost != [] {
      TextsOne(cost[0]);
    }
  }

  /** The lines of a section's text, when the text is truthy. */
  function SectionLines(text: Option<string>, split: string -> seq<string>): seq<string> {
    if Truthy(text) then split(text.value) else []
  }

  /** The shopping list and the estimate are truthy and the estimate yields an amount. */
  predicate CostShown(o: PdfOptions) {
    Truthy(o.shoppingList) && Truthy(o.costEstimate) && CostMatch(o.costEstimate.value).Some?
  }

  /** The menu section from a cursor below the top margin is well placed. */
  lemma MenuSectionPlaced(o: PdfOptions, split: string -> seq<string>, c: Cursor, m: Placed)
    requires TopY <= c.y && m == MenuSection(o, split, c)
    ensures WellPlaced(c, m)
  {
    if Truthy(o.menuPlan) {
      var start := Cursor(c.page, c.y + HeadingStep);
      var body := PlaceLines(start, split(o.menuPlan.value));
      var heading := DrawOp(MenuHeading, c.page, MenuTitle, LeftMargin, c.y);
      HeadingPlaced(c, heading, start);
      PlaceLinesPlaced(start, split(o.menuPlan.value));
      Join(c, [heading], start, body.ops, body.end);
      Lower(c, Placed([heading] + body.ops, body.end), body.end.y + HeadingStep);
    }
  }

  /**
   * The menu section's only text besides body lines is its heading, present
   * exactly when the menu plan is truthy, and its body text is the plan's
   * lines.
   */
  lemma MenuSectionTexts(o: PdfOptions, split: string -> seq<string>, c: Cursor, m: Placed)
    requires m == MenuSection(o, split, c)
    ensures Marks(m.ops) == if Truthy(o.menuPlan) then [MenuHeading] else []
    ensures BodyTexts(m.ops) == SectionLines(o.menuPlan, split)
  {
    if Truthy(o.menuPlan) {
      var start := Cursor(c.page, c.y + HeadingStep);
      var body := PlaceLines(start, split(o.menuPlan.value));
      var heading := DrawOp(MenuHeading, c.page, MenuTitle, LeftMargin, c.y);
      assert m.ops == [heading] + body.ops;
      PlaceLinesTexts(start, split(o.menuPlan.value));
      TextsOne(heading);
      assert Marks(m.ops) == [MenuHeading] by {
        MarksAppend([heading], body.ops);
      }
      assert BodyTexts(m.ops) == split(o.menuPlan.value) by {
        BodyTextsAppend([heading], body.ops);
      }
    }
  }

  /** The shopping-list section from a cursor below the top margin is well placed. */
  lemma ListSectionPlaced(o: PdfOptions, split: string -> seq<string>, formatAmount: string -> string,
                          c: Cursor, l: Placed)
    requires TopY <= c.y && l == ListSection(o, split, formatAmount, c)
    ensures WellPlaced(c, l)
  {
    if Truthy(o.shoppingList) {
      var at := BreakIfPast(c, ListHeadingLimit);
      var start := Cursor(at.page, at.y + HeadingStep);
      var body := PlaceLines(start, split(o.shoppingList.value));
      var heading := DrawOp(ListHeading, at.page, ListTitle, LeftMargin, at.y);
      HeadingPlaced(c, heading, start);
      PlaceLinesPlaced(start, split(o.shoppingList.value));
      Join(c, [heading], start, body.ops, body.end);
      CostPlaced(o, formatAmount, body.end, l.end);
      Join(c, [heading] + body.ops, body.end, CostOps(o, formatAmount, body.end), l.end);
    }
  }

  /**
   * Besides body lines, the shopping-list section draws its heading exactly
   * when the list is truthy and then the cost line exactly when `CostShown`.
   */
  lemma ListSectionMarks(o: PdfOptions, split: string -> seq<string>, formatAmount: string -> string,
                         c: Cursor, l: Placed)
    requires l == ListSection(o, split, formatAmount, c)
    ensures Marks(l.ops) ==
              (if Truthy(o.shoppingList) then [ListHeading] else []) + (if CostShown(o) then [Cost] else [])
  {
    if Truthy(o.shoppingList) {
      var at := BreakIfPast(c, ListHeadingLimit);
      var start := Cursor(at.page, at.y + HeadingStep);
      var body := PlaceLines(start, split(o.shoppingList.value));
      var heading := DrawOp(ListHeading, at.page, ListTitle, LeftMargin, at.y);
      var cost := CostOps(o, formatAmount, body.end);
      assert l.ops == [heading] + body.ops + cost;
      PlaceLinesTexts(start, split(o.shoppingList.value));
      TextsOne(heading);
      CostTexts(o, formatAmount, body.end);
      MarksAround([heading], body.ops, cost);
    }
  }

  lemma MarksAround(a: seq<DrawOp>, b: seq<DrawOp>, c: seq<DrawOp>)
    requires Marks(b) == []
    ensures Marks(a + b + c) == Marks(a) + Marks(c)
  {
    MarksAppend(a, b);
    MarksAppend(a + b, c);
    assert Marks(a) + [] == Marks(a);
  }

  lemma MarksOfThree(a: seq<DrawOp>, b: seq<DrawOp>, c: seq<DrawOp>)
    ensures Marks(a + b + c) == Marks(a) + Marks(b) + Marks(c)
  {
    MarksAppend(a, b);
    MarksAppend(a + b, c);
  }

  /** The body text of the shopping-list section is the list's lines. */
  lemma ListSectionBodyTexts(o: PdfOptions, split: string -> seq<string>, formatAmount: string -> string,
                             c: Cursor, l: Placed)
    requires l == ListSection(o, split, formatAmount, c)
    ensures BodyTexts(l.ops) == SectionLines(o.shoppingList, split)
  {
    if Truthy(o.shoppingList) {
      var at := BreakIfPast(c, ListHeadingLimit);
      var start := Cursor(at.page, at.y + HeadingStep);
      var body := PlaceLines(start, split(o.shoppingList.value));
      var heading := DrawOp(ListHeading, at.page, ListTitle, LeftMargin, at.y);
      var cost := CostOps(o, formatAmount, body.end);
      assert l.ops == [heading] + body.ops + cost;
      PlaceLinesTexts(start, split(o.shoppingList.value));
      TextsOne(heading);
      CostTexts(o, formatAmount, body.end);
      BodyTextsBetween([heading], body.ops, cost);
    }
  }

  lemma BodyTextsBetween(a: seq<DrawOp>, b: seq<DrawOp>, c: seq<DrawOp>)
    requires BodyTexts(a) == [] && BodyTexts(c) == []
    ensures BodyTexts(a + b + c) == BodyTexts(b)
  {
    BodyTextsAppend(a, b);
    BodyTextsAppend(a + b, c);
    assert BodyTexts(a + b) == BodyTexts(b);
    assert BodyTexts(a + b) + [] == BodyTexts(a + b);
  }

  /** The title block, on the first page. */
  lemma HeaderPlaced(o: PdfOptions, date: string)
    ensures WellPlaced(Cursor(1, StartY), Placed(HeaderOps(o, date), Cursor(1, StartY)))
    ensures Pages(HeaderOps(o, date)) == {1}
  {
    var h := HeaderOps(o, date);
    assert h == [h[0]] + [h[1]] + [h[2]];
    PagesAppend([h[0]] + [h[1]], [h[2]]);
    PagesAppend([h[0]], [h[1]]);
    PagesOne(h[0]);
    PagesOne(h[1]);
    PagesOne(h[2]);
  }

  /** The title block: a title and two information lines, no body text. */
  lemma HeaderTexts(o: PdfOptions, date: string)
    ensures Marks(HeaderOps(o, date)) == [Title, Info, Info]
    ensures BodyTexts(HeaderOps(o, date)) == []
  {
    var h := HeaderOps(o, date);
    TextsOfThreeOps(h[0], h[1], h[2]);
  }

  lemma TextsOfThreeOps(x: DrawOp, y: DrawOp, z: DrawOp)
    requires x.kind != Body && y.kind != Body && z.kind != Body
    ensures Marks([x, y, z]) == [x.kind, y.kind, z.kind]
    ensures BodyTexts([x, y, z]) == []
  {
    assert [x, y, z][..2] == [x, y];
    assert [x, y][..1] == [x];
    TextsOne(x);
    assert BodyTexts([x, y]) == [];
  }

  /**
   * Where `generatePDF` draws before the footers: at least one page; texts
   * on exactly the pages 1 to the page count, so no page is blank; every
   * body line between y = 20 and y = 270 and the list heading between y = 20
   * and y = 250.
   */
  lemma LayoutPlaced(o: PdfOptions, date: string, split: string -> seq<string>,
                     formatAmount: string -> string, s: Sheet)
    requires s == Layout(o, date, split, formatAmount)
    ensures s.pages >= 1
    ensures forall q :: q in Pages(s.ops) <==> 1 <= q <= s.pages
    ensures BodyInMargins(s.ops) && ListHeadingInMargins(s.ops)
  {
    var h := HeaderOps(o, date);
    var start := Cursor(1, StartY);
    var menu := MenuSection(o, split, start);
    var list := ListSection(o, split, formatAmount, menu.end);
    HeaderPlaced(o, date);
    MenuSectionPlaced(o, split, start, menu);
    ListSectionPlaced(o, split, formatAmount, menu.end, list);
    Join(start, h, start, menu.ops, menu.end);
    Join(start, h + menu.ops, menu.end, list.ops, list.end);
    PagesAppend(h, menu.ops);
    PagesAppend(h + menu.ops, list.ops);
  }

  /**
   * What `generatePDF` draws before the footers besides body lines, in
   * order: the title block, the menu heading when the menu plan is truthy,
   * the list heading when the list is truthy, the cost line when
   * `CostShown`, and no footer yet.
   */
  lemma LayoutMarks(o: PdfOptions, date: string, split: string -> seq<string>,
                    formatAmount: string -> string, s: Sheet)
    requires s == Layout(o, date, split, formatAmount)
    ensures Marks(s.ops) ==
              [Title, Info, Info] + (if Truthy(o.menuPlan) then [MenuHeading] else [])
              + ((if Truthy(o.shoppingList) then [ListHeading] else []) + (if CostShown(o) then [Cost] else []))
  {
    var h := HeaderOps(o, date);
    var start := Cursor(1, StartY);
    var menu := MenuSection(o, split, start);
    var list := ListSection(o, split, formatAmount, menu.end);
    assert s.ops == h + menu.ops + list.ops;
    HeaderTexts(o, date);
    MenuSectionTexts(o, split, start, menu);
    ListSectionMarks(o, split, formatAmount, menu.end, list);
    MarksOfThree(h, menu.ops, list.ops);
  }

  lemma BodyTextsOfThree(a: seq<DrawOp>, b: seq<DrawOp>, c: seq<DrawOp>)
    requires BodyTexts(a) == []
    ensures BodyTexts(a + b + c) == BodyTexts(b) + BodyTexts(c)
  {
    BodyTextsAppend(a, b);
    BodyTextsAppend(a + b, c);
    assert BodyTexts(a + b) == BodyTexts(b);
  }

  /** The body text `generatePDF` draws is the menu's lines followed by the list's. */
  lemma LayoutBodyTexts(o: PdfOptions, date: string, split: string -> seq<string>,
                        formatAmount: string -> string, s: Sheet)
    requires s == Layout(o, date, split, formatAmount)
    ensures BodyTexts(s.ops) == SectionLines(o.menuPlan, split) + SectionLines(o.shoppingList, split)
  {
    var h := HeaderOps(o, date);
    var start := Cursor(1, StartY);
    var menu := MenuSection(o, split, start);
    var list := ListSection(o, split, formatAmount, menu.end);
    assert s.ops == h + menu.ops + list.ops;
    HeaderTexts(o, date);
    MenuSectionTexts(o, split, start, menu);
    ListSectionBodyTexts(o, split, formatAmount, menu.end, list);
    BodyTextsOfThree(h, menu.ops, list.ops);
  }

  /**
   * The finished document: the layout's texts, then for each page `q` in
   * order exactly one footer, on page `q`, reading "Página q de n" with `n`
   * the page count, centred at the foot; no other text is a footer.
   */
  lemma DocumentFooters(o: PdfOptions, date: string, split: string -> seq<string>,
                        formatAmount: string -> string, s: Sheet, d: seq<DrawOp>)
    requires s == Layout(o, date, split, formatAmount) && d == Document(o, date, split, formatAmount)
    ensures |d| == |s.ops| + s.pages && d[..|s.ops|] == s.ops
    ensures forall q :: 1 <= q <= s.pages ==>
              d[|s.ops| + q - 1] == DrawOp(Footer, q, FooterText(q, s.pages), FooterX, FooterY)
    ensures forall k :: 0 <= k < |s.ops| ==> d[k].kind != Footer
  {
    LayoutMarks(o, date, split, formatAmount, s);
    NoFooterAt(s.ops);
    FootersAt(s.pages, s.pages);
    var f := Footers(s.pages, s.pages);
    assert d == s.ops + f;
    forall q | 1 <= q <= s.pages
      ensures d[|s.ops| + q - 1] == DrawOp(Footer, q, FooterText(q, s.pages), FooterX, FooterY)
    {
      assert d[|s.ops| + q - 1] == f[q - 1];
    }
  }

  /** Texts with no footer among their marks have none. */
  lemma {:induction false} NoFooterAt(ops: seq<DrawOp>)
    requires Footer !in Marks(ops)
    ensures forall k :: 0 <= k < |ops| ==> ops[k].kind != Footer
    decreases |ops|
  {
    if ops != [] {
      var init := ops[..|ops| - 1];
      NoFooterAt(init);
      forall k | 0 <= k < |ops| ensures ops[k].kind != Footer {
        if k < |init| { assert ops[k] == init[k]; }
      }
    }
  }

  // ---------------------------------------------------------------------------
  // generatePDF
  // ---------------------------------------------------------------------------

  /**
   * One loop `for (const line of lines)` on the document, from the cursor
   * `y` on the current (last) page: it draws what `PlaceLines` places and
   * leaves the cursor where `PlaceLines` ends.
   */
  method DrawLines(doc: PdfDocument, lines: seq<string>, y: int) returns (y': int)
    requires doc.Valid() && doc.current == doc.pages
    modifies doc
    ensures doc.Valid() && doc.current == doc.pages
    ensures doc.ops == old(doc.ops) + PlaceLines(Cursor(old(doc.current), y), lines).ops
    ensures Cursor(doc.current, y') == PlaceLines(Cursor(old(doc.current), y), lines).end
  {
    ghost var c := Cursor(doc.current, y);
    y' := y;
    for i := 0 to |lines|
      invariant doc.Valid() && doc.current == doc.pages
      invariant doc.ops == old(doc.ops) + PlaceLines(c, lines[..i]).ops
      invariant Cursor(doc.current, y') == PlaceLines(c, lines[..i]).end
    {
      assert lines[..i + 1][..i] == lines[..i];
      if y' > BodyLimit {
        doc.AddPage();
        y' := TopY;
      }
      doc.Text(Body, lines[i], LeftMargin, y');
      y' := y' + LineStep;
    }
    assert lines[..|lines|] == lines;
  }

  /** The title bar and the user line of `generatePDF`, on the first page. */
  method DrawHeader(doc: PdfDocument, o: PdfOptions, date: string)
    requires doc.Valid() && doc.current == doc.pages == 1
    modifies doc
    ensures doc.Valid() && doc.current == doc.pages == 1
    ensures doc.ops == old(doc.ops) + HeaderOps(o, date)
  {
    doc.Text(Title, DocumentTitle, 20, 13);
    doc.Text(Info, "Generado para: " + o.userName, 20, 30);
    doc.Text(Info, date, 150, 30);
  }

  /** The menu block of `generatePDF`, from cursor `y` on the last page. */
  method DrawMenu(doc: PdfDocument, o: PdfOptions, split: string -> seq<string>, y: int) returns (y': int)
    requires doc.Valid() && doc.current == doc.pages
    modifies doc
    ensures doc.Valid() && doc.current == doc.pages
    ensures doc.ops == old(doc.ops) + MenuSection(o, split, Cursor(old(doc.current), y)).ops
    ensures Cursor(doc.current, y') == MenuSection(o, split, Cursor(old(doc.current), y)).end
  {
    y' := y;
    if Truthy(o.menuPlan) {
      doc.Text(MenuHeading, MenuTitle, LeftMargin, y');
      y' := y' + HeadingStep;
      y' := DrawLines(doc, split(o.menuPlan.value), y');
      y' := y' + HeadingStep;
    }
  }

  /** The shopping-list block of `generatePDF`, from cursor `y` on the last page. */
  method DrawList(doc: PdfDocument, o: PdfOptions, split: string -> seq<string>,
                  formatAmount: string -> string, y: int) returns (y': int)
    requires doc.Valid() && doc.current == doc.pages
    modifies doc
    ensures doc.Valid() && doc.current == doc.pages
    ensures doc.ops == old(doc.ops) + ListSection(o, split, formatAmount, Cursor(old(doc.current), y)).ops
    ensures Cursor(doc.current, y') == ListSection(o, split, formatAmount, Cursor(old(doc.current), y)).end
  {
    y' := y;
    ghost var c := Cursor(doc.current, y);
    if Truthy(o.shoppingList) {
      ghost var before := doc.ops;
      ghost var at := BreakIfPast(c, ListHeadingLimit);
      ghost var heading := DrawOp(ListHeading, at.page, ListTitle, LeftMargin, at.y);
      y' := DrawListHeading(doc, y');
      y' := DrawLines(doc, split(o.shoppingList.value), y');
      ghost var body := PlaceLines(Cursor(at.page, at.y + HeadingStep), split(o.shoppingList.value));
      ghost var afterLines := doc.ops;
      assert afterLines == before + [heading] + body.ops;
      y' := DrawCost(doc, o, formatAmount, y');
      ghost var cost := CostOps(o, formatAmount, body.end);
      assert doc.ops == before + ([heading] + body.ops + cost);
      ghost var l := ListSection(o, split, formatAmount, c);
      assert l.ops == [heading] + body.ops + cost;
      assert l.end == Cursor(doc.current, y');
    }
  }

  /** The shopping list's heading, on a new page first when the cursor is past 250. */
  method DrawListHeading(doc: PdfDocument, y: int) returns (y': int)
    requires doc.Valid() && doc.current == doc.pages
    modifies doc
    ensures doc.Valid() && doc.current == doc.pages
    ensures var at := BreakIfPast(Cursor(old(doc.current), y), ListHeadingLimit);
            && doc.ops == old(doc.ops) + [DrawOp(ListHeading, at.page, ListTitle, LeftMargin, at.y)]
            && Cursor(doc.current, y') == Cursor(at.page, at.y + HeadingStep)
  {
    y' := y;
    if y' > ListHeadingLimit {
      doc.AddPage();
      y' := TopY;
    }
    doc.Text(ListHeading, ListTitle, LeftMargin, y');
    y' := y' + HeadingStep;
  }

  /** The cost line after the shopping list's lines, from cursor `y` on the last page. */
  method DrawCost(doc: PdfDocument, o: PdfOptions, formatAmount: string -> string, y: int) returns (y': int)
    requires doc.Valid() && doc.current == doc.pages
    modifies doc
    ensures doc.Valid() && doc.current == doc.pages && doc.current == old(doc.current)
    ensures doc.ops == old(doc.ops) + CostOps(o, formatAmount, Cursor(old(doc.current), y))
    ensures y' == if Truthy(o.costEstimate) then y + HeadingStep else y
  {
    y' := y;
    if Truthy(o.costEstimate) {
      y' := y' + HeadingStep;
      var amount := CostMatch(o.costEstimate.value);
      if amount.Some? {
        var value := formatAmount(amount.value);
        doc.Text(Cost, CostPrefix + value + "€", LeftMargin, y');
      }
    }
  }

  /** The footer loop: page `i` of `n` gets its footer, for every `i` from 1 to `n`. */
  method DrawFooters(doc: PdfDocument)
    requires doc.Valid()
    modifies doc
    ensures doc.Valid() && doc.pages == old(doc.pages)
    ensures doc.ops == old(doc.ops) + Footers(doc.pages, doc.pages)
  {
    var pageCount := doc.pages;
    for i := 1 to pageCount + 1
      invariant doc.Valid() && doc.pages == pageCount
      invariant doc.ops == old(doc.ops) + Footers(pageCount, i - 1)
    {
      doc.SetPage(i);
      doc.Text(Footer, FooterText(i, pageCount), FooterX, FooterY);
    }
  }

  /**
   * `generatePDF(userId, options)` less its unused `userId`, with `date` the
   * rendered current date, `split` the line splitting and `formatAmount` the
   * rendering of the matched amount.
   * The new document has the layout's page count and exactly the layout's
   * texts followed by one footer per page.
   */
  method GeneratePdf(o: PdfOptions, date: string, split: string -> seq<string>,
                     formatAmount: string -> string) returns (doc: PdfDocument)
    ensures fresh(doc) && doc.Valid()
    ensures doc.pages == Layout(o, date, split, formatAmount).pages
    ensures doc.ops == Document(o, date, split, formatAmount)
  {
    doc := new PdfDocument();
    DrawHeader(doc, o, date);
    assert doc.ops == HeaderOps(o, date);
    var y := StartY;
    y := DrawMenu(doc, o, split, y);
    ghost var menu := MenuSection(o, split, Cursor(1, StartY));
    y := DrawList(doc, o, split, formatAmount, y);
    ghost var list := ListSection(o, split, formatAmount, menu.end);
    ghost var sheet := Layout(o, date, split, formatAmount);
    assert sheet.ops == HeaderOps(o, date) + menu.ops + list.ops && sheet.pages == list.end.page;
    assert doc.ops == sheet.ops && doc.pages == sheet.pages;
    DrawFooters(doc);
  }
}
