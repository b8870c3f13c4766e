/** The one-page Waste Transfer Note PDF: the layout engine of
    `generateWTNPDF`. A render attempt moves a vertical cursor (millimetres on
    an A4 page) past a fixed header, three two-column sections, a signature
    block, a comments box and a terms footer, consulting the overflow guard
    before each element; the driver tries three layout variants in order. The
    document is the list of drawing operations; line wrapping
    (`splitTextToSize`) is a parameter, and images are given as loaded. */
module WtnPdf {
  import opened Js

  // ---------------------------------------------------------------- layout

  /** A font setting, as far as it affects line wrapping. */
  datatype Font = Font(size: real, bold: bool)

  /** `doc.splitTextToSize(text, width)` under a given font. */
  type Splitter = (string, Font, real) -> seq<string>

  datatype Variant = Variant(
    name: string, headerSize: real, labelSize: real, valueSize: real,
    sectionGap: real, lineGap: real, sigHeight: real)

  const Normal := Variant("normal", 14.0, 8.5, 10.0, 12.0, 3.0, 18.0)
  const Compact := Variant("compact", 13.0, 8.0, 9.2, 10.0, 2.5, 16.0)
  const Ultra := Variant("ultra", 12.0, 7.6, 8.6, 9.0, 2.2, 14.0)

  /** The variants in the order they are tried. */
  const Layouts: seq<Variant> := [Normal, Compact, Ultra]

  const Margin: real := 12.0
  const PageW: real := 210.0
  const PageH: real := 297.0
  const ContentW: real := PageW - Margin * 2.0
  const BottomSafe: real := 287.0
  const ColGap: real := 6.0
  const ColW: real := (ContentW - ColGap) / 2.0
  const X1: real := Margin
  const X2: real := Margin + ColW + ColGap

  /** The geometric facts about a variant that the layout relies on: the
      section gap clears the 8 mm header bar, and gaps are not negative. */
  predicate Sane(v: Variant) {
    v.lineGap >= 0.0 && v.sectionGap >= 8.0 && v.sigHeight >= 0.0
  }

  /** All three layouts the generator tries are sane. */
  lemma LayoutsSane()
    ensures forall v :: v in Layouts ==> Sane(v)
  {
  }

  /** One drawing operation of the document. */
  datatype Op =
    | Text(s: string, x: real, y: real)
    | TextRight(s: string, x: real, y: real)
    | TextBlock(lines: seq<string>, x: real, y: real)
    | Rect(x: real, y: real, w: real, h: real, filled: bool)
    | Rule(x1: real, y1: real, x2: real, y2: real)
    | Image(data: string, x: real, y: real, w: real, h: real)

  /** The lowest point an operation reaches on the page. */
  function OpBottom(op: Op): real {
    match op
    case Text(_, _, y) => y
    case TextRight(_, _, y) => y
    case TextBlock(_, _, y) => y
    case Rect(_, y, _, h, _) => y + h
    case Rule(_, y1, _, y2) => if y1 < y2 then y2 else y1
    case Image(_, _, y, _, h) => y + h
  }

  /** Every operation stays at or above `limit`. */
  predicate Above(ops: seq<Op>, limit: real)
    decreases |ops|
  {
    ops == [] || (OpBottom(ops[0]) <= limit && Above(ops[1..], limit))
  }

  /** No operation is the terms footer (the only multi-line text block). */
  predicate NoFooter(ops: seq<Op>)
    decreases |ops|
  {
    ops == [] || (!ops[0].TextBlock? && NoFooter(ops[1..]))
  }

  lemma {:induction false} AboveAt(ops: seq<Op>, limit: real, i: nat)
    requires Above(ops, limit) && i < |ops|
    ensures OpBottom(ops[i]) <= limit
    decreases i
  {
    if i > 0 {
      AboveAt(ops[1..], limit, i - 1);
    }
  }

  lemma {:induction false} NoFooterAt(ops: seq<Op>, i: nat)
    requires NoFooter(ops) && i < |ops|
    ensures !ops[i].TextBlock?
    decreases i
  {
    if i > 0 {
      NoFooterAt(ops[1..], i - 1);
    }
  }

  lemma {:induction false} AboveConcat(a: seq<Op>, b: seq<Op>, la: real, lb: real)
    requires Above(a, la) && Above(b, lb) && la <= lb
    requires NoFooter(a) && NoFooter(b)
    ensures Above(a + b, lb) && NoFooter(a + b)
    decreases |a|
  {
    if a != [] {
      AboveConcat(a[1..], b, la, lb);
      assert (a + b)[1..] == a[1..] + b;
    } else {
      assert a + b == b;
    }
  }

  lemma {:induction false} AboveMono(ops: seq<Op>, a: real, b: real)
    requires Above(ops, a) && a <= b
    ensures Above(ops, b)
    decreases |ops|
  {
    if ops != [] {
      AboveMono(ops[1..], a, b);
    }
  }

  lemma {:induction false} AllAbove(ops: seq<Op>, limit: real)
    requires forall i :: 0 <= i < |ops| ==> OpBottom(ops[i]) <= limit && !ops[i].TextBlock?
    ensures Above(ops, limit) && NoFooter(ops)
    decreases |ops|
  {
    if ops != [] {
      AllAbove(ops[1..], limit);
    }
  }

  function MaxR(a: real, b: real): (m: real)
    ensures m >= a && m >= b && (m == a || m == b)
  {
    if a >= b then a else b
  }

  /** `wouldOverflow(needed)`, reading the cursor `y`. */
  predicate WouldOverflow(y: real, needed: real) {
    y + needed > BottomSafe
  }

  /** `value || "-"` on a string. */
  function OrDash(s: string): (r: string)
    ensures r != []
    ensures s != [] ==> r == s
  {
    if s == [] then "-" else s
  }

  /** A field value as the column loops pass it on: `value || "-"`. */
  function Shown(v: Value): (r: string)
    ensures !Truthy(v) ==> r == "-"
    ensures v.Str? && Truthy(v) ==> r == v.s
  {
    if Truthy(v) then ToStr(v) else "-"
  }

  function LabelLines(v: Variant, split: Splitter, caption: string, width: real): seq<string> {
    split(ToUpper(caption), Font(v.labelSize, false), width)
  }

  function ValueLines(v: Variant, split: Splitter, value: string, width: real): seq<string> {
    split(OrDash(value), Font(v.valueSize, true), width)
  }

  /** `fitHeight`: the height the overflow guard expects a field to take. */
  function FitHeight(v: Variant, split: Splitter, caption: string, value: string, width: real): real {
    Times(|LabelLines(v, split, caption, width)|, MaxR(v.lineGap + 1.2, 3.8))
    + Times(|ValueLines(v, split, value, width)|, MaxR(v.lineGap + 1.6, 4.6))
    + 2.5
  }

  /** How far `drawField` moves the cursor for a field of the given line counts. */
  function FieldAdvance(v: Variant, labelLines: nat, valueLines: nat): real {
    Times(labelLines, v.lineGap + 1.0) + Times(valueLines, v.lineGap + 1.4) + 4.7
  }

  /** `n * s`, the room taken by `n` lines `s` apart, written as repeated
      addition so that the layout's arithmetic stays linear. */
  function Times(n: nat, s: real): real {
    if n == 0 then 0.0 else Times(n - 1, s) + s
  }

  lemma {:induction false} TimesIsProduct(n: nat, s: real)
    ensures Times(n, s) == n as real * s
  {
    if n > 0 {
      TimesIsProduct(n - 1, s);
    }
  }

  lemma {:induction false} TimesNonneg(n: nat, s: real)
    requires s >= 0.0
    ensures Times(n, s) >= 0.0
  {
    if n > 0 {
      TimesNonneg(n - 1, s);
    }
  }

  lemma {:induction false} TimesMono(i: nat, j: nat, s: real)
    requires i <= j && s >= 0.0
    ensures Times(i, s) <= Times(j, s)
    decreases j
  {
    if i < j {
      TimesMono(i, j - 1, s);
    }
  }

  /** The baseline of the `i`-th of a run of lines drawn `step` apart from `top`. */
  function Slot(top: real, i: nat, step: real): real {
    top + Times(i, step)
  }

  lemma SlotMono(top: real, i: nat, j: nat, step: real)
    requires i <= j && step >= 0.0
    ensures Slot(top, i, step) <= Slot(top, j, step)
  {
    TimesMono(i, j, step);
  }

  lemma {:induction false} SlotShift(top: real, i: nat, step: real)
    ensures Slot(top + step, i, step) == Slot(top, i + 1, step)
  {
    TimesShift(i, step);
  }

  lemma {:induction false} TimesShift(i: nat, s: real)
    ensures s + Times(i, s) == Times(i + 1, s)
  {
  }

  /** Text lines drawn one under another, `step` apart. */
  function LinesAt(lines: seq<string>, x: real, top: real, step: real): (r: seq<Op>)
    ensures |r| == |lines|
    decreases |lines|
  {
    if lines == [] then [] else [Text(lines[0], x, top)] + LinesAt(lines[1..], x, top + step, step)
  }

  /** The `i`-th line sits `i` steps below the first, as in
      `lines.forEach((l, i) => doc.text(l, x, top + i * step))`. */
  lemma {:induction false} LinesAtIndex(lines: seq<string>, x: real, top: real, step: real)
    ensures forall i :: 0 <= i < |lines| ==> LinesAt(lines, x, top, step)[i] == Text(lines[i], x, Slot(top, i, step))
    decreases |lines|
  {
    if lines != [] {
      LinesAtIndex(lines[1..], x, top + step, step);
      forall i | 1 <= i < |lines|
        ensures LinesAt(lines, x, top, step)[i] == Text(lines[i], x, Slot(top, i, step))
      {
        SlotShift(top, i - 1, step);
      }
    }
  }

  datatype Drawn = Drawn(ops: seq<Op>, end: real)

  /** `drawField`: the label lines, the value lines, a rule under them, and
      the cursor after the field. */
  function DrawField(v: Variant, split: Splitter, x: real, y: real, caption: string, value: string, width: real): (d: Drawn)
    ensures |d.ops| == |LabelLines(v, split, caption, width)| + |ValueLines(v, split, value, width)| + 1
    ensures d.end == y + FieldAdvance(v, |LabelLines(v, split, caption, width)|, |ValueLines(v, split, value, width)|)
    ensures d.ops[|d.ops| - 1] == Rule(x, d.end - 1.1, x + width, d.end - 1.1)
  {
    var lab := LabelLines(v, split, caption, width);
    var val := ValueLines(v, split, value, width);
    var valueTop := y + Times(|lab|, v.lineGap + 1.0) + 1.0;
    var ruleTop := valueTop + Times(|val|, v.lineGap + 1.4) + 1.5;
    Drawn(LinesAt(lab, x, y + 3.2, v.lineGap + 1.0)
          + LinesAt(val, x, valueTop + 3.8, v.lineGap + 1.4)
          + [Rule(x, ruleTop + 1.1, x + width, ruleTop + 1.1)],
          ruleTop + 2.2)
  }

  lemma {:induction false} LinesAtAbove(lines: seq<string>, x: real, top: real, step: real, limit: real)
    requires step >= 0.0
    requires lines != [] ==> Slot(top, |lines| - 1, step) <= limit
    ensures Above(LinesAt(lines, x, top, step), limit)
    ensures NoFooter(LinesAt(lines, x, top, step))
    decreases |lines|
  {
    if lines != [] {
      SlotMono(top, 0, |lines| - 1, step);
      if |lines| > 1 {
        SlotShift(top, |lines| - 2, step);
      }
      LinesAtAbove(lines[1..], x, top + step, step, limit);
      var r := LinesAt(lines, x, top, step);
      assert r[1..] == LinesAt(lines[1..], x, top + step, step);
    }
  }

  /** A drawn field advances the cursor by at least 4.7 mm, every operation
      of it lies above the new cursor, and it contains no footer. */
  lemma FieldSpec(v: Variant, split: Splitter, x: real, y: real, caption: string, value: string, width: real)
    requires v.lineGap >= 0.0
    ensures var d := DrawField(v, split, x, y, caption, value, width);
      d.end >= y + 4.7 && Above(d.ops, d.end) && NoFooter(d.ops)
  {
    var lab := LabelLines(v, split, caption, width);
    var val := ValueLines(v, split, value, width);
    var d := DrawField(v, split, x, y, caption, value, width);
    var valueTop := y + Times(|lab|, v.lineGap + 1.0) + 1.0;
    var ruleTop := valueTop + Times(|val|, v.lineGap + 1.4) + 1.5;
    TimesNonneg(|lab|, v.lineGap + 1.0);
    TimesNonneg(|val|, v.lineGap + 1.4);
    LinesAtAbove(lab, x, y + 3.2, v.lineGap + 1.0, d.end);
    LinesAtAbove(val, x, valueTop + 3.8, v.lineGap + 1.4, d.end);
    var a := LinesAt(lab, x, y + 3.2, v.lineGap + 1.0);
    var b := LinesAt(val, x, valueTop + 3.8, v.lineGap + 1.4);
    var rule := [Rule(x, ruleTop + 1.1, x + width, ruleTop + 1.1)];
    AllAbove(rule, d.end);
    AboveConcat(a, b, d.end, d.end);
    AboveConcat(a + b, rule, d.end, d.end);
    assert d.ops == a + b + rule;
  }

  /** For every variant, a field of one label line and one value line is
      expected to take less room than `drawField` then uses
      (11.3 against 13.1 mm in the normal layout). */
  lemma FitUnderestimatesAdvance(v: Variant, split: Splitter, caption: string, value: string)
    requires v in Layouts
    requires |LabelLines(v, split, caption, ColW)| == 1 && |ValueLines(v, split, value, ColW)| == 1
    ensures FitHeight(v, split, caption, value, ColW) < FieldAdvance(v, 1, 1)
    ensures v == Normal ==> FitHeight(v, split, caption, value, ColW) == 11.3 && FieldAdvance(v, 1, 1) == 13.1
  {
    assert forall s :: Times(1, s) == s;
  }

  // ---------------------------------------------------------------- columns

  /** One entry of a column: a label and the value as the column loop passes
      it on (`value || "-"`, see `Shown`). */
  datatype Field = Field(caption: string, value: string)

  function FieldFit(v: Variant, split: Splitter, f: Field): real {
    FitHeight(v, split, f.caption, f.value, ColW)
  }

  function FieldHeight(v: Variant, split: Splitter, f: Field): real {
    FieldAdvance(v, |LabelLines(v, split, f.caption, ColW)|, |ValueLines(v, split, f.value, ColW)|)
  }

  /** The total cursor advance of a fully drawn column. */
  function ColumnHeight(v: Variant, split: Splitter, items: seq<Field>): (h: real)
    ensures v.lineGap >= 0.0 ==> h >= 4.7 * |items| as real
  {
    if items == [] then 0.0
    else
      var lab := |LabelLines(v, split, items[0].caption, ColW)|;
      var val := |ValueLines(v, split, items[0].value, ColW)|;
      if v.lineGap >= 0.0 then
        TimesNonneg(lab, v.lineGap + 1.0);
        TimesNonneg(val, v.lineGap + 1.4);
        FieldHeight(v, split, items[0]) + ColumnHeight(v, split, items[1..])
      else
        FieldHeight(v, split, items[0]) + ColumnHeight(v, split, items[1..])
  }

  /** The result of laying out part of the page: the operations drawn, the
      cursor afterwards, and whether the attempt gave up. */
  datatype Laid = Laid(ops: seq<Op>, end: real, overflow: bool)

  /** Nothing of `l` is drawn below its final cursor, and it holds no footer. */
  predicate Settled(l: Laid) {
    Above(l.ops, l.end) && NoFooter(l.ops)
  }

  /** One column loop: each field is measured with `fitHeight`, checked with
      `wouldOverflow` against the section start `sectionY`, and drawn at the
      column's own cursor. */
  function LayColumn(v: Variant, split: Splitter, x: real, sectionY: real, cursor: real, items: seq<Field>): Laid
    decreases |items|
  {
    if items == [] then Laid([], cursor, false)
    else if WouldOverflow(sectionY, FieldFit(v, split, items[0])) then Laid([], cursor, true)
    else
      var d := DrawField(v, split, x, cursor, items[0].caption, items[0].value, ColW);
      var rest := LayColumn(v, split, x, sectionY, d.end, items[1..]);
      Laid(d.ops + rest.ops, rest.end, rest.overflow)
  }

  /** The guard of a column loop fires exactly when some field's expected
      height does not fit below the SECTION START; the column's own cursor
      plays no part in it. */
  lemma {:induction false} ColumnGuard(v: Variant, split: Splitter, x: real, sectionY: real, cursor: real, items: seq<Field>)
    ensures LayColumn(v, split, x, sectionY, cursor, items).overflow
        <==> exists i :: 0 <= i < |items| && WouldOverflow(sectionY, FieldFit(v, split, items[i]))
    decreases |items|
  {
    if items != [] && !WouldOverflow(sectionY, FieldFit(v, split, items[0])) {
      var d := DrawField(v, split, x, cursor, items[0].caption, items[0].value, ColW);
      ColumnGuard(v, split, x, sectionY, d.end, items[1..]);
      if exists i :: 0 <= i < |items| && WouldOverflow(sectionY, FieldFit(v, split, items[i])) {
        var i :| 0 <= i < |items| && WouldOverflow(sectionY, FieldFit(v, split, items[i]));
        assert items[1..][i - 1] == items[i];
      }
      if exists j :: 0 <= j < |items[1..]| && WouldOverflow(sectionY, FieldFit(v, split, items[1..][j])) {
        var j :| 0 <= j < |items[1..]| && WouldOverflow(sectionY, FieldFit(v, split, items[1..][j]));
        assert items[j + 1] == items[1..][j];
      }
    }
  }

  /** A column never moves its cursor up, draws nothing below its final
      cursor, and, when it completes, ends exactly its total height below
      where it started. */
  lemma {:induction false} ColumnGeometry(v: Variant, split: Splitter, x: real, sectionY: real, cursor: real, items: seq<Field>)
    requires v.lineGap >= 0.0
    ensures var c := LayColumn(v, split, x, sectionY, cursor, items);
      && c.end >= cursor
      && Settled(c)
      && (!c.overflow ==> c.end == cursor + ColumnHeight(v, split, items))
    decreases |items|
  {
    if items != [] && !WouldOverflow(sectionY, FieldFit(v, split, items[0])) {
      var d := DrawField(v, split, x, cursor, items[0].caption, items[0].value, ColW);
      FieldSpec(v, split, x, cursor, items[0].caption, items[0].value, ColW);
      ColumnGeometry(v, split, x, sectionY, d.end, items[1..]);
      var rest := LayColumn(v, split, x, sectionY, d.end, items[1..]);
      AboveConcat(d.ops, rest.ops, d.end, rest.end);
    }
  }

  /** A column loop over `items`, appending to the document as it goes. */
  method LayOutColumn(v: Variant, split: Splitter, x: real, sectionY: real, items: seq<Field>)
    returns (ops: seq<Op>, end: real, overflow: bool)
    ensures Laid(ops, end, overflow) == LayColumn(v, split, x, sectionY, sectionY, items)
  {
    ops := [];
    var cursor := sectionY;
    var i := 0;
    while i < |items|
      invariant 0 <= i <= |items|
      invariant var rest := LayColumn(v, split, x, sectionY, cursor, items[i..]);
        LayColumn(v, split, x, sectionY, sectionY, items) == Laid(ops + rest.ops, rest.end, rest.overflow)
    {
      assert items[i..][0] == items[i] && items[i..][1..] == items[i + 1..];
      var shown := items[i].value;
      var h := FitHeight(v, split, items[i].caption, shown, ColW);
      if WouldOverflow(sectionY, h) {
        return ops, cursor, true;
      }
      var d := DrawField(v, split, x, cursor, items[i].caption, shown, ColW);
      var rest := LayColumn(v, split, x, sectionY, d.end, items[i + 1..]);
      assert ops + (d.ops + rest.ops) == (ops + d.ops) + rest.ops;
      ops := ops + d.ops;
      cursor := d.end;
      i := i + 1;
    }
    assert ops + [] == ops;
    return ops, cursor, false;
  }

  // ---------------------------------------------------------------- sections

  /** `sectionHeader(title)` drawn with its bar at `top`. */
  function SectionHeaderOps(title: string, top: real): seq<Op> {
    [Rect(Margin, top, ContentW, 8.0, true), Text(title, Margin + 3.0, top + 5.8)]
  }

  lemma HeaderFits(v: Variant, title: string, top: real)
    requires Sane(v)
    ensures Above(SectionHeaderOps(title, top), top + v.sectionGap)
    ensures NoFooter(SectionHeaderOps(title, top))
  {
    AllAbove(SectionHeaderOps(title, top), top + v.sectionGap);
  }

  /** The header, then the left column; unless the left column gave up, the
      right column after it, and the cursor at the lower column end. */
  function Beside(hdr: seq<Op>, l: Laid, r: Laid): (s: Laid)
    ensures l.overflow ==> s == Laid(hdr + l.ops, l.end, true)
    ensures !l.overflow ==> s.ops == hdr + l.ops + r.ops && s.overflow == r.overflow
    ensures !l.overflow ==> s.end >= l.end && s.end >= r.end && (s.end == l.end || s.end == r.end)
  {
    if l.overflow then Laid(hdr + l.ops, l.end, true)
    else Laid(hdr + l.ops + r.ops, MaxR(l.end, r.end), r.overflow)
  }

  /** Two columns that each stay above their own end, started below a header
      that stays above `start`, make a section that stays above its end. */
  lemma BesideGeometry(hdr: seq<Op>, l: Laid, r: Laid, start: real)
    requires Above(hdr, start) && NoFooter(hdr)
    requires l.end >= start && Settled(l)
    requires r.end >= start && Settled(r)
    ensures var s := Beside(hdr, l, r);
      s.end >= start && Settled(s)
  {
    AboveConcat(hdr, l.ops, start, l.end);
    if !l.overflow {
      var e := MaxR(l.end, r.end);
      AboveMono(r.ops, r.end, e);
      AboveConcat(hdr + l.ops, r.ops, l.end, e);
    }
  }

  /** A two-column section starting with the cursor at `y`: the header, the
      left column, the right column, and the cursor moved to the lower of
      the two column ends. */
  function LaySection(v: Variant, split: Splitter, y: real, title: string, left: seq<Field>, right: seq<Field>): Laid {
    var top := y + 6.0;
    var start := top + v.sectionGap;
    Beside(SectionHeaderOps(title, top),
           LayColumn(v, split, X1, start, start, left),
           LayColumn(v, split, X2, start, start, right))
  }

  /** A section gives up exactly when some field of either column does not
      fit below the section start; when it completes, both columns started
      at the same cursor and the section ends at the taller one. */
  lemma SectionGuard(v: Variant, split: Splitter, y: real, title: string, left: seq<Field>, right: seq<Field>)
    ensures var start := y + 6.0 + v.sectionGap;
      LaySection(v, split, y, title, left, right).overflow <==>
        (exists i :: 0 <= i < |left| && WouldOverflow(start, FieldFit(v, split, left[i])))
        || (exists i :: 0 <= i < |right| && WouldOverflow(start, FieldFit(v, split, right[i])))
  {
    var start := y + 6.0 + v.sectionGap;
    var l := LayColumn(v, split, X1, start, start, left);
    var r := LayColumn(v, split, X2, start, start, right);
    assert LaySection(v, split, y, title, left, right) == Beside(SectionHeaderOps(title, y + 6.0), l, r);
    ColumnGuard(v, split, X1, start, start, left);
    ColumnGuard(v, split, X2, start, start, right);
  }

  /** Both columns of a section start at the same cursor, below the section
      bar, and a completed section ends at the taller column. */
  lemma SectionEnd(v: Variant, split: Splitter, y: real, title: string, left: seq<Field>, right: seq<Field>)
    requires v.lineGap >= 0.0
    ensures var s := LaySection(v, split, y, title, left, right);
      var start := y + 6.0 + v.sectionGap;
      && s.end >= start
      && (!s.overflow ==> s.end == start + MaxR(ColumnHeight(v, split, left), ColumnHeight(v, split, right)))
  {
    var start := y + 6.0 + v.sectionGap;
    var l := LayColumn(v, split, X1, start, start, left);
    var r := LayColumn(v, split, X2, start, start, right);
    assert LaySection(v, split, y, title, left, right) == Beside(SectionHeaderOps(title, y + 6.0), l, r);
    ColumnGeometry(v, split, X1, start, start, left);
    ColumnGeometry(v, split, X2, start, start, right);
  }

  /** Nothing of a section is drawn below the section's final cursor. */
  lemma SectionGeometry(v: Variant, split: Splitter, y: real, title: string, left: seq<Field>, right: seq<Field>)
    requires Sane(v)
    ensures var s := LaySection(v, split, y, title, left, right);
      s.end >= y + 6.0 + v.sectionGap && Settled(s)
  {
    var top := y + 6.0;
    var start := top + v.sectionGap;
    var l := LayColumn(v, split, X1, start, start, left);
    var r := LayColumn(v, split, X2, start, start, right);
    var hdr := SectionHeaderOps(title, top);
    assert LaySection(v, split, y, title, left, right) == Beside(hdr, l, r);
    HeaderFits(v, title, top);
    ColumnGeometry(v, split, X1, start, start, left);
    ColumnGeometry(v, split, X2, start, start, right);
    BesideGeometry(hdr, l, r, start);
  }

  method LayOutSection(v: Variant, split: Splitter, y: real, title: string, left: seq<Field>, right: seq<Field>)
    returns (ops: seq<Op>, end: real, overflow: bool)
    ensures Laid(ops, end, overflow) == LaySection(v, split, y, title, left, right)
  {
    var top := y + 6.0;
    ops := SectionHeaderOps(title, top);
    var start := top + v.sectionGap;
    var leftOps, leftY, leftOverflow := LayOutColumn(v, split, X1, start, left);
    ops := ops + leftOps;
    if leftOverflow {
      return ops, leftY, true;
    }
    var rightOps, rightY, rightOverflow := LayOutColumn(v, split, X2, start, right);
    assert LaySection(v, split, y, title, left, right)
      == Beside(SectionHeaderOps(title, top), Laid(leftOps, leftY, false), Laid(rightOps, rightY, rightOverflow));
    ops := ops + rightOps;
    return ops, MaxR(leftY, rightY), rightOverflow;
  }

  // ---------------------------------------------------------------- blocks

  /** The brand header: optional logo, two title lines, three address lines. */
  function HeaderOps(logo: Option<string>): seq<Op> {
    (if logo.Some? then [Image(logo.value, PageW - Margin - 36.0, Margin - 6.0, 36.0, 0.0)] else [])
    + [ Text("Brooks Waste \U{2013} Sewage Specialist", Margin, Margin + 6.0),
        TextRight("CONTROLLED WASTE TRANSFER NOTE", PageW - Margin, Margin + 6.0),
        Text("Kendale The Drive, Rayleigh Essex, SS6 8XQ", Margin, Margin + 11.0),
        Text("01268776126 \U{B7} info@brookswaste.co.uk \U{B7} www.brookswaste.co.uk", Margin, Margin + 15.5),
        Text("Waste Carriers Reg #: CBDU167551", Margin, Margin + 20.0) ]
  }

  function ImageOps(img: Option<string>, x: real, y: real, w: real, h: real): seq<Op> {
    if img.Some? then [Image(img.value, x, y, w, h)] else []
  }

  /** What the pages shows, resolved from the note (and its job). */
  datatype WtnView = WtnView(
    jobLeft: seq<Field>, jobRight: seq<Field>,
    clientLeft: seq<Field>, clientRight: seq<Field>,
    wasteLeft: seq<Field>, wasteRight: seq<Field>,
    driverName: string, customerName: string, comments: string,
    operativeSig: Option<string>, customerSig: Option<string>,
    terms: string)

  /** The signature block: header, guard, the two names, the two boxes and
      the signature images inside them. */
  function SignatureBlock(v: Variant, y: real, w: WtnView): Laid {
    var top := y + 6.0;
    var start := top + v.sectionGap;
    var hdr := SectionHeaderOps("Signatures", top);
    if WouldOverflow(start, v.sigHeight + 20.0) then Laid(hdr, start, true)
    else
      var ops := hdr
        + [ Text("Driver: " + w.driverName, Margin, start + 4.0),
            Text("Customer: " + w.customerName, X2, start + 4.0),
            Rect(Margin, start + 6.0, ColW, v.sigHeight, false),
            Rect(X2, start + 6.0, ColW, v.sigHeight, false) ]
        + ImageOps(w.operativeSig, Margin + 2.0, start + 8.0, ColW - 4.0, v.sigHeight - 4.0)
        + ImageOps(w.customerSig, X2 + 2.0, start + 8.0, ColW - 4.0, v.sigHeight - 4.0);
      Laid(ops, start + v.sigHeight + 8.0, false)
  }

  /** The brand header stays above the cursor it hands to the first section. */
  lemma HeaderGeometry(logo: Option<string>)
    ensures Above(HeaderOps(logo), Margin + 24.0) && NoFooter(HeaderOps(logo))
  {
    AllAbove(HeaderOps(logo), Margin + 24.0);
  }

  /** The signature block grows the cursor and draws nothing below it; when
      it is drawn, all of it lies above the cursor it hands on. */
  lemma SignatureGeometry(v: Variant, y: real, w: WtnView)
    requires Sane(v)
    ensures var b := SignatureBlock(v, y, w);
      b.end >= y && Settled(b)
  {
    var b := SignatureBlock(v, y, w);
    AllAbove(b.ops, b.end);
  }

  /** `(wtn.additional_comments || "").trim() || "-"` */
  function CommentsText(comments: Value): (r: string)
    ensures Blank(comments) ==> r == "-"
    ensures !Blank(comments) ==> r == Trim(ToStr(comments))
  {
    BlankTrim(comments);
    OrDash(Trim(ToStr(Or(comments, Str("")))))
  }

  /** `COMMENT_LINE_H` */
  function CommentLineHeight(v: Variant): real {
    MaxR(v.lineGap + 1.6, 4.6)
  }

  /** The wrapped comment lines (measured in the bold value font). */
  function CommentLinesOf(v: Variant, split: Splitter, comments: string): seq<string> {
    split(comments, Font(v.valueSize, true), ContentW - 6.0)
  }

  /** The height of the comments box. */
  function CommentBoxHeight(v: Variant, lineCount: nat): real {
    MaxR(v.sigHeight, Times(lineCount, CommentLineHeight(v)) + 8.0)
  }

  /** The comment-line loop: lines are drawn `step` apart from `textY`, and
      the loop stops at the first line whose baseline would pass `limit`. */
  function CommentLines(lines: seq<string>, x: real, textY: real, limit: real, step: real): (r: seq<Op>)
    ensures |r| <= |lines|
    decreases |lines|
  {
    if lines == [] || textY > limit then []
    else [Text(lines[0], x, textY)] + CommentLines(lines[1..], x, textY + step, limit, step)
  }

  /** The safety break: no comment line is drawn with its baseline past the
      limit, and the lines drawn are a prefix of the wrapped lines. */
  lemma {:induction false} CommentLinesBelowLimit(lines: seq<string>, x: real, textY: real, limit: real, step: real)
    ensures var r := CommentLines(lines, x, textY, limit, step);
      && Above(r, limit) && NoFooter(r)
      && forall i :: 0 <= i < |r| ==> r[i].Text? && r[i].s == lines[i]
    decreases |lines|
  {
    if lines != [] && textY <= limit {
      CommentLinesBelowLimit(lines[1..], x, textY + step, limit, step);
      var rest := CommentLines(lines[1..], x, textY + step, limit, step);
      var r := [Text(lines[0], x, textY)] + rest;
      assert r[1..] == rest;
    }
  }

  /** When the last line's slot is inside the limit, the safety break never
      fires and every line is drawn at its slot. */
  lemma {:induction false} CommentLinesAll(lines: seq<string>, x: real, textY: real, limit: real, step: real)
    requires step >= 0.0
    requires lines != [] ==> Slot(textY, |lines| - 1, step) <= limit
    ensures CommentLines(lines, x, textY, limit, step) == LinesAt(lines, x, textY, step)
    decreases |lines|
  {
    if lines != [] {
      SlotMono(textY, 0, |lines| - 1, step);
      if |lines| > 1 {
        SlotShift(textY, |lines| - 2, step);
      }
      CommentLinesAll(lines[1..], x, textY + step, limit, step);
    }
  }

  /** The comment-line loop of the comments box, with its safety `break`. */
  method DrawCommentLines(lines: seq<string>, x: real, top: real, limit: real, step: real) returns (ops: seq<Op>)
    ensures ops == CommentLines(lines, x, top, limit, step)
  {
    ops := [];
    var textY := top;
    var i := 0;
    while i < |lines|
      invariant 0 <= i <= |lines|
      invariant ops + CommentLines(lines[i..], x, textY, limit, step) == CommentLines(lines, x, top, limit, step)
    {
      if textY > limit {
        break;
      }
      assert lines[i..][1..] == lines[i + 1..];
      ops := ops + [Text(lines[i], x, textY)];
      textY := textY + step;
      i := i + 1;
    }
    assert i < |lines| ==> CommentLines(lines[i..], x, textY, limit, step) == [];
  }

  /** The comments box: header, guard, the box and the lines inside it. */
  function CommentsBlock(v: Variant, split: Splitter, y: real, comments: string): Laid {
    var top := y + 6.0;
    var start := top + v.sectionGap;
    var hdr := SectionHeaderOps("Additional Comments", top);
    var lines := CommentLinesOf(v, split, comments);
    var box := CommentBoxHeight(v, |lines|);
    if WouldOverflow(start, box + 6.0) then Laid(hdr, start, true)
    else
      var text := CommentLines(lines, Margin + 3.0, start + 6.0, start + box - 3.0, CommentLineHeight(v));
      Laid(hdr + [Rect(Margin, start, ContentW, box, false)] + text, start + box + 6.0, false)
  }

  /** The comments box, drawn step by step. */
  method DrawCommentsBox(v: Variant, split: Splitter, y: real, comments: string) returns (ops: seq<Op>, end: real, overflow: bool)
    ensures Laid(ops, end, overflow) == CommentsBlock(v, split, y, comments)
  {
    end := y + 6.0;
    ops := SectionHeaderOps("Additional Comments", end);
    end := end + v.sectionGap;
    var lineH := CommentLineHeight(v);
    var lines := CommentLinesOf(v, split, comments);
    var boxHeight := CommentBoxHeight(v, |lines|);
    if WouldOverflow(end, boxHeight + 6.0) {
      return ops, end, true;
    }
    ops := ops + [Rect(Margin, end, ContentW, boxHeight, false)];
    var lineOps := DrawCommentLines(lines, Margin + 3.0, end + 6.0, end + boxHeight - 3.0, lineH);
    ops := ops + lineOps;
    end := end + boxHeight + 6.0;
    overflow := false;
  }

  /** The comments box grows the cursor and draws nothing below it. */
  lemma CommentsGeometry(v: Variant, split: Splitter, y: real, comments: string)
    requires Sane(v)
    ensures var b := CommentsBlock(v, split, y, comments);
      b.end >= y && Settled(b)
  {
    var start := y + 6.0 + v.sectionGap;
    var lines := CommentLinesOf(v, split, comments);
    var box := CommentBoxHeight(v, |lines|);
    var hdr := SectionHeaderOps("Additional Comments", y + 6.0);
    if !WouldOverflow(start, box + 6.0) {
      CommentLinesBelowLimit(lines, Margin + 3.0, start + 6.0, start + box - 3.0, CommentLineHeight(v));
      var text := CommentLines(lines, Margin + 3.0, start + 6.0, start + box - 3.0, CommentLineHeight(v));
      AllAbove(hdr + [Rect(Margin, start, ContentW, box, false)], start + box + 6.0);
      AboveMono(text, start + box - 3.0, start + box + 6.0);
      AboveConcat(hdr + [Rect(Margin, start, ContentW, box, false)], text, start + box + 6.0, start + box + 6.0);
    }
  }

  lemma BoxHoldsLines(top: real, n: nat, step: real, sigHeight: real)
    requires n >= 1 && step >= 1.0
    ensures Slot(top + 6.0, n - 1, step) <= top + MaxR(sigHeight, Times(n, step) + 8.0) - 3.0
  {
  }

  /** Blank comments show as "-", and a drawn comments box holds every
      wrapped line, each at its own slot: the box is always tall enough for
      the safety break never to fire. */
  lemma CommentsAllDrawn(v: Variant, split: Splitter, y: real, comments: string)
    ensures var b := CommentsBlock(v, split, y, comments);
      var start := y + 6.0 + v.sectionGap;
      var lines := CommentLinesOf(v, split, comments);
      !b.overflow ==>
        (|b.ops| == 3 + |lines|
         && b.ops[3..] == LinesAt(lines, Margin + 3.0, start + 6.0, CommentLineHeight(v)))
  {
    var start := y + 6.0 + v.sectionGap;
    var lines := CommentLinesOf(v, split, comments);
    var step := CommentLineHeight(v);
    var box := CommentBoxHeight(v, |lines|);
    if lines != [] {
      BoxHoldsLines(start, |lines|, step, v.sigHeight);
    }
    CommentLinesAll(lines, Margin + 3.0, start + 6.0, start + box - 3.0, step);
    var b := CommentsBlock(v, split, y, comments);
    if !b.overflow {
      var hdr := SectionHeaderOps("Additional Comments", y + 6.0);
      assert b.ops == (hdr + [Rect(Margin, start, ContentW, box, false)]) + LinesAt(lines, Margin + 3.0, start + 6.0, step);
    }
  }

  // ---------------------------------------------------------------- attempt

  const TermsText: string :=
    "You are signing to say you have read the above details and that they are correct and the operative has completed the job to a satisfactory standard. "
    + "Brooks Waste Ltd takes no responsibility for any damage done to your property where access is not suitable for a tanker. "
    + "Please see our full terms and conditions on brookswaste.co.uk - Registered in England 06747484 Registered Office: 4 Chester Court, Chester Hall Lane Basildon, Essex SS14 3WR"

  function TermsLines(split: Splitter, terms: string): seq<string> {
    split(terms, Font(7.1, false), ContentW)
  }

  /** The height the terms guard reserves. */
  function TermsHeight(split: Splitter, terms: string): real {
    Times(|TermsLines(split, terms)|, 3.8) + 10.0
  }

  /** The terms block, drawn at a fixed height near the foot of the page. */
  function Footer(split: Splitter, terms: string): Op {
    TextBlock(TermsLines(split, terms), Margin, PageH - Margin - 8.0)
  }

  /** Everything above the terms: header, the three sections, the signature
      block and the comments box, stopping at the first guard that fires. */
  function Body(v: Variant, split: Splitter, w: WtnView, logo: Option<string>): Laid {
    var h := HeaderOps(logo);
    var s1 := LaySection(v, split, Margin + 24.0, "Job Details", w.jobLeft, w.jobRight);
    if s1.overflow then Laid(h + s1.ops, s1.end, true)
    else
      var s2 := LaySection(v, split, s1.end, "Client Details", w.clientLeft, w.clientRight);
      if s2.overflow then Laid(h + s1.ops + s2.ops, s2.end, true)
      else
        var s3 := LaySection(v, split, s2.end, "Waste Details", w.wasteLeft, w.wasteRight);
        if s3.overflow then Laid(h + s1.ops + s2.ops + s3.ops, s3.end, true)
        else
          var sg := SignatureBlock(v, s3.end, w);
          if sg.overflow then Laid(h + s1.ops + s2.ops + s3.ops + sg.ops, sg.end, true)
          else
            var c := CommentsBlock(v, split, sg.end, w.comments);
            Laid(h + s1.ops + s2.ops + s3.ops + sg.ops + c.ops, c.end, c.overflow)
  }

  /** The outcome of `renderOnce`: the document and the overflow flag. */
  datatype Attempt = Attempt(doc: seq<Op>, overflow: bool)

  /** The terms guard and the terms, after the body `b`. */
  function Finish(b: Laid, split: Splitter, terms: string): Attempt {
    if b.overflow || WouldOverflow(b.end, TermsHeight(split, terms)) then Attempt(b.ops, true)
    else Attempt(b.ops + [Footer(split, terms)], false)
  }

  /** `renderOnce(layout)` */
  function Render(v: Variant, split: Splitter, w: WtnView, logo: Option<string>): Attempt {
    Finish(Body(v, split, w, logo), split, w.terms)
  }

  /** What an attempt promises: it reports overflow exactly when the terms
      footer was not drawn; when it fits, the footer comes last and every
      other operation lies at least the terms height above the safe bottom
      of the page. */
  predicate FooterPlaced(a: Attempt, split: Splitter, terms: string) {
    && (a.overflow <==> NoFooter(a.doc))
    && (!a.overflow ==>
          && a.doc[|a.doc| - 1] == Footer(split, terms)
          && Above(a.doc[..|a.doc| - 1], BottomSafe - TermsHeight(split, terms)))
  }

  /** After a body that stays above its cursor and holds no footer, the
      terms step places the footer as promised. */
  lemma FinishSpec(b: Laid, split: Splitter, terms: string)
    requires Settled(b)
    ensures FooterPlaced(Finish(b, split, terms), split, terms)
  {
    var a := Finish(b, split, terms);
    if !a.overflow {
      assert a.doc[..|a.doc| - 1] == b.ops;
      AboveMono(b.ops, b.end, BottomSafe - TermsHeight(split, terms));
      if NoFooter(a.doc) {
        NoFooterAt(a.doc, |a.doc| - 1);
      }
    }
  }

  lemma BodySpec(v: Variant, split: Splitter, w: WtnView, logo: Option<string>)
    requires Sane(v)
    ensures Settled(Body(v, split, w, logo))
  {
    var h := HeaderOps(logo);
    var s1 := LaySection(v, split, Margin + 24.0, "Job Details", w.jobLeft, w.jobRight);
    HeaderGeometry(logo);
    SectionGeometry(v, split, Margin + 24.0, "Job Details", w.jobLeft, w.jobRight);
    AboveConcat(h, s1.ops, Margin + 24.0, s1.end);
    if !s1.overflow {
      var s2 := LaySection(v, split, s1.end, "Client Details", w.clientLeft, w.clientRight);
      SectionGeometry(v, split, s1.end, "Client Details", w.clientLeft, w.clientRight);
      AboveConcat(h + s1.ops, s2.ops, s1.end, s2.end);
      if !s2.overflow {
        var s3 := LaySection(v, split, s2.end, "Waste Details", w.wasteLeft, w.wasteRight);
        SectionGeometry(v, split, s2.end, "Waste Details", w.wasteLeft, w.wasteRight);
        AboveConcat(h + s1.ops + s2.ops, s3.ops, s2.end, s3.end);
        if !s3.overflow {
          var sg := SignatureBlock(v, s3.end, w);
          SignatureGeometry(v, s3.end, w);
          AboveConcat(h + s1.ops + s2.ops + s3.ops, sg.ops, s3.end, sg.end);
          if !sg.overflow {
            var c := CommentsBlock(v, split, sg.end, w.comments);
            CommentsGeometry(v, split, sg.end, w.comments);
            AboveConcat(h + s1.ops + s2.ops + s3.ops + sg.ops, c.ops, sg.end, c.end);
          }
        }
      }
    }
  }

  /** Every attempt, in every sane layout, places the terms footer as
      promised. */
  lemma RenderSpec(v: Variant, split: Splitter, w: WtnView, logo: Option<string>)
    requires Sane(v)
    ensures FooterPlaced(Render(v, split, w, logo), split, w.terms)
  {
    BodySpec(v, split, w, logo);
    FinishSpec(Body(v, split, w, logo), split, w.terms);
  }

  /** `renderOnce`: the imperative attempt, moving one cursor down the page. */
  method RenderOnce(v: Variant, split: Splitter, w: WtnView, logo: Option<string>) returns (doc: seq<Op>, overflow: bool)
    ensures Attempt(doc, overflow) == Render(v, split, w, logo)
  {
    doc := HeaderOps(logo);
    var y := Margin + 24.0;
    var ops, end, sectionOverflow := LayOutSection(v, split, y, "Job Details", w.jobLeft, w.jobRight);
    doc := doc + ops;
    if sectionOverflow {
      return doc, true;
    }
    y := end;
    ops, end, sectionOverflow := LayOutSection(v, split, y, "Client Details", w.clientLeft, w.clientRight);
    doc := doc + ops;
    if sectionOverflow {
      return doc, true;
    }
    y := end;
    ops, end, sectionOverflow := LayOutSection(v, split, y, "Waste Details", w.wasteLeft, w.wasteRight);
    doc := doc + ops;
    if sectionOverflow {
      return doc, true;
    }
    y := end;
    var sig := SignatureBlock(v, y, w);
    doc := doc + sig.ops;
    if sig.overflow {
      return doc, true;
    }
    y := sig.end;

    ops, end, sectionOverflow := DrawCommentsBox(v, split, y, w.comments);
    doc := doc + ops;
    if sectionOverflow {
      return doc, true;
    }
    y := end;

    // the terms
    if WouldOverflow(y, TermsHeight(split, w.terms)) {
      return doc, true;
    }
    doc := doc + [Footer(split, w.terms)];
    return doc, false;
  }

  // ---------------------------------------------------------------- the note

  const SicOtherSentinel: string := "00000 - Other: _______"

  function JobField(job: Option<Record>, k: string): Value {
    if job.Some? then Get(job.value, k) else Undef
  }

  /** `wtn.date_of_service || job?.date_of_service || job?.archived_date_of_service || "-"` */
  function DateOfService(wtn: Record, job: Option<Record>): (r: Value)
    ensures Truthy(r)
    ensures Truthy(Get(wtn, "date_of_service")) ==> r == Get(wtn, "date_of_service")
    ensures !Truthy(Get(wtn, "date_of_service")) && Truthy(JobField(job, "date_of_service"))
      ==> r == JobField(job, "date_of_service")
    ensures !Truthy(Get(wtn, "date_of_service")) && !Truthy(JobField(job, "date_of_service"))
      && Truthy(JobField(job, "archived_date_of_service"))
      ==> r == JobField(job, "archived_date_of_service")
    ensures !Truthy(Get(wtn, "date_of_service")) && !Truthy(JobField(job, "date_of_service"))
      && !Truthy(JobField(job, "archived_date_of_service"))
      ==> r == Str("-")
  {
    Or(Or(Or(Get(wtn, "date_of_service"), JobField(job, "date_of_service")),
          JobField(job, "archived_date_of_service")),
       Str("-"))
  }

  /** A value a text column can hold: a string, or a falsy value. */
  predicate Textual(v: Value) {
    v.Str? || !Truthy(v)
  }

  /** `displaySIC`: the free-text SIC when the "Other" sentinel is chosen. */
  function DisplaySic(wtn: Record): (r: string)
    ensures StrictEq(Get(wtn, "sic_code"), Str(SicOtherSentinel))
      ==> r == (if Truthy(Get(wtn, "sic_other")) then ToStr(Get(wtn, "sic_other")) else "")
    ensures !StrictEq(Get(wtn, "sic_code"), Str(SicOtherSentinel))
      ==> r == (if Truthy(Get(wtn, "sic_code")) then ToStr(Get(wtn, "sic_code")) else "")
    ensures (Textual(Get(wtn, "sic_code")) && Textual(Get(wtn, "sic_other"))
             && Get(wtn, "sic_other") != Str(SicOtherSentinel)) ==> r != SicOtherSentinel
  {
    var shown := if StrictEq(Get(wtn, "sic_code"), Str(SicOtherSentinel))
      then Or(Get(wtn, "sic_other"), Str(""))
      else Or(Get(wtn, "sic_code"), Str(""));
    ToStr(shown)
  }

  /** The merged "Time In / Time Out" value. */
  function TimeInOut(wtn: Record): (r: string)
    ensures !Truthy(Get(wtn, "time_in")) && !Truthy(Get(wtn, "time_out")) ==> r == "-"
    ensures Truthy(Get(wtn, "time_in")) || Truthy(Get(wtn, "time_out"))
      ==> r == Shown(Get(wtn, "time_in")) + " \U{2013} " + Shown(Get(wtn, "time_out"))
  {
    if Truthy(Get(wtn, "time_in")) || Truthy(Get(wtn, "time_out")) then
      ToStr(Or(Get(wtn, "time_in"), Str("-"))) + " \U{2013} " + ToStr(Or(Get(wtn, "time_out"), Str("-")))
    else "-"
  }

  /** The images as loaded (`null` when a fetch failed). */
  datatype Images = Images(logo: Option<string>, operativeSig: Option<string>, customerSig: Option<string>)

  /** `loadDataUrl(url)` returns nothing for a falsy URL, whatever a fetch would give. */
  function Loaded(url: Value, fetched: Option<string>): Option<string> {
    if Truthy(url) then fetched else None
  }

  /** The fields, names and comments the note shows. */
  function View(wtn: Record, job: Option<Record>, img: Images): WtnView {
    var driverName := Or(Get(wtn, "driver_name"), Str("-"));
    var customerName := Or(Get(wtn, "customer_name"), Str("-"));
    WtnView(
      [ Field("Date of Service", Shown(DateOfService(wtn, job))),
        Field("Customer Job Reference", Shown(Get(wtn, "customer_job_reference"))),
        Field("Job Description", Shown(Get(wtn, "job_description"))),
        Field("Time In / Time Out", TimeInOut(wtn)) ],
      [ Field("Waste Containment", Shown(Get(wtn, "waste_containment"))),
        Field("Vehicle Registration", Shown(Get(wtn, "vehicle_registration"))),
        Field("Driver Name", ToStr(driverName)) ],
      [ Field("Client Name", Shown(Get(wtn, "client_name"))),
        Field("Customer Name", ToStr(customerName)) ],
      [ Field("Site Address", Shown(Get(wtn, "site_address"))),
        Field("Client Email", Shown(Get(wtn, "client_email"))),
        Field("Client Telephone", Shown(Get(wtn, "client_telephone"))) ],
      [ Field("SIC Code", OrDash(DisplaySic(wtn))),
        Field("EWC Code", Shown(Get(wtn, "ewc"))),
        Field("Waste Description", Shown(Get(wtn, "waste_description"))) ],
      [ Field("Amount Removed", Shown(Get(wtn, "amount_removed"))),
        Field("Disposal Address", Shown(Get(wtn, "disposal_address"))) ],
      ToStr(driverName), ToStr(customerName),
      CommentsText(Get(wtn, "additional_comments")),
      Loaded(Get(wtn, "operative_signature"), img.operativeSig),
      Loaded(Get(wtn, "customer_signature"), img.customerSig),
      TermsText)
  }

  // ---------------------------------------------------------------- file name

  /** A character that `\w` or `-` matches: ASCII letters, digits, `_` and `-`. */
  predicate IsRefChar(c: char) {
    ('A' <= c <= 'Z') || ('a' <= c <= 'z') || ('0' <= c <= '9') || c == '_' || c == '-'
  }

  /** What is left after the run of disallowed characters at the front. */
  function SkipRun(s: string): (r: string)
    ensures |r| <= |s|
    ensures r == [] || IsRefChar(r[0])
  {
    if s != [] && !IsRefChar(s[0]) then SkipRun(s[1..]) else s
  }

  /** `s.replace(/[^\w\-]+/g, "_")`: each maximal run of disallowed
      characters becomes one underscore. */
  function ReplaceRuns(s: string): (r: string)
    ensures forall i :: 0 <= i < |r| ==> IsRefChar(r[i])
    ensures |r| <= |s|
    ensures r == [] <==> s == []
    decreases |s|
  {
    if s == [] then []
    else if IsRefChar(s[0]) then [s[0]] + ReplaceRuns(s[1..])
    else "_" + ReplaceRuns(SkipRun(s[1..]))
  }

  /** A reference made only of allowed characters is kept as it is; any other
      reference is changed. */
  lemma {:induction false} ReplaceRunsKeeps(s: string)
    ensures ReplaceRuns(s) == s <==> forall i :: 0 <= i < |s| ==> IsRefChar(s[i])
    decreases |s|
  {
    if s != [] && IsRefChar(s[0]) {
      ReplaceRunsKeeps(s[1..]);
      assert s == [s[0]] + s[1..];
      if forall i :: 0 <= i < |s| ==> IsRefChar(s[i]) {
        assert forall i :: 0 <= i < |s[1..]| ==> IsRefChar(s[1..][i]) by {
          forall i | 0 <= i < |s[1..]| ensures IsRefChar(s[1..][i]) { assert s[1..][i] == s[i + 1]; }
        }
      }
      if ReplaceRuns(s) == s {
        assert ReplaceRuns(s[1..]) == s[1..];
      }
    }
  }

  /** Sanitising twice changes nothing more. */
  lemma ReplaceRunsIdempotent(s: string)
    ensures ReplaceRuns(ReplaceRuns(s)) == ReplaceRuns(s)
  {
    ReplaceRunsKeeps(ReplaceRuns(s));
  }

  /** `safeRef` */
  function SafeRef(wtn: Record): string {
    var fallback := Str("Job_" + ToStr(Or(Get(wtn, "job_id"), Str("WTN"))));
    ReplaceRuns(ToStr(Or(Get(wtn, "customer_job_reference"), fallback)))
  }

  /** The saved file name. */
  function FileName(wtn: Record): string {
    "WTN_" + SafeRef(wtn) + ".pdf"
  }

  /** Allowed characters pass through unchanged. */
  lemma {:induction false} ReplaceRunsKeepsPrefix(a: string, b: string)
    requires forall i :: 0 <= i < |a| ==> IsRefChar(a[i])
    ensures ReplaceRuns(a + b) == a + ReplaceRuns(b)
    decreases |a|
  {
    if a != [] {
      assert (a + b)[1..] == a[1..] + b;
      ReplaceRunsKeepsPrefix(a[1..], b);
    } else {
      assert a + b == b;
    }
  }

  lemma {:induction false} SkipRunPast(run: string, b: string)
    requires forall i :: 0 <= i < |run| ==> !IsRefChar(run[i])
    requires b == [] || IsRefChar(b[0])
    ensures SkipRun(run + b) == b
    decreases |run|
  {
    if run != [] {
      assert (run + b)[1..] == run[1..] + b;
      SkipRunPast(run[1..], b);
    } else {
      assert run + b == b;
    }
  }

  /** A whole run of disallowed characters, however long, becomes a single
      `_` (the `+` of the pattern). */
  lemma ReplaceRunsCollapses(run: string, b: string)
    requires run != [] && forall i :: 0 <= i < |run| ==> !IsRefChar(run[i])
    requires b == [] || IsRefChar(b[0])
    ensures ReplaceRuns(run + b) == "_" + ReplaceRuns(b)
  {
    assert (run + b)[0] == run[0];
    assert (run + b)[1..] == run[1..] + b;
    SkipRunPast(run[1..], b);
  }

  /** A reference made of allowed characters is used as it is. */
  lemma FileNameOfCleanRef(wtn: Record, ref: string)
    requires Get(wtn, "customer_job_reference") == Str(ref) && ref != []
    requires forall i :: 0 <= i < |ref| ==> IsRefChar(ref[i])
    ensures FileName(wtn) == "WTN_" + ref + ".pdf"
  {
    ReplaceRunsKeeps(ref);
  }

  /** The decimal digits (and sign) of a job id are all allowed characters. */
  lemma IntToStringClean(n: int)
    ensures forall i :: 0 <= i < |IntToString(n)| ==> IsRefChar(IntToString(n)[i])
  {
    if n < 0 {
      var d := NatToString(-n);
      forall i | 1 <= i < |IntToString(n)| ensures IsRefChar(IntToString(n)[i]) {
        assert IntToString(n)[i] == d[i - 1];
      }
    }
  }

  /** Without a reference the name is built from `Job_` and the job id (or
      `WTN`), which the sanitiser keeps. */
  lemma SafeRefFallback(wtn: Record)
    requires !Truthy(Get(wtn, "customer_job_reference"))
    ensures SafeRef(wtn) == "Job_" + ReplaceRuns(ToStr(Or(Get(wtn, "job_id"), Str("WTN"))))
  {
    var tail := ToStr(Or(Get(wtn, "job_id"), Str("WTN")));
    assert forall i :: 0 <= i < 4 ==> IsRefChar("Job_"[i]);
    ReplaceRunsKeepsPrefix("Job_", tail);
  }

  /** Without a reference a non-zero numeric job id is used. */
  lemma FileNameOfJobId(wtn: Record)
    requires !Truthy(Get(wtn, "customer_job_reference"))
    requires Truthy(Get(wtn, "job_id")) && Get(wtn, "job_id").Num?
    ensures FileName(wtn) == "WTN_Job_" + IntToString(Get(wtn, "job_id").n) + ".pdf"
  {
    var digits := IntToString(Get(wtn, "job_id").n);
    SafeRefFallback(wtn);
    IntToStringClean(Get(wtn, "job_id").n);
    ReplaceRunsKeeps(digits);
    assert "WTN_" + ("Job_" + digits) + ".pdf" == "WTN_Job_" + digits + ".pdf";
  }

  /** Without a reference or a job id the note is saved as `WTN_Job_WTN.pdf`. */
  lemma FileNameDefault(wtn: Record)
    requires !Truthy(Get(wtn, "customer_job_reference")) && !Truthy(Get(wtn, "job_id"))
    ensures FileName(wtn) == "WTN_Job_WTN.pdf"
  {
    SafeRefFallback(wtn);
    assert forall i :: 0 <= i < 3 ==> IsRefChar("WTN"[i]);
    ReplaceRunsKeeps("WTN");
    assert "WTN_" + ("Job_" + "WTN") + ".pdf" == "WTN_Job_WTN.pdf";
  }

  /** "A  #1": the run of three disallowed characters becomes one `_`. */
  lemma ReplaceRunsExample()
    ensures ReplaceRuns("A  #1") == "A_1"
  {
    assert "A  #1" == "A" + ("  #" + "1");
    ReplaceRunsCollapses("  #", "1");
    ReplaceRunsKeepsPrefix("1", "");
    assert "1" + "" == "1";
    ReplaceRunsKeepsPrefix("A", "  #1");
  }

  // ---------------------------------------------------------------- driver

  /** The layout loop of `generateWTNPDF`: try the layouts in order, keep
      the first attempt that fits, otherwise render the last (ultra) one
      again. */
  method ChooseLayout(split: Splitter, w: WtnView, logo: Option<string>) returns (doc: seq<Op>, chosen: nat)
    ensures chosen < |Layouts|
    ensures doc == Render(Layouts[chosen], split, w, logo).doc
    ensures chosen == 0 <==> !Render(Normal, split, w, logo).overflow
    ensures chosen == 1 <==> Render(Normal, split, w, logo).overflow && !Render(Compact, split, w, logo).overflow
    ensures chosen == 2 <==> Render(Normal, split, w, logo).overflow && Render(Compact, split, w, logo).overflow
    ensures FooterPlaced(Render(Layouts[chosen], split, w, logo), split, w.terms)
  {
    var finalDoc: Option<seq<Op>> := None;
    chosen := 0;
    for k := 0 to |Layouts|
      invariant finalDoc.None?
      invariant k > 0 ==> Render(Normal, split, w, logo).overflow
      invariant k > 1 ==> Render(Compact, split, w, logo).overflow
    {
      var attempt, overflow := RenderOnce(Layouts[k], split, w, logo);
      if !overflow {
        finalDoc := Some(attempt);
        chosen := k;
        break;
      }
    }
    if finalDoc.None? {
      chosen := |Layouts| - 1;
      var attempt, _ := RenderOnce(Layouts[chosen], split, w, logo);
      finalDoc := Some(attempt);
    }
    doc := finalDoc.value;
    LayoutsSane();
    RenderSpec(Layouts[chosen], split, w, logo);
  }

  /** `generateWTNPDF(wtn, job)`: the chosen document and the name it is
      saved under. */
  method GenerateWtnPdf(wtn: Record, job: Option<Record>, split: Splitter, img: Images)
    returns (doc: seq<Op>, fileName: string, chosen: nat)
    ensures var w := View(wtn, job, img);
      && chosen < |Layouts|
      && doc == Render(Layouts[chosen], split, w, img.logo).doc
      && (chosen == 0 <==> !Render(Normal, split, w, img.logo).overflow)
      && (chosen == 1 <==> Render(Normal, split, w, img.logo).overflow && !Render(Compact, split, w, img.logo).overflow)
      && (chosen == 2 <==> Render(Normal, split, w, img.logo).overflow && Render(Compact, split, w, img.logo).overflow)
      && FooterPlaced(Render(Layouts[chosen], split, w, img.logo), split, w.terms)
    ensures fileName == FileName(wtn)
  {
    doc, chosen := ChooseLayout(split, View(wtn, job, img), img.logo);
    fileName := "WTN_" + SafeRef(wtn) + ".pdf";
  }
}
