/** The values the inspector builds: point annotations, the marks drawn for
    them, the rows of the inspection log, the cabinet identifier suggested
    by a file name and the name of the annotation snapshot file. */
module Records {
  import opened PyStrings
  import opened Geometry

  datatype Option<T> = None | Some(value: T)

  /** The `type` of an annotation: `'ok'` for a left click, `'error'` for a
      logged defect, which also records the component category, the
      component's name or label, and the chosen error. */
  datatype Mark =
    | Ok
    | Error(component: string, componentName: string, error: string)

  /** One point annotation, in page coordinates (independent of zoom). */
  datatype Annotation = Annotation(mark: Mark, page: nat, x: real, y: real, timestamp: string)

  /** The annotations that belong to `page`, in the order they were made
      (the filter applied when a page is drawn). */
  function OnPage(anns: seq<Annotation>, page: nat): (r: seq<Annotation>)
    ensures |r| <= |anns|
    ensures forall a :: a in r <==> a in anns && a.page == page
  {
    if anns == [] then []
    else if anns[0].page == page then [anns[0]] + OnPage(anns[1..], page)
    else OnPage(anns[1..], page)
  }

  /** Filtering a concatenation filters each part and keeps their order. */
  lemma {:induction false} OnPageConcat(left: seq<Annotation>, right: seq<Annotation>, page: nat)
    ensures OnPage(left + right, page) == OnPage(left, page) + OnPage(right, page)
  {
    if left == [] {
      assert left + right == right;
    } else {
      assert (left + right)[1..] == left[1..] + right;
      OnPageConcat(left[1..], right, page);
    }
  }

  /** A mark as drawn on the rendered page: its kind, its centre pixel and
      its radius in pixels. */
  datatype Marker = Marker(ok: bool, cx: int, cy: int, size: int)

  /** The marker for one annotation: green exactly for an 'ok' mark, centred
      on the annotation's point at the given zoom, sized by the zoom. */
  function MarkerFor(a: Annotation, quarters: int): (m: Marker)
    requires quarters >= 0
    ensures m.ok <==> a.mark == Ok
    ensures m.size == (15 * quarters) / 4
    ensures 0.0 <= a.x ==> m.cx as real <= a.x * (RenderScale * ZoomLevel(quarters)) < m.cx as real + 1.0
    ensures 0.0 <= a.y ==> m.cy as real <= a.y * (RenderScale * ZoomLevel(quarters)) < m.cy as real + 1.0
  {
    Marker(a.mark.Ok?, PageToPixel(a.x, quarters), PageToPixel(a.y, quarters), MarkSize(quarters))
  }

  /** The markers for a sequence of annotations, one each, in order. */
  function Drawn(anns: seq<Annotation>, quarters: int): (r: seq<Marker>)
    requires quarters >= 0
    ensures |r| == |anns|
    ensures forall i :: 0 <= i < |anns| ==> r[i] == MarkerFor(anns[i], quarters)
  {
    if anns == [] then [] else [MarkerFor(anns[0], quarters)] + Drawn(anns[1..], quarters)
  }

  lemma DrawnConcat(left: seq<Annotation>, right: seq<Annotation>, quarters: int)
    requires quarters >= 0
    ensures Drawn(left + right, quarters) == Drawn(left, quarters) + Drawn(right, quarters)
  {
    var lhs := Drawn(left + right, quarters);
    var rhs := Drawn(left, quarters) + Drawn(right, quarters);
    assert |lhs| == |rhs|;
    forall i | 0 <= i < |lhs| ensures lhs[i] == rhs[i] {
      if i >= |left| {
        assert (left + right)[i] == right[i - |left|];
      }
    }
  }

  /** The markers for one more annotation: one more marker when it is on
      the page drawn, none otherwise. */
  lemma DrawnOnPageAppend(anns: seq<Annotation>, a: Annotation, page: nat, quarters: int)
    requires quarters >= 0
    ensures Drawn(OnPage(anns + [a], page), quarters)
         == Drawn(OnPage(anns, page), quarters) + if a.page == page then [MarkerFor(a, quarters)] else []
  {
    var shown := OnPage(anns, page);
    OnPageConcat(anns, [a], page);
    if a.page == page {
      assert OnPage([a], page) == [a];
      DrawnConcat(shown, [a], quarters);
    } else {
      assert OnPage([a], page) == [];
      assert shown + [] == shown;
    }
  }

  /** The log's description of a defect: the component's name, one space,
      the error. */
  function DetailedError(componentName: string, errorDescription: string): (d: string)
    ensures |d| == |componentName| + 1 + |errorDescription|
    ensures d[..|componentName|] == componentName && d[|componentName|] == ' '
    ensures d[|componentName| + 1..] == errorDescription
  {
    componentName + " " + errorDescription
  }

  /** The description alone does not tell the name from the error when the
      name contains a space. */
  lemma DescriptionIsAmbiguous()
    ensures DetailedError("F1 fuse", "Fuse missing") == DetailedError("F1", "fuse Fuse missing")
  {
  }

  /** A cell of the inspection workbook. */
  datatype Cell = Text(text: string) | Number(value: int)

  /** The columns of the inspection log. */
  datatype Field = Timestamp | CabinetId | Page | ComponentType | Description | Inspector

  /** The columns in the order the workbook has them. */
  const Columns: seq<Field> := [Timestamp, CabinetId, Page, ComponentType, Description, Inspector]

  function Title(f: Field): string
  {
    match f
    case Timestamp => "Timestamp"
    case CabinetId => "Cabinet ID"
    case Page => "Page"
    case ComponentType => "Component Type"
    case Description => "Error Description (Component + Error)"
    case Inspector => "Inspector"
  }

  /** The first row of a new inspection log: the column titles. */
  const Header: seq<Cell> := seq(|Columns|, i requires 0 <= i < |Columns| => Text(Title(Columns[i])))

  /** The row appended to the log for one defect. The page is written
      1-based. */
  function LogRow(time: string, cabinetId: string, page: nat, componentType: string,
                  detailedError: string, inspector: string): (row: seq<Cell>)
    ensures |row| == |Columns|
    ensures forall i :: 0 <= i < |row| ==> (row[i].Number? <==> Columns[i] == Page)
  {
    [Text(time), Text(cabinetId), Number(page + 1), Text(componentType), Text(detailedError), Text(inspector)]
  }

  /** The position of the first `x` in `s`, or -1 when there is none. */
  function IndexOf<T(==)>(s: seq<T>, x: T): (i: int)
    ensures -1 <= i < |s|
    ensures i == -1 <==> x !in s
    ensures 0 <= i ==> s[i] == x && x !in s[..i]
  {
    if s == [] then -1
    else if s[0] == x then 0
    else
      var j := IndexOf(s[1..], x);
      if j == -1 then -1
      else
        assert s[..j + 1] == [s[0]] + s[1..][..j];
        j + 1
  }

  /** An element that does not occur earlier is found where it stands. */
  lemma IndexOfIs<T>(s: seq<T>, x: T, k: nat)
    requires k < |s| && s[k] == x && x !in s[..k]
    ensures IndexOf(s, x) == k
  {
  }

  /** The cell of `row` in column `f`. */
  function Column(row: seq<Cell>, f: Field): Option<Cell>
  {
    var i := IndexOf(Columns, f);
    if 0 <= i < |row| then Some(row[i]) else None
  }

  /** The header names every column once, each under its own title. */
  lemma HeaderTitlesColumns()
    ensures |Header| == |Columns|
    ensures forall f :: Column(Header, f) == Some(Text(Title(f)))
  {
    forall f ensures Column(Header, f) == Some(Text(Title(f))) {
      var i := IndexOf(Columns, f);
      assert f in Columns by {
        match f
        case Timestamp => assert Columns[0] == f;
        case CabinetId => assert Columns[1] == f;
        case Page => assert Columns[2] == f;
        case ComponentType => assert Columns[3] == f;
        case Description => assert Columns[4] == f;
        case Inspector => assert Columns[5] == f;
      }
      assert Columns[i] == f;
    }
  }

  /** A log row has one cell per column, and each value sits in the column
      whose title names it. */
  lemma LogRowFollowsHeader(time: string, cabinetId: string, page: nat, componentType: string,
                            detailedError: string, inspector: string)
    ensures |LogRow(time, cabinetId, page, componentType, detailedError, inspector)| == |Columns|
    ensures var row := LogRow(time, cabinetId, page, componentType, detailedError, inspector);
      && Column(row, Timestamp) == Some(Text(time))
      && Column(row, CabinetId) == Some(Text(cabinetId))
      && Column(row, Page) == Some(Number(page + 1))
      && Column(row, ComponentType) == Some(Text(componentType))
      && Column(row, Description) == Some(Text(detailedError))
      && Column(row, Inspector) == Some(Text(inspector))
  {
    ColumnPositions();
  }

  lemma ColumnPositions()
    ensures IndexOf(Columns, Timestamp) == 0 && IndexOf(Columns, CabinetId) == 1
    ensures IndexOf(Columns, Page) == 2 && IndexOf(Columns, ComponentType) == 3
    ensures IndexOf(Columns, Description) == 4 && IndexOf(Columns, Inspector) == 5
  {
    IndexOfIs(Columns, Timestamp, 0);
    IndexOfIs(Columns, CabinetId, 1);
    IndexOfIs(Columns, Page, 2);
    IndexOfIs(Columns, ComponentType, 3);
    IndexOfIs(Columns, Description, 4);
    IndexOfIs(Columns, Inspector, 5);
  }

  /** The cabinet identifier suggested by a loaded file: its base name with
      every ".pdf" removed, then every "_" turned into "-". */
  function SuggestedCabinetId(path: string): (id: string)
    ensures '_' !in id
    ensures |id| <= |BaseName(path)|
  {
    var stripped := ReplaceAll(BaseName(path), ".pdf", "");
    ReplaceCharRemovesAll(stripped, '_', '-');
    ReplaceCharPointwise(stripped, '_', '-');
    ReplaceAll(stripped, "_", "-")
  }

  /** A suggested identifier never contains "_". */
  lemma SuggestedCabinetIdHasNoUnderscore(path: string)
    ensures '_' !in SuggestedCabinetId(path)
  {
    ReplaceCharRemovesAll(ReplaceAll(BaseName(path), ".pdf", ""), '_', '-');
  }

  /** For "dir/stem.pdf", with no separator and no other ".pdf" in the stem,
      the identifier is the stem with each "_" turned into "-", one
      character for one. */
  lemma SuggestedCabinetIdOfPdf(dir: string, sep: char, stem: string)
    requires IsPathSeparator(sep)
    requires forall i :: 0 <= i < |stem| ==> !IsPathSeparator(stem[i])
    requires !Occurs(".pdf", stem)
    ensures |SuggestedCabinetId(dir + [sep] + stem + ".pdf")| == |stem|
    ensures forall i :: 0 <= i < |stem| ==>
              SuggestedCabinetId(dir + [sep] + stem + ".pdf")[i] == if stem[i] == '_' then '-' else stem[i]
  {
    var file := stem + ".pdf";
    assert forall i :: 0 <= i < |file| ==> !IsPathSeparator(file[i]) by {
      forall i | 0 <= i < |file| ensures !IsPathSeparator(file[i]) {
        if i >= |stem| {
          assert file[i] == ".pdf"[i - |stem|];
        }
      }
    }
    assert dir + [sep] + stem + ".pdf" == dir + [sep] + file;
    BaseNameOfJoin(dir, sep, file);
    RemovesPdfExtension(stem);
    ReplaceCharPointwise(stem, '_', '-');
  }

  /** A file called just ".pdf" suggests an empty identifier, with which
      no click is accepted until one is set. */
  lemma BareExtensionGivesEmptyId(dir: string)
    ensures SuggestedCabinetId(dir + "/.pdf") == ""
  {
    BaseNameOfJoin(dir, '/', ".pdf");
    assert dir + ['/'] + ".pdf" == dir + "/.pdf";
    RemovesPdfExtension("");
  }

  /** The file the annotations of a cabinet are saved to. */
  function SnapshotFileName(cabinetId: string): (name: string)
    ensures |name| == |cabinetId| + |"_annotations.json"|
    ensures name[..|cabinetId|] == cabinetId
    ensures name[|cabinetId|..] == "_annotations.json"
  {
    cabinetId + "_annotations.json"
  }

  /** Distinct cabinet identifiers give distinct file names. */
  lemma SnapshotFileNameInjective(a: string, b: string)
    requires SnapshotFileName(a) == SnapshotFileName(b)
    ensures a == b
  {
    assert SnapshotFileName(a)[..|a|] == a;
    assert SnapshotFileName(b)[..|b|] == b;
  }
}
