/** The inspection session: the loaded document, the page shown, the zoom,
    the cabinet identifier, the annotations made so far, and the rows of
    the inspection workbook.

    Dialog answers, the outcome of opening a file or writing the workbook,
    clock readings and the login name are parameters: an empty answer
    stands for a cancelled dialog. */
module Inspector {
  import opened Geometry
  import opened Records

  /** An opened document; only its number of pages matters here. */
  datatype Document = Document(pageCount: nat)

  /** What a right click leads to: a warning when nothing can be annotated
      yet, nothing when the name dialog is cancelled, or the error menu,
      whose every entry logs the defect at the clicked page point under the
      given component name. */
  datatype RightClick =
    | NotReady
    | Cancelled
    | MenuShown(x: real, y: real, componentName: string)

  class CircuitInspector {
    var document: Option<Document>
    var currentPage: nat
    var cabinetId: string
    var annotations: seq<Annotation>
    /** The zoom level in quarters: 4 is 1.0. */
    var zoomQuarters: int
    /** The rows of the inspection workbook's sheet. */
    var log: seq<seq<Cell>>

    /** Whether a document counts as loaded: the session object is truthy,
        and a document's truth value is whether it has pages. */
    predicate HasDocument()
      reads this
      ensures HasDocument() <==> PageCount() > 0
    {
      document.Some? && document.value.pageCount > 0
    }

    function PageCount(): nat
      reads this
    {
      if document.Some? then document.value.pageCount else 0
    }

    /** The session invariant: the zoom stays within [0.5, 3.0], the page
        shown exists (or is 0 with nothing loaded), and every annotation
        is on a page of the loaded document. */
    ghost predicate Valid()
      reads this
    {
      && MinZoom <= zoomQuarters <= MaxZoom
      && (HasDocument() ==> currentPage < PageCount())
      && (!HasDocument() ==> currentPage == 0)
      && forall i :: 0 <= i < |annotations| ==> annotations[i].page < PageCount()
    }

    /** The markers drawn over the page shown. */
    function Visible(): seq<Marker>
      reads this
      requires Valid()
    {
      if HasDocument() then Drawn(OnPage(annotations, currentPage), zoomQuarters) else []
    }

    /** A new session. The workbook gets a header row when it did not exist. */
    constructor (existingLog: Option<seq<seq<Cell>>>)
      ensures Valid()
      ensures document == None && currentPage == 0 && cabinetId == []
      ensures annotations == [] && zoomQuarters == InitialZoom
      ensures log == if existingLog.Some? then existingLog.value else [Header]
    {
      document := None;
      currentPage := 0;
      cabinetId := "";
      annotations := [];
      zoomQuarters := InitialZoom;
      log := if existingLog.Some? then existingLog.value else [Header];
    }

    /** Loads the file at `path` (empty when the file dialog was cancelled);
        `openResult` is the document when opening it succeeds. A load resets
        the page, the annotations and the zoom, and suggests a cabinet
        identifier from the file name; otherwise nothing changes. */
    method LoadPdf(path: string, openResult: Option<Document>)
      requires Valid()
      modifies this
      ensures Valid()
      ensures path != [] && openResult.Some? ==>
        && document == openResult && currentPage == 0 && annotations == []
        && zoomQuarters == InitialZoom && cabinetId == SuggestedCabinetId(path)
        && log == old(log)
      ensures path == [] || openResult.None? ==>
        && document == old(document) && currentPage == old(currentPage)
        && annotations == old(annotations) && zoomQuarters == old(zoomQuarters)
        && cabinetId == old(cabinetId) && log == old(log)
    {
      if path != [] {
        if openResult.Some? {
          document := openResult;
          currentPage := 0;
          annotations := [];
          zoomQuarters := InitialZoom;
          cabinetId := SuggestedCabinetId(path);
        }
      }
    }

    /** Replaces the cabinet identifier unless the dialog was cancelled. */
    method SetCabinetId(answer: string)
      requires Valid()
      modifies this`cabinetId
      ensures Valid()
      ensures cabinetId == if answer != [] then answer else old(cabinetId)
    {
      if answer != [] {
        cabinetId := answer;
      }
    }

    /** Shows the previous page, if there is one. */
    method PrevPage()
      requires Valid()
      modifies this`currentPage
      ensures Valid()
      ensures old(HasDocument()) && old(currentPage) > 0 ==> currentPage == old(currentPage) - 1
      ensures !(old(HasDocument()) && old(currentPage) > 0) ==> currentPage == old(currentPage)
    {
      if HasDocument() && currentPage > 0 {
        currentPage := currentPage - 1;
      }
    }

    /** Shows the next page, if there is one. */
    method NextPage()
      requires Valid()
      modifies this`currentPage
      ensures Valid()
      ensures old(HasDocument()) && old(currentPage) < PageCount() - 1 ==> currentPage == old(currentPage) + 1
      ensures !(old(HasDocument()) && old(currentPage) < PageCount() - 1) ==> currentPage == old(currentPage)
    {
      if HasDocument() && currentPage < PageCount() - 1 {
        currentPage := currentPage + 1;
      }
    }

    method ZoomIn()
      requires Valid()
      modifies this`zoomQuarters
      ensures Valid()
      ensures zoomQuarters == ZoomedIn(old(zoomQuarters))
    {
      if ZoomLevel(zoomQuarters) < 3.0 {
        zoomQuarters := zoomQuarters + 1;
      }
    }

    method ZoomOut()
      requires Valid()
      modifies this`zoomQuarters
      ensures Valid()
      ensures zoomQuarters == ZoomedOut(old(zoomQuarters))
    {
      if ZoomLevel(zoomQuarters) > 0.5 {
        zoomQuarters := zoomQuarters - 1;
      }
    }

    /** The markers to draw for the page shown: one per annotation of that
        page, in the order the annotations were made. */
    method DisplayPage() returns (markers: seq<Marker>)
      requires Valid()
      ensures markers == Visible()
    {
      markers := [];
      if !HasDocument() {
        return;
      }
      var page, quarters := currentPage, zoomQuarters;
      for i := 0 to |annotations|
        invariant markers == Drawn(OnPage(annotations[..i], page), quarters)
      {
        var ann := annotations[i];
        assert annotations[..i + 1] == annotations[..i] + [ann];
        DrawnOnPageAppend(annotations[..i], ann, page, quarters);
        if ann.page == page {
          markers := markers + [MarkerFor(ann, quarters)];
        }
      }
      assert annotations[..|annotations|] == annotations;
    }

    /** A left click marks the clicked point of the page shown as checked,
        once a document is loaded and a cabinet identifier is set. */
    method OnLeftClick(canvasX: real, canvasY: real, timestamp: string)
      requires Valid()
      modifies this`annotations
      ensures Valid()
      ensures !old(HasDocument()) || old(cabinetId) == [] ==> annotations == old(annotations)
      ensures old(HasDocument()) && old(cabinetId) != [] ==>
        annotations == old(annotations) + [Annotation(Ok, currentPage,
          CanvasToPage(canvasX, zoomQuarters), CanvasToPage(canvasY, zoomQuarters), timestamp)]
      ensures old(HasDocument()) && old(cabinetId) != [] ==>
        Visible() == old(Visible()) + [MarkerFor(annotations[|annotations| - 1], zoomQuarters)]
    {
      if !HasDocument() || cabinetId == [] {
        return;
      }
      var x := CanvasToPage(canvasX, zoomQuarters);
      var y := CanvasToPage(canvasY, zoomQuarters);
      var ann := Annotation(Ok, currentPage, x, y, timestamp);
      DrawnOnPageAppend(annotations, ann, currentPage, zoomQuarters);
      annotations := annotations + [ann];
    }

    /** A right click: the page point clicked and the component name the
        error menu will log under. Nothing changes. */
    method OnRightClick(canvasX: real, canvasY: real, componentName: string) returns (outcome: RightClick)
      requires Valid()
      ensures outcome.NotReady? <==> !HasDocument() || cabinetId == []
      ensures outcome.Cancelled? <==> HasDocument() && cabinetId != [] && componentName == []
      ensures outcome.MenuShown? ==>
        && outcome.componentName == componentName
        && outcome.x * (RenderScale * ZoomLevel(zoomQuarters)) == canvasX
        && outcome.y * (RenderScale * ZoomLevel(zoomQuarters)) == canvasY
    {
      if !HasDocument() || cabinetId == [] {
        return NotReady;
      }
      var x := CanvasToPage(canvasX, zoomQuarters);
      var y := CanvasToPage(canvasY, zoomQuarters);
      if componentName == [] {
        return Cancelled;
      }
      outcome := MenuShown(x, y, componentName);
    }

    /** Logs a defect chosen from the error menu: the annotation is added
        first; the workbook row follows only when the workbook can be read
        and written (`workbookWritable`), and a failure there does not take
        the annotation back. */
    method LogError(componentType: string, errorDescription: string, x: real, y: real,
                    componentName: string, annotationTime: string, rowTime: string,
                    inspector: string, workbookWritable: bool) returns (logged: bool)
      requires Valid()
      requires HasDocument()
      modifies this`annotations, this`log
      ensures Valid()
      ensures annotations == old(annotations) + [Annotation(
        Error(componentType, componentName, errorDescription), currentPage, x, y, annotationTime)]
      ensures logged == workbookWritable
      ensures log == old(log) + if logged then [LogRow(rowTime, cabinetId, currentPage, componentType,
        DetailedError(componentName, errorDescription), inspector)] else []
    {
      var detailed := DetailedError(componentName, errorDescription);
      annotations := annotations + [Annotation(
        Error(componentType, componentName, errorDescription), currentPage, x, y, annotationTime)];
      if !workbookWritable {
        return false;
      }
      log := log + [LogRow(rowTime, cabinetId, currentPage, componentType, detailed, inspector)];
      logged := true;
    }

    /** Saving the annotations needs a cabinet identifier; the file is named
        after it. Nothing in the session changes. */
    method SaveAnnotations() returns (file: Option<string>, contents: seq<Annotation>)
      ensures file.Some? <==> cabinetId != []
      ensures file.Some? ==> file.value == SnapshotFileName(cabinetId) && contents == annotations
    {
      if cabinetId == [] {
        return None, [];
      }
      file := Some(SnapshotFileName(cabinetId));
      contents := annotations;
    }
  }
}
