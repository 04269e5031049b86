/**
 * The shape picker: five built-in shapes, a "custom" button that opens a
 * drawing canvas, and a gallery of the drawings saved so far. Saved drawing
 * i is known to the rest of the designer as the shape id "custom-i".
 *
 * The canvas element is on the page exactly while drawing mode is on, so
 * "there is a canvas" is `drawingMode` here; its drawing context is obtained
 * once the canvas first appears and is kept from then on. Pixels are not
 * modelled: the canvas is represented by the path being drawn, and a
 * saved drawing by the opaque picture string the caller hands in.
 */
module Shapes {
  import opened Text
  import opened Designs
  import Describer

  /** A pointer position relative to the canvas. */
  datatype Point = Point(x: real, y: real)

  /** The id under which saved drawing i is selected. */
  function GalleryId(i: nat): (id: string)
    ensures IsCustomShape(id)
    ensures |id| > |"custom-"|
  {
    "custom-" + NatToString(i)
  }

  /** Different drawings never share an id. */
  lemma GalleryIdsDistinct(i: nat, j: nat)
    ensures GalleryId(i) == GalleryId(j) <==> i == j
  {
    if GalleryId(i) == GalleryId(j) {
      assert NatToString(i) == GalleryId(i)[7..];
      assert NatToString(j) == GalleryId(j)[7..];
      NatToStringInjective(i, j);
    }
  }

  /** A drawing's id is none of the built-in ids nor the drawing button's
      own "custom", and the describer calls it custom-designed. */
  lemma GalleryIdIsCustom(i: nat)
    ensures !IsBuiltInShape(GalleryId(i)) && GalleryId(i) != "custom"
    ensures Describer.ShapeDescription(GalleryId(i)) == "custom-designed"
  {
  }

  class ShapeSelector {
    var isDrawing: bool
    var drawingMode: bool
    var hasContext: bool
    var startPosition: Point
    /** The current canvas path: where the pen went down, then each move. */
    var path: seq<Point>
    /** The saved drawings, in the order they were saved. */
    var customShapes: seq<string>

    /** While the canvas is shown its context has been obtained. */
    predicate Valid()
      reads this
    {
      drawingMode ==> hasContext
    }

    constructor ()
      ensures Valid()
      ensures !isDrawing && !drawingMode && !hasContext
      ensures startPosition == Point(0.0, 0.0) && path == [] && customShapes == []
    {
      isDrawing := false;
      drawingMode := false;
      hasContext := false;
      startPosition := Point(0.0, 0.0);
      path := [];
      customShapes := [];
    }

    /** handleShapeSelect: the "custom" button opens the canvas (a fresh,
        blank one when it was closed) and selects nothing; any other id
        closes it and is passed on, unchanged, as the selected shape. */
    method HandleShapeSelect(shapeId: string) returns (selected: Option<string>)
      requires Valid()
      modifies this
      ensures Valid()
      ensures shapeId == "custom" ==> selected.None? && drawingMode
      ensures shapeId == "custom" && old(drawingMode) ==> path == old(path)
      ensures shapeId == "custom" && !old(drawingMode) ==> path == []
      ensures shapeId != "custom" ==> selected == Some(shapeId) && !drawingMode && path == old(path)
      ensures shapeId != "custom" || old(drawingMode) ==> hasContext == old(hasContext)
      ensures isDrawing == old(isDrawing) && startPosition == old(startPosition)
      ensures customShapes == old(customShapes)
    {
      if shapeId == "custom" {
        if !drawingMode {
          drawingMode := true;
          // the canvas appears: its context is taken and it is painted white
          hasContext := true;
          path := [];
        }
        selected := None;
      } else {
        drawingMode := false;
        selected := Some(shapeId);
      }
    }

    /** startDrawing: only on the open canvas with a context; the pen goes
        down at p and a new path begins there. */
    method StartDrawing(p: Point)
      requires Valid()
      modifies this
      ensures Valid()
      ensures !(old(hasContext) && old(drawingMode)) ==>
                isDrawing == old(isDrawing) && startPosition == old(startPosition) && path == old(path)
      ensures old(hasContext) && old(drawingMode) ==> isDrawing && startPosition == p && path == [p]
      ensures drawingMode == old(drawingMode) && hasContext == old(hasContext)
      ensures customShapes == old(customShapes)
    {
      if !hasContext || !drawingMode {
        return;
      }
      isDrawing := true;
      startPosition := p;
      path := [p];
    }

    /** draw: only while the pen is down on the open canvas; the path is
        extended to p. */
    method Draw(p: Point)
      requires Valid()
      modifies this
      ensures Valid()
      ensures old(isDrawing) && old(hasContext) && old(drawingMode) ==> path == old(path) + [p]
      ensures !(old(isDrawing) && old(hasContext) && old(drawingMode)) ==> path == old(path)
      ensures isDrawing == old(isDrawing) && drawingMode == old(drawingMode) && hasContext == old(hasContext)
      ensures startPosition == old(startPosition) && customShapes == old(customShapes)
    {
      if !isDrawing || !hasContext || !drawingMode {
        return;
      }
      path := path + [p];
    }

    /** stopDrawing: lifts the pen, but only on the open canvas. */
    method StopDrawing()
      requires Valid()
      modifies this
      ensures Valid()
      ensures old(hasContext) && old(drawingMode) ==> !isDrawing
      ensures !(old(hasContext) && old(drawingMode)) ==> isDrawing == old(isDrawing)
      ensures drawingMode == old(drawingMode) && hasContext == old(hasContext)
      ensures path == old(path) && startPosition == old(startPosition) && customShapes == old(customShapes)
    {
      if !hasContext || !drawingMode {
        return;
      }
      isDrawing := false;
    }

    /** saveCustomShape: with the canvas open, the picture is appended to
        the saved drawings, the id of the new entry is passed on as the
        selected shape and the canvas closes; without it nothing happens. */
    method SaveCustomShape(picture: string) returns (selected: Option<string>)
      requires Valid()
      modifies this
      ensures Valid()
      ensures !old(drawingMode) ==> selected.None? && customShapes == old(customShapes) && !drawingMode
      ensures old(drawingMode) ==>
                customShapes == old(customShapes) + [picture]
                && selected == Some(GalleryId(|customShapes| - 1))
                && customShapes[|customShapes| - 1] == picture
                && !drawingMode
      ensures isDrawing == old(isDrawing) && hasContext == old(hasContext)
      ensures path == old(path) && startPosition == old(startPosition)
    {
      if !drawingMode {
        return None;
      }
      var id := "custom-" + NatToString(|customShapes|);
      customShapes := customShapes + [picture];
      selected := Some(id);
      // the canvas is painted white, then closed
      drawingMode := false;
    }

    /** A gallery button: drawing i is selected by its id. */
    method SelectGalleryShape(i: nat) returns (selected: string)
      requires i < |customShapes|
      ensures selected == GalleryId(i)
      ensures IsCustomShape(selected)
      ensures forall j :: 0 <= j < |customShapes| && j != i ==> selected != GalleryId(j)
    {
      selected := "custom-" + NatToString(i);
      forall j | 0 <= j < |customShapes| && j != i
        ensures selected != GalleryId(j)
      {
        GalleryIdsDistinct(i, j);
      }
    }
  }
}
