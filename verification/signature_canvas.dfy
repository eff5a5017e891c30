/**
 * The freehand signature pad. The drawing context keeps one path, the points
 * since the last pointer-down; every pointer move extends the path and strokes
 * the whole of it again. The picture is kept abstractly as the set of line
 * segments painted since the last clear. Two flags track whether a stroke is
 * in progress and whether the pad counts as empty.
 */
module SignatureCanvas {
  import opened Wrappers
  import opened Text

  /** A pixel offset within the pad. */
  datatype Point = Point(x: real, y: real)

  /** A straight line painted between two points of the path. */
  datatype Segment = Segment(from: Point, to: Point)

  /** What the pad hands over on save: the trimmed name and the picture. */
  datatype Capture = Capture(name: string, signature: set<Segment>)

  /** The segments a `stroke()` of `path` paints: one line between each pair of
      consecutive points. A path of one point (a `moveTo` alone) paints nothing. */
  function PathSegments(path: seq<Point>): (r: set<Segment>)
    ensures forall i :: 0 <= i < |path| - 1 ==> Segment(path[i], path[i + 1]) in r
    ensures |path| < 2 ==> r == {}
  {
    if |path| < 2 then {}
    else PathSegments(path[..|path| - 1]) + {Segment(path[|path| - 2], path[|path| - 1])}
  }

  /** `g` joins the points at positions `i` and `i + 1` of `path`. */
  predicate StepAt(path: seq<Point>, g: Segment, i: int) {
    0 <= i < |path| - 1 && g == Segment(path[i], path[i + 1])
  }

  /** A stroke paints nothing but lines between consecutive points of the path. */
  lemma {:induction false} PathSegmentsAreSteps(path: seq<Point>)
    ensures forall g :: g in PathSegments(path) <==> exists i :: StepAt(path, g, i)
  {
    forall g | g in PathSegments(path) ensures exists i :: StepAt(path, g, i) {
      if |path| >= 2 {
        var prefix := path[..|path| - 1];
        if g in PathSegments(prefix) {
          PathSegmentsAreSteps(prefix);
          var i :| StepAt(prefix, g, i);
          assert StepAt(path, g, i);
        } else {
          assert StepAt(path, g, |path| - 2);
        }
      }
    }
    forall g | exists i :: StepAt(path, g, i) ensures g in PathSegments(path) {
      var i :| StepAt(path, g, i);
    }
  }

  /** Extending a path by one point adds exactly the line from its last point. */
  lemma PathSegmentsExtend(path: seq<Point>, p: Point)
    requires path != []
    ensures PathSegments(path + [p]) == PathSegments(path) + {Segment(path[|path| - 1], p)}
  {
    assert (path + [p])[..|path|] == path;
  }

  class SignaturePad {
    /** The "Your Full Name" field. */
    var name: string
    var isDrawing: bool
    var isEmpty: bool
    /** Whether a 2D drawing context was obtained when the pad was mounted. */
    const hasContext: bool
    /** The picture: every segment painted since the last clear. */
    var picture: set<Segment>
    /** The drawing context's current path: the points since the last `beginPath`. */
    var path: seq<Point>

    /** A fresh pad: no name, empty, not drawing, nothing painted, no path. */
    constructor (hasContext: bool)
      ensures this.hasContext == hasContext
      ensures name == "" && !isDrawing && isEmpty && picture == {} && path == []
    {
      this.hasContext := hasContext;
      name := "";
      isDrawing := false;
      isEmpty := true;
      picture := {};
      path := [];
    }

    /** Typing in the name field. */
    method SetName(s: string)
      modifies this
      ensures name == s
      ensures isDrawing == old(isDrawing) && isEmpty == old(isEmpty)
      ensures picture == old(picture) && path == old(path)
    {
      name := s;
    }

    /** Pointer down at `p`: marks the pad non-empty, before anything is drawn,
        and starts a new path at `p`; without a context nothing happens. */
    method StartDrawing(p: Point)
      modifies this
      ensures hasContext ==> isDrawing && !isEmpty && path == [p]
      ensures !hasContext ==> isDrawing == old(isDrawing) && isEmpty == old(isEmpty) && path == old(path)
      ensures picture == old(picture) && name == old(name)
    {
      if !hasContext {
        return;
      }
      isDrawing := true;
      isEmpty := false;
      path := [p];
    }

    /** Pointer move to `p`: while a stroke is in progress, extends the path to
        `p` and strokes the whole path, so every segment of the path is painted
        again; when the path was already on the picture, that adds just the one
        line to `p`. Otherwise nothing changes. */
    method Draw(p: Point)
      modifies this
      ensures isDrawing && hasContext ==>
        path == old(path) + [p] && picture == old(picture) + PathSegments(path)
      ensures isDrawing && hasContext && old(path) != [] && PathSegments(old(path)) <= old(picture) ==>
        picture == old(picture) + {Segment(old(path)[|old(path)| - 1], p)}
      ensures !(isDrawing && hasContext) ==> path == old(path) && picture == old(picture)
      ensures isDrawing == old(isDrawing) && isEmpty == old(isEmpty) && name == old(name)
    {
      if !isDrawing || !hasContext {
        return;
      }
      if path != [] {
        PathSegmentsExtend(path, p);
      }
      path := path + [p];
      picture := picture + PathSegments(path);
    }

    /** Pointer up, and pointer leaving the pad: the stroke ends. The closing of
        the path is never painted, since the next stroke starts a new path. */
    method EndDrawing()
      modifies this
      ensures hasContext ==> !isDrawing
      ensures !hasContext ==> isDrawing == old(isDrawing)
      ensures isEmpty == old(isEmpty) && picture == old(picture) && path == old(path) && name == old(name)
    {
      if !hasContext {
        return;
      }
      isDrawing := false;
    }

    /** "Clear": erases the picture and marks the pad empty. It leaves a stroke
        in progress, and the context's path, as they were. */
    method Clear()
      modifies this
      ensures hasContext ==> isEmpty && picture == {}
      ensures !hasContext ==> isEmpty == old(isEmpty) && picture == old(picture)
      ensures isDrawing == old(isDrawing) && path == old(path) && name == old(name)
    {
      if !hasContext {
        return;
      }
      picture := {};
      isEmpty := true;
    }

    /** The "Apply Signature" button is enabled: not `isEmpty || !name.trim()`. */
    predicate ApplyEnabled()
      reads this
      ensures ApplyEnabled() <==> !isEmpty && !IsBlank(name)
    {
      !(isEmpty || Trim(name) == [])
    }

    /** "Apply Signature": refused while the pad is empty or the name is blank;
        otherwise hands over the trimmed name and the picture. */
    method Save() returns (capture: Option<Capture>)
      ensures capture.Some? <==> !isEmpty && !IsBlank(name)
      ensures capture.Some? <==> ApplyEnabled()
      ensures capture.Some? ==> capture.value == Capture(Trim(name), picture)
    {
      if isEmpty || Trim(name) == [] {
        return None;
      }
      return Some(Capture(Trim(name), picture));
    }
  }

  /** A press, one move and a release with a name typed yields a capture with
      that one segment; clearing afterwards makes the pad refuse to save. */
  method SignOnce() returns (first: Option<Capture>, afterClear: Option<Capture>)
    ensures first == Some(Capture("Jane Doe", {Segment(Point(1.0, 1.0), Point(5.0, 2.0))}))
    ensures afterClear == None
  {
    var pad := new SignaturePad(true);
    pad.SetName("Jane Doe");
    pad.StartDrawing(Point(1.0, 1.0));
    pad.Draw(Point(5.0, 2.0));
    pad.EndDrawing();
    TrimUnchanged("Jane Doe");
    first := pad.Save();
    pad.Clear();
    afterClear := pad.Save();
  }

  /** A press and release without any movement draws nothing, yet the pad no
      longer counts as empty and saving is allowed. */
  method ClickWithoutMoving() returns (capture: Option<Capture>)
    ensures capture == Some(Capture("Jane Doe", {}))
  {
    var pad := new SignaturePad(true);
    pad.SetName("Jane Doe");
    pad.StartDrawing(Point(3.0, 3.0));
    pad.EndDrawing();
    TrimUnchanged("Jane Doe");
    capture := pad.Save();
  }

  /** "Clear" in the middle of a stroke: the next move strokes the whole path
      again, so the line drawn before the clear comes back, while the pad
      counts as empty: saving is refused and the "Clear" button, disabled while
      the pad is empty, can no longer erase the line. */
  method ClearMidStroke() returns (picture: set<Segment>, capture: Option<Capture>, clearEnabled: bool)
    ensures picture == {Segment(Point(0.0, 0.0), Point(1.0, 1.0)), Segment(Point(1.0, 1.0), Point(2.0, 0.0))}
    ensures capture == None && !clearEnabled
  {
    var pad := new SignaturePad(true);
    pad.SetName("Jane Doe");
    pad.StartDrawing(Point(0.0, 0.0));
    pad.Draw(Point(1.0, 1.0));
    pad.Clear();
    pad.Draw(Point(2.0, 0.0));
    picture := pad.picture;
    capture := pad.Save();
    clearEnabled := !pad.isEmpty;
  }
}
