/**
 * The signature-position editor: a preview surface on which a click, while the
 * "placing" toggle is on, drops a marker at the click's position as fractions
 * of the surface's width and height, tagged with the current page.
 */
module SignatureMarker {
  import opened Wrappers
  import opened Seqs

  /** A signature position: fractions of the surface's width and height, and a 1-based page. */
  datatype Marker = Marker(x: real, y: real, page: int)

  /** Zoom is kept in tenths: 0.5 to 2.0 in steps of 0.1, starting at 1.0. */
  const MinScale: int := 5
  const MaxScale: int := 20
  const InitialScale: int := 10

  /** A pixel offset as a fraction of the surface's extent along that axis. */
  function Normalize(offset: real, extent: real): (r: real)
    requires extent > 0.0
    ensures r * extent == offset
    ensures 0.0 <= offset <= extent ==> 0.0 <= r <= 1.0
  {
    offset / extent
  }

  /** A click at (150, 300) on a 300 by 600 surface lands at the centre of the
      page. */
  lemma CentreClick()
    ensures Normalize(150.0, 300.0) == 0.5 && Normalize(300.0, 600.0) == 0.5
  {
  }

  /** `Math.min(scale + 0.1, 2)`, in tenths. */
  function ZoomedIn(scale: int): (r: int)
    ensures r <= MaxScale
    ensures scale < MaxScale ==> r == scale + 1
    ensures scale >= MaxScale ==> r == MaxScale
  {
    if scale + 1 < MaxScale then scale + 1 else MaxScale
  }

  /** `Math.max(scale - 0.1, 0.5)`, in tenths. */
  function ZoomedOut(scale: int): (r: int)
    ensures r >= MinScale
    ensures scale > MinScale ==> r == scale - 1
    ensures scale <= MinScale ==> r == MinScale
  {
    if scale - 1 > MinScale then scale - 1 else MinScale
  }

  /** Zooming out undoes zooming in, and the reverse, away from the bounds. */
  lemma ZoomRoundTrip(scale: int)
    requires MinScale <= scale <= MaxScale
    ensures scale < MaxScale ==> ZoomedOut(ZoomedIn(scale)) == scale
    ensures scale > MinScale ==> ZoomedIn(ZoomedOut(scale)) == scale
    ensures MinScale <= ZoomedIn(scale) <= MaxScale && MinScale <= ZoomedOut(scale) <= MaxScale
  {
  }

  /** The markers drawn on the preview of `page`: those tagged with it, each as
      often as it occurs in the list, in list order. */
  function OnPage(markers: seq<Marker>, page: int): (r: seq<Marker>)
    ensures forall i :: 0 <= i < |r| ==> r[i] in markers && r[i].page == page
    ensures forall i :: 0 <= i < |markers| && markers[i].page == page ==> markers[i] in r
    ensures forall i :: 0 <= i < |markers| ==>
      multiset(r)[markers[i]] == if markers[i].page == page then multiset(markers)[markers[i]] else 0
    ensures IsSubsequence(r, markers)
  {
    FilterIsSubsequence(markers, (m: Marker) => m.page == page);
    Filter(markers, (m: Marker) => m.page == page)
  }

  /** Every marker is tagged with `page`. */
  predicate AllOnPage(markers: seq<Marker>, page: int) {
    forall i :: 0 <= i < |markers| ==> markers[i].page == page
  }

  /** When every marker is on the shown page, the drawn list is the whole list,
      so the position of a marker on screen is its position in the list. */
  lemma OnPageIsAllWhenAllOnPage(markers: seq<Marker>, page: int)
    requires AllOnPage(markers, page)
    ensures OnPage(markers, page) == markers
  {
    FilterKeepsAll(markers, (m: Marker) => m.page == page);
  }

  /** With markers on two pages the two positions disagree: on page 2 the first
      drawn marker is `b`, but removing position 0 of the whole list deletes `a`. */
  lemma RemovalByScreenPositionOnLaterPage()
    ensures var a, b := Marker(0.1, 0.1, 1), Marker(0.9, 0.9, 2);
            OnPage([a, b], 2) == [b] && WithoutIndex([a, b], 0) == [b]
  {
    var a, b := Marker(0.1, 0.1, 1), Marker(0.9, 0.9, 2);
    var onTwo := (m: Marker) => m.page == 2;
    assert [a, b][1..] == [b] && [b][1..] == [];
    assert Filter([b], onTwo) == [b];
    assert Filter([a, b], onTwo) == Filter([b], onTwo);
    WithoutIndexRemovesOne([a, b], 0);
  }

  /** The editor's state: the markers, the page cursor, the placing toggle and the zoom. */
  class MarkerEditor {
    var markers: seq<Marker>
    var currentPage: int
    /** Never changes after construction: the component never sets it. */
    const totalPages: int
    var isPlacingMarker: bool
    /** In tenths. */
    var scale: int

    /** The page cursor is a page of the document, the zoom within its bounds,
        and every marker is tagged with a page of the document. */
    ghost predicate Valid()
      reads this
    {
      && 1 <= currentPage <= totalPages
      && MinScale <= scale <= MaxScale
      && forall i :: 0 <= i < |markers| ==> 1 <= markers[i].page <= totalPages
    }

    /** No markers, page 1 of 1, not placing, zoom 1.0. */
    constructor ()
      ensures Valid()
      ensures markers == [] && currentPage == 1 && totalPages == 1
      ensures !isPlacingMarker && scale == InitialScale
    {
      markers := [];
      currentPage := 1;
      totalPages := 1;
      isPlacingMarker := false;
      scale := InitialScale;
    }

    /** The "Add Signature Marker" button flips the placing toggle. */
    method TogglePlacing()
      requires Valid()
      modifies this
      ensures Valid()
      ensures isPlacingMarker == !old(isPlacingMarker)
      ensures markers == old(markers) && currentPage == old(currentPage) && scale == old(scale)
    {
      isPlacingMarker := !isPlacingMarker;
    }

    /** A click on the preview surface at pixel offset (offsetX, offsetY) of a
        width by height surface; `mounted` says whether the surface element exists.
        Only while placing: appends one marker for the current page and stops placing. */
    method AddMarker(mounted: bool, offsetX: real, offsetY: real, width: real, height: real)
      returns (added: bool)
      requires Valid()
      requires width > 0.0 && height > 0.0
      modifies this
      ensures Valid()
      ensures added <==> old(isPlacingMarker) && mounted
      ensures added ==> && markers == old(markers) + [Marker(Normalize(offsetX, width), Normalize(offsetY, height), currentPage)]
                        && !isPlacingMarker
      ensures !added ==> markers == old(markers) && isPlacingMarker == old(isPlacingMarker)
      ensures added && 0.0 <= offsetX <= width && 0.0 <= offsetY <= height ==>
                0.0 <= markers[|markers| - 1].x <= 1.0 && 0.0 <= markers[|markers| - 1].y <= 1.0
      ensures currentPage == old(currentPage) && scale == old(scale)
    {
      if !isPlacingMarker || !mounted {
        return false;
      }
      var x := Normalize(offsetX, width);
      var y := Normalize(offsetY, height);
      markers := markers + [Marker(x, y, currentPage)];
      isPlacingMarker := false;
      added := true;
    }

    /** Removes position `index` of the whole marker list. */
    method RemoveMarker(index: int)
      requires Valid()
      modifies this
      ensures Valid()
      ensures markers == WithoutIndex(old(markers), index)
      ensures markers == if 0 <= index < |old(markers)| then old(markers[..index] + markers[index + 1..]) else old(markers)
      ensures isPlacingMarker == old(isPlacingMarker) && currentPage == old(currentPage) && scale == old(scale)
    {
      WithoutIndexRemovesOne(markers, index);
      markers := WithoutIndex(markers, index);
    }

    /** A click on the marker drawn at `screenIndex` among the current page's
        markers. The click does not reach the surface, so it never adds a marker
        and leaves the toggle as it was; the screen position is used as a
        position in the whole list. While the document has one page every
        marker is on the shown page, and the marker clicked is the one removed. */
    method ClickMarker(screenIndex: nat)
      requires Valid()
      requires screenIndex < |OnPage(markers, currentPage)|
      modifies this
      ensures Valid()
      ensures markers == WithoutIndex(old(markers), screenIndex)
      ensures isPlacingMarker == old(isPlacingMarker) && currentPage == old(currentPage) && scale == old(scale)
      ensures totalPages == 1 ==>
                && screenIndex < |old(markers)|
                && old(OnPage(markers, currentPage))[screenIndex] == old(markers)[screenIndex]
                && markers == old(markers)[..screenIndex] + old(markers)[screenIndex + 1..]
    {
      if totalPages == 1 {
        OnPageIsAllWhenAllOnPage(markers, currentPage);
      }
      RemoveMarker(screenIndex);
    }

    /** "Save Signature Positions": refused with no markers, otherwise hands over the list as held. */
    method Save() returns (saved: Option<seq<Marker>>)
      ensures saved.None? <==> markers == []
      ensures saved.Some? ==> saved.value == markers
    {
      if |markers| == 0 {
        return None;
      }
      return Some(markers);
    }

    /** Next page; nothing at the last page. */
    method IncrementPage()
      requires Valid()
      modifies this
      ensures Valid()
      ensures currentPage == if old(currentPage) < totalPages then old(currentPage) + 1 else old(currentPage)
      ensures markers == old(markers) && isPlacingMarker == old(isPlacingMarker) && scale == old(scale)
    {
      if currentPage < totalPages {
        currentPage := currentPage + 1;
      }
    }

    /** Previous page; nothing at page 1. */
    method DecrementPage()
      requires Valid()
      modifies this
      ensures Valid()
      ensures currentPage == if old(currentPage) > 1 then old(currentPage) - 1 else old(currentPage)
      ensures markers == old(markers) && isPlacingMarker == old(isPlacingMarker) && scale == old(scale)
    {
      if currentPage > 1 {
        currentPage := currentPage - 1;
      }
    }

    /** One step of zoom in, stopping at 2.0. */
    method ZoomIn()
      requires Valid()
      modifies this
      ensures Valid()
      ensures scale == ZoomedIn(old(scale))
      ensures markers == old(markers) && isPlacingMarker == old(isPlacingMarker) && currentPage == old(currentPage)
    {
      scale := ZoomedIn(scale);
    }

    /** One step of zoom out, stopping at 0.5. */
    method ZoomOut()
      requires Valid()
      modifies this
      ensures Valid()
      ensures scale == ZoomedOut(old(scale))
      ensures markers == old(markers) && isPlacingMarker == old(isPlacingMarker) && currentPage == old(currentPage)
    {
      scale := ZoomedOut(scale);
    }
  }

  /** Toggling, clicking at the centre and saving yields exactly one centred marker on page 1. */
  method PlaceOneMarker() returns (saved: Option<seq<Marker>>)
    ensures saved == Some([Marker(0.5, 0.5, 1)])
  {
    var editor := new MarkerEditor();
    editor.TogglePlacing();
    var added := editor.AddMarker(true, 150.0, 300.0, 300.0, 600.0);
    CentreClick();
    assert editor.markers == [Marker(0.5, 0.5, 1)];
    saved := editor.Save();
  }
}
