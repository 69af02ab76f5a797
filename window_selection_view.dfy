/**
 * The window-picking overlay of window capture (WindowSelectionView): it
 * turns the on-screen window list into rectangles the user can tap.
 */
module WindowSelection {
  import opened Wrappers
  import opened Geometry

  /**
   * One entry of the window-info list. Each field is None when the key is
   * missing or its value has another type (a failed `as?` cast).
   */
  datatype WindowInfo = WindowInfo(
    bounds: Option<map<string, real>>,
    ownerName: Option<string>,
    isOnscreen: Option<bool>,
    layer: Option<int>)

  /** The bounds holds all four keys the rectangle is built from. */
  predicate HasBounds(e: WindowInfo)
  {
    e.bounds.Some? && "X" in e.bounds.value && "Y" in e.bounds.value &&
    "Width" in e.bounds.value && "Height" in e.bounds.value
  }

  /**
   * The entry is shown: complete bounds, on screen (a missing flag is false),
   * layer 0 (a missing layer is 0), and not owned by this application. The
   * owner test compares two optionals, so an entry without an owner name is
   * dropped exactly when the bundle name is missing too.
   */
  predicate Keep(e: WindowInfo, bundleName: Option<string>)
  {
    HasBounds(e) &&
    (if e.isOnscreen.Some? then e.isOnscreen.value else false) &&
    (if e.layer.Some? then e.layer.value else 0) == 0 &&
    e.ownerName != bundleName
  }

  /** The rectangle of an entry, built from exactly its four bounds values. */
  function RectOf(e: WindowInfo): (r: Rect)
    requires HasBounds(e)
    ensures r.x == e.bounds.value["X"] && r.y == e.bounds.value["Y"]
    ensures r.width == e.bounds.value["Width"] && r.height == e.bounds.value["Height"]
  {
    var b := e.bounds.value;
    Rect(b["X"], b["Y"], b["Width"], b["Height"])
  }

  /** The compactMap of loadWindows: the rectangles of the kept entries, in list order. */
  function VisibleRects(list: seq<WindowInfo>, bundleName: Option<string>): (r: seq<Rect>)
    ensures |r| <= |list|
  {
    if list == [] then []
    else if Keep(list[0], bundleName) then [RectOf(list[0])] + VisibleRects(list[1..], bundleName)
    else VisibleRects(list[1..], bundleName)
  }

  /** The positions of the kept entries of `list`, numbered from `base`. */
  function KeptFrom(list: seq<WindowInfo>, bundleName: Option<string>, base: nat): (ix: seq<nat>)
  {
    if list == [] then []
    else if Keep(list[0], bundleName) then [base] + KeptFrom(list[1..], bundleName, base + 1)
    else KeptFrom(list[1..], bundleName, base + 1)
  }

  /** The positions of the kept entries of the window list. */
  function KeptIndices(list: seq<WindowInfo>, bundleName: Option<string>): (ix: seq<nat>)
  {
    KeptFrom(list, bundleName, 0)
  }

  /** Kept positions lie in the numbered range and increase. */
  lemma {:induction false} KeptFromIncreasing(list: seq<WindowInfo>, bundleName: Option<string>, base: nat)
    ensures forall k :: 0 <= k < |KeptFrom(list, bundleName, base)| ==>
      base <= KeptFrom(list, bundleName, base)[k] < base + |list|
    ensures forall k, m :: 0 <= k < m < |KeptFrom(list, bundleName, base)| ==>
      KeptFrom(list, bundleName, base)[k] < KeptFrom(list, bundleName, base)[m]
  {
    if list != [] {
      KeptFromIncreasing(list[1..], bundleName, base + 1);
    }
  }

  /** A position is listed exactly when its entry is kept. */
  lemma {:induction false} KeptFromExact(list: seq<WindowInfo>, bundleName: Option<string>, base: nat)
    ensures forall i :: base <= i < base + |list| ==>
      (i in KeptFrom(list, bundleName, base) <==> Keep(list[i - base], bundleName))
  {
    if list != [] {
      var tail := list[1..];
      KeptFromExact(tail, bundleName, base + 1);
      KeptFromIncreasing(tail, bundleName, base + 1);
      var rest := KeptFrom(tail, bundleName, base + 1);
      assert base !in rest;
      forall i | base + 1 <= i < base + |list|
        ensures i in KeptFrom(list, bundleName, base) <==> Keep(list[i - base], bundleName)
      {
        assert list[i - base] == tail[i - (base + 1)];
      }
    }
  }

  /** The k-th rectangle is built from the k-th kept entry. */
  lemma {:induction false} VisibleRectsAt(list: seq<WindowInfo>, bundleName: Option<string>, base: nat)
    ensures |KeptFrom(list, bundleName, base)| == |VisibleRects(list, bundleName)|
    ensures forall k :: 0 <= k < |KeptFrom(list, bundleName, base)| ==>
      base <= KeptFrom(list, bundleName, base)[k] < base + |list| &&
      Keep(list[KeptFrom(list, bundleName, base)[k] - base], bundleName) &&
      VisibleRects(list, bundleName)[k] == RectOf(list[KeptFrom(list, bundleName, base)[k] - base])
  {
    if list != [] {
      var tail := list[1..];
      VisibleRectsAt(tail, bundleName, base + 1);
      var ix := KeptFrom(tail, bundleName, base + 1);
      forall k | 0 <= k < |ix|
        ensures list[ix[k] - base] == tail[ix[k] - (base + 1)]
      {
      }
    }
  }

  /**
   * loadWindows is an order-preserving selection: the kept positions are
   * increasing, a position is listed exactly when its entry is kept, and the
   * k-th rectangle is the one of the k-th kept entry.
   */
  lemma VisibleRectsSelectsInOrder(list: seq<WindowInfo>, bundleName: Option<string>)
    ensures var ix, r := KeptIndices(list, bundleName), VisibleRects(list, bundleName);
      && |ix| == |r|
      && (forall k :: 0 <= k < |ix| ==> ix[k] < |list|)
      && (forall k, m :: 0 <= k < m < |ix| ==> ix[k] < ix[m])
      && (forall i :: 0 <= i < |list| ==> (i in ix <==> Keep(list[i], bundleName)))
      && (forall k :: 0 <= k < |ix| ==> Keep(list[ix[k]], bundleName) && r[k] == RectOf(list[ix[k]]))
  {
    KeptFromIncreasing(list, bundleName, 0);
    KeptFromExact(list, bundleName, 0);
    VisibleRectsAt(list, bundleName, 0);
  }

  /** Entries not kept contribute nothing: the output is as long as the kept part. */
  lemma {:induction false} VisibleRectsAllKept(list: seq<WindowInfo>, bundleName: Option<string>)
    requires forall i :: 0 <= i < |list| ==> Keep(list[i], bundleName)
    ensures |VisibleRects(list, bundleName)| == |list|
  {
    if list != [] {
      VisibleRectsAllKept(list[1..], bundleName);
    }
  }

  /** The state of one WindowSelectionView. */
  class WindowSelectionView {
    var windowRects: seq<Rect>
    var selectedWindowRect: Option<Rect>

    constructor ()
      ensures windowRects == [] && selectedWindowRect == None
    {
      windowRects, selectedWindowRect := [], None;
    }

    /**
     * loadWindows, run when the view appears. `windowList` is the window-info
     * list the system returned (None when it is unavailable); `bundleName` is
     * this application's bundle name, if it has one.
     */
    method LoadWindows(windowList: Option<seq<WindowInfo>>, bundleName: Option<string>)
      modifies this`windowRects
      ensures windowList == None ==> windowRects == old(windowRects)
      ensures windowList != None ==> windowRects == VisibleRects(windowList.value, bundleName)
    {
      if windowList == None {
        return;
      }
      windowRects := VisibleRects(windowList.value, bundleName);
    }

    /** A tap on the background: no window is selected. */
    method TapBackground() returns (reported: Option<Rect>)
      ensures reported == None
    {
      reported := None;
    }

    /** A tap on the highlight drawn for windowRects[index]. */
    method TapWindow(index: nat) returns (reported: Option<Rect>)
      requires index < |windowRects|
      modifies this`selectedWindowRect
      ensures selectedWindowRect == Some(windowRects[index])
      ensures reported == Some(windowRects[index])
    {
      var rect := windowRects[index];
      selectedWindowRect := Some(rect);
      reported := Some(rect);
    }
  }
}
