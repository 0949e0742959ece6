/**
 * The camera grid of the stitching application. Each canvas shows one camera
 * and has a dropdown of camera names. When any selection changes, every
 * dropdown is refilled with the cameras no canvas has selected, plus the
 * canvas's own selection. Capture devices and widgets are left out. A
 * dropdown is the state of its `QComboBox`, and a device probe is a
 * predicate over device numbers.
 */
module VideoDisplay {
  import opened Common

  // ------------------------------------------------------------- dropdowns

  /** The state of a non-editable `QComboBox`: its items and its current index (-1 for none). */
  datatype Dropdown = Dropdown(items: seq<string>, currentIndex: int)

  /** `currentText()`: the current item, or the empty string when there is none. */
  function CurrentText(d: Dropdown): (t: string)
    ensures 0 <= d.currentIndex < |d.items| ==> t == d.items[d.currentIndex]
    ensures !(0 <= d.currentIndex < |d.items|) ==> t == ""
  {
    if 0 <= d.currentIndex < |d.items| then d.items[d.currentIndex] else ""
  }

  /** `clear()`: no items, no current item. */
  function Cleared(d: Dropdown): (r: Dropdown)
    ensures r.items == [] && CurrentText(r) == ""
  {
    Dropdown([], -1)
  }

  /** `addItems(xs)`: appended in order; adding to an empty box makes the first new item current. */
  function WithItems(d: Dropdown, xs: seq<string>): (r: Dropdown)
    ensures r.items == d.items + xs
    ensures d.items == [] && xs != [] ==> CurrentText(r) == xs[0]
  {
    Dropdown(d.items + xs, if d.items == [] && xs != [] then 0 else d.currentIndex)
  }

  /** `findText(t)`: the first index holding `t`, or -1. */
  function FindText(items: seq<string>, t: string): (i: int)
    ensures -1 <= i < |items|
    ensures i == -1 <==> t !in items
    ensures i >= 0 ==> items[i] == t && t !in items[..i]
  {
    if items == [] then -1
    else if items[0] == t then 0
    else
      var j := FindText(items[1..], t);
      assert items[1..][..(if j >= 0 then j else 0)] == items[1..(if j >= 0 then j + 1 else 1)];
      if j == -1 then -1 else j + 1
  }

  /** `setCurrentText(t)` on a non-editable box: selects the first item equal to `t`, if any. */
  function WithCurrentText(d: Dropdown, t: string): (r: Dropdown)
    ensures r.items == d.items
    ensures t in d.items ==> CurrentText(r) == t
    ensures t !in d.items ==> r == d
  {
    var i := FindText(d.items, t);
    if i >= 0 then d.(currentIndex := i) else d
  }

  /** `setCurrentIndex(i)`: an index outside the items leaves no current item. */
  function WithCurrentIndex(d: Dropdown, i: int): (r: Dropdown)
    ensures r.items == d.items
    ensures 0 <= i < |d.items| ==> CurrentText(r) == d.items[i]
  {
    d.(currentIndex := if 0 <= i < |d.items| then i else -1)
  }

  // ------------------------------------------------------ the camera filter

  /**
   * `[camera for camera in all_cameras if camera not in selected_cameras or
   * camera == previous_selection]`.
   */
  function Available(all: seq<string>, selected: seq<string>, previous: string): (r: seq<string>)
    ensures |r| <= |all|
  {
    if all == [] then []
    else
      var rest := Available(all[1..], selected, previous);
      if all[0] !in selected || all[0] == previous then [all[0]] + rest else rest
  }

  /** `xs` is `ys` with some elements left out, the rest in their order. */
  predicate IsSubsequence(xs: seq<string>, ys: seq<string>)
    decreases |ys|
  {
    if xs == [] then true
    else if ys == [] then false
    else if xs[0] == ys[0] then IsSubsequence(xs[1..], ys[1..])
    else IsSubsequence(xs, ys[1..])
  }

  /** A camera is offered exactly when it exists and is free or this canvas's own. */
  lemma {:induction false} AvailableMembership(all: seq<string>, selected: seq<string>, previous: string, c: string)
    ensures c in Available(all, selected, previous) <==> c in all && (c !in selected || c == previous)
  {
    if all != [] {
      AvailableMembership(all[1..], selected, previous, c);
      assert all == [all[0]] + all[1..];
    }
  }

  /** The offered cameras keep the order of `all_cameras`. */
  lemma {:induction false} AvailableIsSubsequence(all: seq<string>, selected: seq<string>, previous: string)
    ensures IsSubsequence(Available(all, selected, previous), all)
  {
    if all != [] {
      var rest := Available(all[1..], selected, previous);
      AvailableIsSubsequence(all[1..], selected, previous);
      if !(all[0] !in selected || all[0] == previous) {
        SkipHead(rest, all);
      }
    }
  }

  /** Dropping the head of the longer list keeps a subsequence a subsequence. */
  lemma {:induction false} SkipHead(xs: seq<string>, ys: seq<string>)
    requires ys != [] && IsSubsequence(xs, ys[1..])
    ensures IsSubsequence(xs, ys)
    decreases |ys|, 1
  {
    if xs != [] && xs[0] == ys[0] {
      SubsequenceOfTail(xs, ys[1..]);
    }
  }

  /** A subsequence of `ys` stays one when its first element is dropped. */
  lemma {:induction false} SubsequenceOfTail(xs: seq<string>, ys: seq<string>)
    requires xs != [] && IsSubsequence(xs, ys)
    ensures IsSubsequence(xs[1..], ys)
    decreases |ys|, 2
  {
    if xs[0] != ys[0] {
      SubsequenceOfTail(xs, ys[1..]);
    }
    SkipHead(xs[1..], ys);
  }

  /**
   * A dropdown refilled by `update_dropdown_options`: cleared, filled with
   * the cameras available to it, and set back to the text it showed before.
   */
  function Repopulated(d: Dropdown, all: seq<string>, selected: seq<string>): (r: Dropdown)
    ensures r.items == Available(all, selected, CurrentText(d))
  {
    var previous := CurrentText(d);
    WithCurrentText(WithItems(Cleared(d), Available(all, selected, previous)), previous)
  }

  /** A canvas whose selection is one of the cameras gets it back as its current camera. */
  lemma RepopulatedKeepsSelection(d: Dropdown, all: seq<string>, selected: seq<string>)
    requires CurrentText(d) in all
    ensures CurrentText(Repopulated(d, all, selected)) == CurrentText(d)
  {
    AvailableMembership(all, selected, CurrentText(d), CurrentText(d));
  }

  /** Another canvas's selection is never offered, unless this canvas has selected it too. */
  lemma RepopulatedHidesOthers(d: Dropdown, all: seq<string>, selected: seq<string>, c: string)
    requires c in selected && c != CurrentText(d)
    ensures c !in Repopulated(d, all, selected).items
  {
    AvailableMembership(all, selected, CurrentText(d), c);
  }

  // ------------------------------------------------------------------- grid

  /** `grid_columns = 3`. */
  const GridColumns: nat := 3

  /** Canvas `idx` sits at row `idx // 3`, column `idx % 3`. */
  function GridCell(idx: nat): (cell: (nat, nat))
    ensures cell.1 < GridColumns
    ensures cell.0 * GridColumns + cell.1 == idx
  {
    (idx / GridColumns, idx % GridColumns)
  }

  /** Distinct canvases get distinct cells. */
  lemma GridCellInjective(i: nat, j: nat)
    requires GridCell(i) == GridCell(j)
    ensures i == j
  {
    assert i == GridCell(i).0 * GridColumns + GridCell(i).1;
    assert j == GridCell(j).0 * GridColumns + GridCell(j).1;
  }

  /** The camera a new canvas starts on: `idx % len(all_cameras)`, always a valid position. */
  function InitialCamera(idx: nat, count: nat): (c: nat)
    requires count > 0
    ensures c < count
    ensures idx < count ==> c == idx
  {
    idx % count
  }

  // --------------------------------------------------------------- devices

  /** `str(i)` for a device number below ten. */
  function DeviceName(i: nat): (s: string)
    requires i < 10
    ensures |s| == 1 && '0' <= s[0] <= '9'
  {
    [('0' as int + i) as char]
  }

  /** Different device numbers have different names. */
  lemma DeviceNamesDistinct(i: nat, j: nat)
    requires i < 10 && j < 10 && i != j
    ensures DeviceName(i) != DeviceName(j)
  {
    assert DeviceName(i)[0] != DeviceName(j)[0];
  }

  /** The names of the devices below `n` that open, in device order. */
  function OpenDevices(n: nat, isOpened: nat -> bool): (r: seq<string>)
    requires n <= 10
    ensures |r| <= n
    ensures forall k :: 0 <= k < |r| ==> |r[k]| == 1
  {
    if n == 0 then []
    else OpenDevices(n - 1, isOpened) + (if isOpened(n - 1) then [DeviceName(n - 1)] else [])
  }

  /** A name is listed exactly when its device opens. */
  lemma {:induction false} OpenDevicesMembership(n: nat, isOpened: nat -> bool, i: nat)
    requires n <= 10 && i < 10
    ensures DeviceName(i) in OpenDevices(n, isOpened) <==> i < n && isOpened(i)
  {
    if n > 0 {
      OpenDevicesMembership(n - 1, isOpened, i);
      if i != n - 1 {
        DeviceNamesDistinct(i, n - 1);
      }
    }
  }

  /** `detect_available_cameras(max_cameras=10)`: probe the devices 0 to 9 in turn. */
  method DetectAvailableCameras(isOpened: nat -> bool) returns (cameras: seq<string>)
    ensures cameras == OpenDevices(10, isOpened)
  {
    cameras := [];
    var i := 0;
    while i < 10
      invariant 0 <= i <= 10
      invariant cameras == OpenDevices(i, isOpened)
    {
      if isOpened(i) {
        cameras := cameras + [DeviceName(i)];
      }
      i := i + 1;
    }
  }

  // ----------------------------------------------------------------- widget

  /** The selection each dropdown shows, canvas by canvas. */
  function Selections(ds: seq<Dropdown>): (s: seq<string>)
    ensures |s| == |ds| && forall i :: 0 <= i < |ds| ==> s[i] == CurrentText(ds[i])
  {
    seq(|ds|, i requires 0 <= i < |ds| => CurrentText(ds[i]))
  }

  /** A canvas as `SingleCameraCanvas.__init__` leaves its dropdown: every camera, the given one current. */
  function NewCanvas(all: seq<string>, cameraIndex: int): (d: Dropdown)
    ensures d.items == all
    ensures 0 <= cameraIndex < |all| ==> CurrentText(d) == all[cameraIndex]
  {
    WithCurrentIndex(WithItems(Dropdown([], -1), all), cameraIndex)
  }

  class VideoDisplayWidget {
    const numCameras: nat
    var allCameras: seq<string>
    /** The canvases' dropdowns, in canvas order. */
    var dropdowns: seq<Dropdown>
    /** The grid cell each canvas was added at. */
    var cells: seq<(nat, nat)>
    /** Set when no camera, or too few, were found and the widget closed itself. */
    var closed: bool

    /**
     * `__init__`: probe the cameras. With fewer than requested, close before
     * building any canvas; otherwise build the grid. Finding no camera at all
     * also closes the widget; when none was requested, the empty grid is still built.
     */
    constructor (num: nat, isOpened: nat -> bool)
      ensures numCameras == num && allCameras == OpenDevices(10, isOpened)
      ensures closed <==> allCameras == [] || |allCameras| < num
      ensures |allCameras| < num ==> dropdowns == [] && cells == []
      ensures num <= |allCameras| ==> |dropdowns| == |cells| == num
      ensures num <= |allCameras| ==> forall i :: 0 <= i < num ==> cells[i] == GridCell(i)
      ensures num <= |allCameras| ==> forall i :: 0 <= i < num ==>
                dropdowns[i] == Repopulated(NewCanvas(allCameras, i), allCameras, Selections(InitialDropdowns(allCameras, num)))
    {
      numCameras := num;
      dropdowns, cells := [], [];
      closed := false;
      new;
      var found := DetectAvailableCameras(isOpened);
      allCameras := found;
      closed := allCameras == [];   // "No cameras found.", yet construction goes on
      if |allCameras| < num {
        closed := true;   // "Not enough cameras available."
        return;
      }
      InitUi();
    }

    /** `init_ui`: one canvas per requested camera, placed on a three-column grid, then the dropdown update. */
    method InitUi()
      requires numCameras <= |allCameras|
      modifies this`dropdowns, this`cells
      ensures |dropdowns| == |cells| == numCameras
      ensures forall i :: 0 <= i < numCameras ==> cells[i] == GridCell(i)
      ensures forall i :: 0 <= i < numCameras ==>
                dropdowns[i] == Repopulated(NewCanvas(allCameras, i), allCameras, Selections(InitialDropdowns(allCameras, numCameras)))
    {
      dropdowns, cells := [], [];
      var idx := 0;
      while idx < numCameras
        invariant 0 <= idx <= numCameras
        invariant |dropdowns| == |cells| == idx
        invariant forall i :: 0 <= i < idx ==> cells[i] == GridCell(i) && dropdowns[i] == NewCanvas(allCameras, i)
      {
        var d := NewCanvas(allCameras, InitialCamera(idx, |allCameras|));
        dropdowns := dropdowns + [d];
        cells := cells + [GridCell(idx)];
        idx := idx + 1;
      }
      assert dropdowns == InitialDropdowns(allCameras, numCameras);
      UpdateDropdownOptions();
    }

    /**
     * `update_dropdown_options`: the selections are read once, before any
     * dropdown is refilled, so every canvas is filtered against the same list.
     */
    method UpdateDropdownOptions()
      modifies this`dropdowns
      ensures |dropdowns| == |old(dropdowns)|
      ensures forall i :: 0 <= i < |dropdowns| ==>
                dropdowns[i] == Repopulated(old(dropdowns)[i], allCameras, Selections(old(dropdowns)))
    {
      var selected := Selections(dropdowns);
      ghost var before := dropdowns;
      var i := 0;
      while i < |dropdowns|
        invariant 0 <= i <= |dropdowns| == |before|
        invariant forall k :: 0 <= k < i ==> dropdowns[k] == Repopulated(before[k], allCameras, selected)
        invariant forall k :: i <= k < |dropdowns| ==> dropdowns[k] == before[k]
      {
        var previous := CurrentText(dropdowns[i]);
        var d := Cleared(dropdowns[i]);
        d := WithItems(d, Available(allCameras, selected, previous));
        d := WithCurrentText(d, previous);
        dropdowns := dropdowns[i := d];
        i := i + 1;
      }
    }

    /**
     * `on_camera_selection_changed`: the canvas's capture is reopened (left
     * out) and every dropdown refilled. An index with no canvas raises
     * IndexError.
     */
    method OnCameraSelectionChanged(canvasIndex: nat) returns (err: Option<Failure>)
      modifies this`dropdowns
      ensures err.Some? <==> canvasIndex >= |old(dropdowns)|
      ensures err.Some? ==> err.value == IndexError && dropdowns == old(dropdowns)
      ensures err.None? ==> |dropdowns| == |old(dropdowns)| && forall i :: 0 <= i < |dropdowns| ==>
                dropdowns[i] == Repopulated(old(dropdowns)[i], allCameras, Selections(old(dropdowns)))
    {
      if canvasIndex >= |dropdowns| {
        return Some(IndexError);
      }
      UpdateDropdownOptions();
      return None;
    }

    /**
     * The user picks item `itemIndex` of canvas `canvasIndex`'s dropdown. The
     * box makes that item current. When its current index changed, the box's
     * `currentIndexChanged` signal reaches `on_camera_selection_changed` for
     * that canvas, which refills every dropdown; picking the item that is
     * already current fires nothing.
     */
    method SelectCamera(canvasIndex: nat, itemIndex: nat)
      requires canvasIndex < |dropdowns| && itemIndex < |dropdowns[canvasIndex].items|
      modifies this`dropdowns
      ensures itemIndex as int == old(dropdowns)[canvasIndex].currentIndex ==> dropdowns == old(dropdowns)
      ensures itemIndex as int != old(dropdowns)[canvasIndex].currentIndex ==>
                var p := Picked(old(dropdowns), canvasIndex, itemIndex);
                |dropdowns| == |p| && forall i :: 0 <= i < |dropdowns| ==>
                  dropdowns[i] == Repopulated(p[i], allCameras, Selections(p))
    {
      if itemIndex as int == dropdowns[canvasIndex].currentIndex {
        return;
      }
      dropdowns := Picked(dropdowns, canvasIndex, itemIndex);
      var err := OnCameraSelectionChanged(canvasIndex);
    }
  }

  /** The dropdowns once the user has made item `itemIndex` current in canvas `canvasIndex`. */
  function Picked(ds: seq<Dropdown>, canvasIndex: nat, itemIndex: nat): (r: seq<Dropdown>)
    requires canvasIndex < |ds| && itemIndex < |ds[canvasIndex].items|
    ensures |r| == |ds| && r[canvasIndex].items == ds[canvasIndex].items
    ensures CurrentText(r[canvasIndex]) == ds[canvasIndex].items[itemIndex]
    ensures forall i :: 0 <= i < |ds| && i != canvasIndex ==> r[i] == ds[i]
  {
    ds[canvasIndex := WithCurrentIndex(ds[canvasIndex], itemIndex)]
  }

  /**
   * After a pick and the refill it triggers, the picked camera is the
   * canvas's current camera, and a canvas `j` that had not selected it no
   * longer offers it.
   */
  lemma PickedCameraHiddenElsewhere(ds: seq<Dropdown>, all: seq<string>, canvasIndex: nat, itemIndex: nat, j: nat)
    requires canvasIndex < |ds| && itemIndex < |ds[canvasIndex].items|
    requires ds[canvasIndex].items[itemIndex] in all
    ensures var p := Picked(ds, canvasIndex, itemIndex);
            var c := ds[canvasIndex].items[itemIndex];
      && CurrentText(Repopulated(p[canvasIndex], all, Selections(p))) == c
      && (j < |ds| && j != canvasIndex && CurrentText(ds[j]) != c ==>
            c !in Repopulated(p[j], all, Selections(p)).items)
  {
    var p := Picked(ds, canvasIndex, itemIndex);
    var c := ds[canvasIndex].items[itemIndex];
    RepopulatedKeepsSelection(p[canvasIndex], all, Selections(p));
    if j < |ds| && j != canvasIndex && CurrentText(ds[j]) != c {
      assert Selections(p)[canvasIndex] == c;
      RepopulatedHidesOthers(p[j], all, Selections(p), c);
    }
  }

  /** The dropdowns `init_ui` builds before it first updates them. */
  function InitialDropdowns(all: seq<string>, num: nat): (ds: seq<Dropdown>)
    requires num <= |all|
    ensures |ds| == num && forall i :: 0 <= i < num ==> ds[i] == NewCanvas(all, i)
  {
    seq(num, i requires 0 <= i < num => NewCanvas(all, InitialCamera(i, |all|)))
  }

  /** Right after `init_ui` builds the canvases, canvas `i` shows `all_cameras[i]`. */
  lemma InitialSelections(all: seq<string>, num: nat)
    requires num <= |all|
    ensures Selections(InitialDropdowns(all, num)) == all[..num]
  {
  }

  /**
   * After construction each canvas shows its own camera, `all_cameras[idx]`,
   * and its dropdown offers that camera together with the cameras no canvas
   * shows.
   */
  lemma InitialCanvases(all: seq<string>, num: nat, i: nat, c: string)
    requires num <= |all| && i < num
    ensures var d := Repopulated(NewCanvas(all, i), all, Selections(InitialDropdowns(all, num)));
      && CurrentText(d) == all[i]
      && (c in d.items <==> c in all && (c == all[i] || c !in all[..num]))
  {
    InitialSelections(all, num);
    RepopulatedKeepsSelection(NewCanvas(all, i), all, all[..num]);
    AvailableMembership(all, all[..num], all[i], c);
  }
}
