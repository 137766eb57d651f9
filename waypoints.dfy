/**
 * The waypoint list the map keeps in its feature collection and hands to
 * the dashboard: a click appends the clicked point and then a copy of the
 * depot (the list's first element).
 */
module Waypoints {

  /** A clicked or supplied map location, `[lng, lat]`. The model copies
      positions and never computes on them. */
  datatype Position = Position(lng: real, lat: real)

  /** The waypoint list after one click at `p`: the click is pushed, then
      element 0 of the grown list is pushed again. */
  function ClickStep(w: seq<Position>, p: Position): (r: seq<Position>)
    ensures |r| == |w| + 2
    ensures r[..|w|] == w
    ensures r[|w|] == p
    ensures r[|w| + 1] == r[0]
    ensures w == [] ==> r == [p, p]
  {
    var pushed := w + [p];
    pushed + [pushed[0]]
  }

  /** The waypoint list after clicking `clicks`, in order, on an empty map. */
  function Clicks(clicks: seq<Position>): seq<Position>
  {
    if |clicks| == 0 then []
    else ClickStep(Clicks(clicks[..|clicks| - 1]), clicks[|clicks| - 1])
  }

  /** After n clicks from empty the list has length 2n; index 2k holds the
      k-th click and index 0 and every odd index hold the first click, the
      depot: `[p0, p0, p1, p0, p2, p0, …]`. */
  lemma {:induction false} ClicksShape(clicks: seq<Position>)
    ensures |Clicks(clicks)| == 2 * |clicks|
    ensures forall k :: 0 <= k < |clicks| ==> Clicks(clicks)[2 * k] == clicks[k]
    ensures forall j :: 0 <= j < |Clicks(clicks)| && j % 2 == 1 ==> Clicks(clicks)[j] == clicks[0]
  {
    if |clicks| > 0 {
      var prefix := clicks[..|clicks| - 1];
      var w := Clicks(prefix);
      ClicksShape(prefix);
      var r := Clicks(clicks);
      assert r == ClickStep(w, clicks[|clicks| - 1]);
      forall k | 0 <= k < |clicks|
        ensures r[2 * k] == clicks[k]
      {
        if k < |prefix| {
          assert r[2 * k] == w[2 * k];
        }
      }
      forall j | 0 <= j < |r| && j % 2 == 1
        ensures r[j] == clicks[0]
      {
        if |prefix| == 0 {
          assert r == [clicks[0], clicks[0]];
        } else {
          assert r[0] == w[0] == prefix[0] == clicks[0];
          if j < |w| {
            assert r[j] == w[j];
          }
        }
      }
    }
  }

  /** Clicking never changes an entry already in the list: the list before
      a sequence of clicks is a prefix of the list after it. */
  lemma {:induction false} ClicksExtend(clicks: seq<Position>, more: seq<Position>)
    ensures |Clicks(clicks + more)| == |Clicks(clicks)| + 2 * |more|
    ensures Clicks(clicks + more)[..|Clicks(clicks)|] == Clicks(clicks)
  {
    if |more| == 0 {
      assert clicks + more == clicks;
    } else {
      var m' := more[..|more| - 1];
      assert (clicks + more)[..|clicks + more| - 1] == clicks + m';
      ClicksExtend(clicks, m');
      var w := Clicks(clicks + m');
      assert Clicks(clicks + more) == ClickStep(w, more[|more| - 1]);
      assert ClickStep(w, more[|more| - 1])[..|w|] == w;
    }
  }

  /** Counts the entries of `w` equal to `p`. */
  function Occurrences(w: seq<Position>, p: Position): nat
  {
    if |w| == 0 then 0
    else Occurrences(w[..|w| - 1], p) + (if w[|w| - 1] == p then 1 else 0)
  }

  /** The depot is listed once for itself and once more per click: it
      occupies at least half of the list a run of clicks builds. */
  lemma {:induction false} DepotOccurrences(clicks: seq<Position>)
    requires |clicks| > 0
    ensures Occurrences(Clicks(clicks), clicks[0]) >= |clicks| + 1
  {
    var prefix := clicks[..|clicks| - 1];
    if |prefix| == 0 {
      assert Clicks(clicks) == [clicks[0], clicks[0]];
      assert [clicks[0], clicks[0]][..1] == [clicks[0]];
      assert [clicks[0]][..0] == [];
    } else {
      DepotOccurrences(prefix);
      assert prefix[0] == clicks[0];
      var w := Clicks(prefix);
      var p := clicks[|clicks| - 1];
      var r := ClickStep(w, p);
      assert Clicks(clicks) == r;
      ClicksShape(prefix);
      assert r[..|r| - 1] == w + [p];
      assert (w + [p])[..|w|] == w;
      assert r[|r| - 1] == r[0] == w[0] == clicks[0];
    }
  }
}
