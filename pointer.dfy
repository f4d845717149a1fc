/** How the pointer tilts the bar: the horizontal offset of the pointer
    from the centre of the widget sets the tilt linearly, and leaving the
    widget lets the tilt relax towards level. Angles are in degrees. */
module Pointer {
  import Physics

  const MaxRotation: real := 15.0
  const LeaveDecay: real := 0.8

  /** The widget's bounding box along the horizontal axis. */
  datatype Rect = Rect(left: real, width: real)

  /** The widget's box as the pointer handler sees it: absent until the
      component is mounted. */
  datatype Container = Unmounted | Mounted(rect: Rect)

  /** The tilt for a pointer at horizontal coordinate `clientX`:
      (offset from the centre / half the width) * 15. The bar is level
      exactly at the centre and tilts towards the side of the pointer. */
  function TiltFromPointer(rect: Rect, clientX: real): (r: real)
    requires rect.width > 0.0
    ensures r == 0.0 <==> clientX == rect.left + rect.width / 2.0
    ensures r > 0.0 <==> clientX > rect.left + rect.width / 2.0
    ensures r < 0.0 <==> clientX < rect.left + rect.width / 2.0
  {
    DivSign(clientX - rect.left - rect.width / 2.0, rect.width / 2.0);
    var centerX := rect.width / 2.0;
    var mouseOffset := clientX - rect.left - centerX;
    (mouseOffset / centerX) * MaxRotation
  }

  /** Inside the widget the tilt lies in [-15, 15]; it is level at the
      centre, full at the edges, and has the sign of the offset. */
  lemma {:induction false} TiltRange(rect: Rect, clientX: real)
    requires rect.width > 0.0
    requires rect.left <= clientX <= rect.left + rect.width
    ensures -MaxRotation <= TiltFromPointer(rect, clientX) <= MaxRotation
    ensures clientX == rect.left + rect.width / 2.0 ==> TiltFromPointer(rect, clientX) == 0.0
    ensures clientX == rect.left ==> TiltFromPointer(rect, clientX) == -MaxRotation
    ensures clientX == rect.left + rect.width ==> TiltFromPointer(rect, clientX) == MaxRotation
    ensures (TiltFromPointer(rect, clientX) > 0.0) <==> clientX > rect.left + rect.width / 2.0
  {
    var c := rect.width / 2.0;
    var off := clientX - rect.left - c;
    assert -c <= off <= c;
    DivBounds(off, c);
  }

  lemma DivSign(off: real, c: real)
    requires c > 0.0
    ensures off / c > 0.0 <==> off > 0.0
    ensures off / c < 0.0 <==> off < 0.0
  {
  }

  lemma DivBounds(off: real, c: real)
    requires c > 0.0 && -c <= off <= c
    ensures -1.0 <= off / c <= 1.0
    ensures off / c > 0.0 <==> off > 0.0
  {
  }

  /** Moving the pointer right never tilts the bar less to the right. */
  lemma TiltMonotone(rect: Rect, x1: real, x2: real)
    requires rect.width > 0.0 && x1 <= x2
    ensures TiltFromPointer(rect, x1) <= TiltFromPointer(rect, x2)
  {
    var c := rect.width / 2.0;
    var o1, o2 := x1 - rect.left - c, x2 - rect.left - c;
    assert o1 / c <= o2 / c by {
      assert o1 / c * c == o1 && o2 / c * c == o2;
    }
  }

  /** Tilt after the pointer leaves the widget: no larger in magnitude. */
  function Relax(rotation: real): (r: real)
    ensures Physics.Abs(r) <= Physics.Abs(rotation)
  {
    rotation * LeaveDecay
  }

  /** Leaving never increases the tilt's magnitude and keeps its direction;
      it strictly reduces any nonzero tilt. */
  lemma RelaxShrinks(rotation: real)
    ensures Physics.Abs(Relax(rotation)) <= Physics.Abs(rotation)
    ensures rotation != 0.0 ==> Physics.Abs(Relax(rotation)) < Physics.Abs(rotation)
    ensures (Relax(rotation) > 0.0 <==> rotation > 0.0) && (Relax(rotation) < 0.0 <==> rotation < 0.0)
  {
  }

  /** A tilt within [-15, 15] stays within it after leaving. */
  lemma RelaxKeepsRange(rotation: real)
    requires -MaxRotation <= rotation <= MaxRotation
    ensures -MaxRotation <= Relax(rotation) <= MaxRotation
  {
  }
}
