/**
 * Interactive perturbation of the demo: a rectangle selection picks particle
 * indices and routes mouse moves to the drag handler only when something was
 * picked; each drag adds a velocity impulse to the picked particles.
 * The picking (`Selection::selectRect`) and the screen-to-world mapping
 * (`MiniGL::unproject`) are inputs to this model.
 */
module Interaction {
  import opened Vectors

  /** Gain of the drag impulse. */
  const DragGain: real := 5.0

  /** The impulse of one drag: the gain times the cursor displacement, divided by the step size. */
  function Impulse(diff: Vec3, h: real): Vec3
    requires h != 0.0
  {
    Vec3(DragGain * diff.x / h, DragGain * diff.y / h, DragGain * diff.z / h)
  }

  /**
   * Reference velocities after one drag: every particle gains the impulse
   * once per occurrence of its index in the selection.
   */
  function Dragged(vel: seq<Vec3>, selected: seq<nat>, impulse: Vec3): (r: seq<Vec3>)
    ensures |r| == |vel|
  {
    seq(|vel|, p requires 0 <= p < |vel| => Add(vel[p], Scale(multiset(selected)[p] as real, impulse)))
  }

  /** Every selected index addresses a particle. */
  predicate IndicesInRange(selected: seq<nat>, count: nat) {
    forall j :: 0 <= j < |selected| ==> selected[j] < count
  }

  /**
   * `mouseMove`: add gain * (mousePos - anchor) / h to the velocity of each
   * selected particle, then move the anchor to the new cursor position.
   */
  method MouseMove(vel: seq<Vec3>, selected: seq<nat>, anchor: Vec3, mousePos: Vec3, h: real)
    returns (vel': seq<Vec3>, anchor': Vec3)
    requires h != 0.0
    requires IndicesInRange(selected, |vel|)
    ensures vel' == Dragged(vel, selected, Impulse(Sub(mousePos, anchor), h))
    ensures forall p :: 0 <= p < |vel| && p !in selected ==> vel'[p] == vel[p]
    ensures anchor' == mousePos
  {
    var diff := Sub(mousePos, anchor);
    var impulse := Impulse(diff, h);
    vel' := vel;
    for j := 0 to |selected|
      invariant |vel'| == |vel|
      invariant forall p :: 0 <= p < |vel| ==>
        vel'[p] == Add(vel[p], Scale(multiset(selected[..j])[p] as real, impulse))
    {
      var p := selected[j];
      assert selected[..j + 1] == selected[..j] + [p];
      var c := multiset(selected[..j])[p] as real;
      AddAssoc(vel[p], Scale(c, impulse), impulse);
      ScaleStep(c, impulse);
      vel' := vel'[p := Add(vel'[p], impulse)];
    }
    assert selected[..|selected|] == selected;
    forall p | 0 <= p < |vel| && p !in selected
      ensures vel'[p] == vel[p]
    {
      ScaleZero(vel[p], impulse);
    }
    anchor' := mousePos;
  }

  /** What the interaction layer holds between events. */
  datatype Ui = Ui(selected: seq<nat>, dragEnabled: bool, anchor: Vec3)

  /**
   * `selection`: replace the selection with the picked indices `hits`,
   * enable the drag handler exactly when something was picked, and anchor the
   * drag at the unprojected end corner of the rectangle.
   */
  function Select(ui: Ui, hits: seq<nat>, endWorld: Vec3): (r: Ui)
    ensures r.selected == hits
    ensures r.dragEnabled <==> |hits| > 0
    ensures r.anchor == endWorld
  {
    Ui(hits, |hits| > 0, endWorld)
  }

  /** A mouse move as the window layer delivers it: to the drag handler if one is installed, otherwise nowhere. */
  function DeliverMove(ui: Ui, vel: seq<Vec3>, mousePos: Vec3, h: real): (Ui, seq<Vec3>)
    requires h != 0.0
  {
    if ui.dragEnabled then
      (ui.(anchor := mousePos), Dragged(vel, ui.selected, Impulse(Sub(mousePos, ui.anchor), h)))
    else
      (ui, vel)
  }

  /**
   * After a selection, a mouse move changes velocities only if the selection
   * is non-empty, and then exactly those of the selected particles, by the
   * impulse of the move away from the rectangle's end corner.
   */
  lemma SelectionGatesDrag(ui: Ui, hits: seq<nat>, endWorld: Vec3, vel: seq<Vec3>, mousePos: Vec3, h: real)
    requires h != 0.0
    ensures var (ui', vel') := DeliverMove(Select(ui, hits, endWorld), vel, mousePos, h);
      (|hits| == 0 ==> vel' == vel && ui'.anchor == endWorld) &&
      (|hits| > 0 ==>
        ui'.anchor == mousePos &&
        forall p :: 0 <= p < |vel| ==>
          vel'[p] == if p in hits then Add(vel[p], Scale(multiset(hits)[p] as real, Impulse(Sub(mousePos, endWorld), h)))
                     else vel[p])
  {
  }

  /** Impulses are additive in the displacement. */
  lemma ImpulseAdditive(d1: Vec3, d2: Vec3, h: real)
    requires h != 0.0
    ensures Add(Impulse(d1, h), Impulse(d2, h)) == Impulse(Add(d1, d2), h)
  {
    GainAdditive(d1.x, d2.x, h);
    GainAdditive(d1.y, d2.y, h);
    GainAdditive(d1.z, d2.z, h);
  }

  /** One coordinate of `ImpulseAdditive`. */
  lemma GainAdditive(a: real, b: real, h: real)
    requires h != 0.0
    ensures DragGain * a / h + DragGain * b / h == DragGain * (a + b) / h
  {
  }

  /**
   * Two drags, to m1 and then to m2, give the same velocities as one drag
   * straight to m2: the anchor moves with each drag, so displacements
   * accumulate instead of being counted again from the original anchor.
   */
  lemma {:induction false} DragAccumulates(ui: Ui, vel: seq<Vec3>, m1: Vec3, m2: Vec3, h: real)
    requires h != 0.0
    ensures var (ui1, vel1) := DeliverMove(ui, vel, m1, h);
      DeliverMove(ui1, vel1, m2, h) == DeliverMove(ui, vel, m2, h)
  {
    if ui.dragEnabled {
      var i1 := Impulse(Sub(m1, ui.anchor), h);
      var i2 := Impulse(Sub(m2, m1), h);
      var i := Impulse(Sub(m2, ui.anchor), h);
      ImpulseAdditive(Sub(m1, ui.anchor), Sub(m2, m1), h);
      assert Add(Sub(m1, ui.anchor), Sub(m2, m1)) == Sub(m2, ui.anchor);
      var twice := Dragged(Dragged(vel, ui.selected, i1), ui.selected, i2);
      var once := Dragged(vel, ui.selected, i);
      forall p | 0 <= p < |vel|
        ensures twice[p] == once[p]
      {
        var c := multiset(ui.selected)[p] as real;
        AddAssoc(vel[p], Scale(c, i1), Scale(c, i2));
        ScaleDistributes(c, i1, i2);
      }
      assert twice == once;
    }
  }
}
