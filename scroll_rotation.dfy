/**
 * What one `wheel` event does to the two wheels, as functions on their states,
 * and what any run of events preserves: both wheels turn by minus the scroll
 * speed and every picture turns back by the same amount, so the pictures orbit
 * the wheel's centre but never tilt.
 */
module ScrollRotation {
  import opened Scene
  import opened WheelLayout

  /** The scroll delta normalised so that 360 units of wheel motion give half a radian. */
  function Speed(deltaY: real): (s: real)
    ensures s * 720.0 == deltaY
  {
    (deltaY / 360.0) / 2.0
  }

  /** Every mesh of c turned by d about its own z axis. */
  function SpinAll(c: seq<Mesh>, d: real): seq<Mesh>
  {
    seq(|c|, j requires 0 <= j < |c| => Spin(c[j], d))
  }

  /** A wheel after one event of scroll speed d: the wheel turned by -d and each of its meshes by +d. */
  function Spun(ws: WheelState, d: real): WheelState
  {
    WheelState(ws.position, ws.angle - d, SpinAll(ws.children, d))
  }

  /** How far mesh j is turned in the scene: its wheel's rotation plus its own. */
  function WorldSpin(ws: WheelState, j: nat): real
    requires j < |ws.children|
  {
    ws.angle + ws.children[j].spin
  }

  /** Every mesh of the wheel is upright in the scene. */
  predicate Upright(ws: WheelState)
  {
    forall j :: 0 <= j < |ws.children| ==> WorldSpin(ws, j) == 0.0
  }

  /** Both wheels, top first. */
  datatype Wheels = Wheels(top: WheelState, bottom: WheelState)

  /** Both wheels after one `wheel` event with the given delta. */
  function Scroll(c: Wheels, deltaY: real): Wheels
  {
    Wheels(Spun(c.top, Speed(deltaY)), Spun(c.bottom, Speed(deltaY)))
  }

  /** Both wheels after the events with the given deltas, in order. */
  function ScrollAll(c: Wheels, deltas: seq<real>): Wheels
    decreases |deltas|
  {
    if |deltas| == 0 then c else ScrollAll(Scroll(c, deltas[0]), deltas[1..])
  }

  /** The sum of the deltas. */
  function Total(deltas: seq<real>): real
  {
    if |deltas| == 0 then 0.0 else deltas[0] + Total(deltas[1..])
  }

  /**
   * One event turns the wheel by -d and nothing else about it: its translation,
   * its meshes' images and positions, and the scene rotation of every mesh stay
   * as they were.
   */
  lemma SpunKeepsScene(ws: WheelState, d: real)
    ensures Spun(ws, d).position == ws.position && Spun(ws, d).angle == ws.angle - d
    ensures |Spun(ws, d).children| == |ws.children|
    ensures forall j :: 0 <= j < |ws.children| ==>
              && Spun(ws, d).children[j].image == ws.children[j].image
              && Spun(ws, d).children[j].position == ws.children[j].position
              && Spun(ws, d).children[j].spin == ws.children[j].spin + d
              && WorldSpin(Spun(ws, d), j) == WorldSpin(ws, j)
  {
  }

  /** Upright wheels stay upright under any event. */
  lemma SpunUpright(ws: WheelState, d: real)
    requires Upright(ws)
    ensures Upright(Spun(ws, d))
  {
    SpunKeepsScene(ws, d);
  }

  /** Two events compose into one with the summed speed. */
  lemma SpunCompose(ws: WheelState, a: real, b: real)
    ensures Spun(Spun(ws, a), b) == Spun(ws, a + b)
  {
    var l, r := Spun(Spun(ws, a), b).children, Spun(ws, a + b).children;
    assert |l| == |r|;
    forall j | 0 <= j < |l|
      ensures l[j] == r[j]
    {
    }
    assert l == r;
  }

  /** An event of speed 0 changes nothing. */
  lemma SpunZero(ws: WheelState)
    ensures Spun(ws, 0.0) == ws
  {
    var c := Spun(ws, 0.0).children;
    assert |c| == |ws.children|;
    forall j | 0 <= j < |c|
      ensures c[j] == ws.children[j]
    {
    }
    assert c == ws.children;
  }

  /** Speed is linear in the delta. */
  lemma SpeedLinear(a: real, b: real)
    ensures Speed(a + b) == Speed(a) + Speed(b)
    ensures Speed(-a) == -Speed(a)
    ensures Speed(0.0) == 0.0
  {
    assert Speed(a + b) * 720.0 == (Speed(a) + Speed(b)) * 720.0;
  }

  /** Scrolling by a delta and then by its opposite restores both wheels. */
  lemma ScrollInverse(c: Wheels, deltaY: real)
    ensures Scroll(Scroll(c, deltaY), -deltaY) == c
  {
    SpeedLinear(deltaY, 0.0);
    SpunCompose(c.top, Speed(deltaY), Speed(-deltaY));
    SpunCompose(c.bottom, Speed(deltaY), Speed(-deltaY));
    SpunZero(c.top);
    SpunZero(c.bottom);
  }

  /** An event with no wheel motion leaves both wheels as they were. */
  lemma ScrollZero(c: Wheels)
    ensures Scroll(c, 0.0) == c
  {
    SpunZero(c.top);
    SpunZero(c.bottom);
  }

  /** Two events compose into one whose delta is the sum of theirs. */
  lemma ScrollCompose(c: Wheels, a: real, b: real)
    ensures Scroll(Scroll(c, a), b) == Scroll(c, a + b)
  {
    SpeedLinear(a, b);
    SpunCompose(c.top, Speed(a), Speed(b));
    SpunCompose(c.bottom, Speed(a), Speed(b));
  }

  /** Any run of events leaves the wheels where a single event with the summed delta would. */
  lemma {:induction false} ScrollAllTotal(c: Wheels, deltas: seq<real>)
    ensures ScrollAll(c, deltas) == Scroll(c, Total(deltas))
    decreases |deltas|
  {
    if |deltas| == 0 {
      ScrollZero(c);
    } else {
      ScrollAllTotal(Scroll(c, deltas[0]), deltas[1..]);
      ScrollCompose(c, deltas[0], Total(deltas[1..]));
    }
  }

  /** Both wheels carry the same meshes, turned the same, differing only in their translation. */
  predicate InStep(c: Wheels)
  {
    c.top.angle == c.bottom.angle && c.top.children == c.bottom.children
  }

  /** Any run of events keeps upright pictures upright and wheels that turn together in step. */
  lemma {:induction false} ScrollAllKeeps(c: Wheels, deltas: seq<real>)
    requires Upright(c.top) && Upright(c.bottom)
    ensures Upright(ScrollAll(c, deltas).top) && Upright(ScrollAll(c, deltas).bottom)
    ensures InStep(c) ==> InStep(ScrollAll(c, deltas))
    ensures ScrollAll(c, deltas).top.position == c.top.position
    ensures ScrollAll(c, deltas).bottom.position == c.bottom.position
    decreases |deltas|
  {
    if |deltas| > 0 {
      var d := Speed(deltas[0]);
      SpunUpright(c.top, d);
      SpunUpright(c.bottom, d);
      ScrollAllKeeps(Scroll(c, deltas[0]), deltas[1..]);
    }
  }
}
