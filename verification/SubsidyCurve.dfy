/** The reference subsidy: straight lines between reward points, rounded in favour of the receiver. */
module SubsidyCurve {
  import opened StakingTypes
  import opened Perquintill

  datatype Point = Point(block: nat, subsidy: nat)

  /** The first pair of neighbouring points that encloses the block. */
  function Window(points: seq<Point>, height: nat): (r: Option<nat>)
    ensures r.Some? ==> r.value + 1 < |points| && points[r.value].block <= height < points[r.value + 1].block
    ensures r.None? ==> forall i :: 0 <= i < |points| - 1 ==> !(points[i].block <= height < points[i + 1].block)
  {
    if |points| < 2 then None
    else if points[0].block <= height < points[1].block then Some(0)
    else
      var rest := Window(points[1..], height);
      if rest.None? then
        assert forall i :: 0 < i < |points| - 1 ==> points[i] == points[1..][i - 1] && points[i + 1] == points[1..][i];
        None
      else Some(rest.value + 1)
  }

  /** What is taken off per block, rounded down before it is multiplied, never exceeds the whole difference. */
  lemma DropWithin(drop: nat, span: nat, steps: nat)
    requires steps <= span && span > 0
    ensures drop / span * steps <= drop
  {
    DivBounds(drop, span);
    MulMono(steps, span, drop / span);
    MulCommutes(drop / span, steps);
    MulCommutes(drop / span, span);
  }

  /** Up to `steps` units, it is the part of the difference that `steps` out of `span` blocks stand for. */
  lemma LineIs(drop: nat, span: nat, steps: nat)
    requires span > 0
    ensures var r := drop / span * steps;
            r * span <= drop * steps && (steps > 0 ==> drop * steps < (r + steps) * span)
  {
    var rate := drop / span;
    DivBounds(drop, span);
    MulMono(rate * span, drop, steps);
    MulSwap(rate, span, steps);
    if steps > 0 {
      MulMonoStrict(drop, (rate + 1) * span, steps);
      MulSwap(rate + 1, span, steps);
      Distribute(rate, 1, steps);
    }
  }

  /** `r` is `top` less the part of `drop` that `steps` out of `span` blocks stand for, up to one unit per block. */
  ghost predicate OnLineAt(top: nat, drop: nat, span: nat, steps: nat, r: nat) {
    && r <= top
    && var fallen := top - r;
    && fallen * span <= drop * steps && (steps > 0 ==> drop * steps < (fallen + steps) * span)
    && (steps == 0 ==> fallen == 0)
  }

  lemma OnLineIs(from: Point, to: Point, height: nat)
    requires from.block <= height < to.block && to.subsidy <= from.subsidy
    ensures OnLineAt(from.subsidy, from.subsidy - to.subsidy, to.block - from.block, height - from.block,
                     OnLine(from, to, height).value)
  {
    LineIs(from.subsidy - to.subsidy, to.block - from.block, height - from.block);
  }

  lemma MulCommutes(a: nat, b: nat)
    ensures a * b == b * a
  {}

  /** The subsidy on the line between two points; there is none when the subsidy would rise. */
  function OnLine(from: Point, to: Point, height: nat): (r: Option<nat>)
    requires from.block <= height < to.block
    ensures r.Some? <==> to.subsidy <= from.subsidy
    ensures r.Some? ==> to.subsidy <= r.value <= from.subsidy
  {
    if to.subsidy > from.subsidy then None
    else
      var drop, span, steps := from.subsidy - to.subsidy, to.block - from.block, height - from.block;
      DropWithin(drop, span, steps);
      Some(from.subsidy - drop / span * steps)
  }

  function Subsidy(points: seq<Point>, height: nat): nat {
    var w := Window(points, height);
    if w.Some? then
      var r := OnLine(points[w.value], points[w.value + 1], height);
      if r.Some? then r.value else 0
    else if points != [] && height >= points[|points| - 1].block then points[|points| - 1].subsidy
    else 0
  }

  // ---- The shape of the curve ----

  ghost predicate Ordered(points: seq<Point>) {
    forall i, j :: 0 <= i < j < |points| ==> points[i].block < points[j].block && points[i].subsidy >= points[j].subsidy
  }

  /** Each block from the first point on lies in exactly one piece of the curve. */
  lemma WindowIs(points: seq<Point>, height: nat, k: nat)
    requires Ordered(points) && k + 1 < |points| && points[k].block <= height < points[k + 1].block
    ensures Window(points, height) == Some(k)
  {}

  lemma NoWindowAfter(points: seq<Point>, height: nat)
    requires Ordered(points) && points != [] && height >= points[|points| - 1].block
    ensures Window(points, height).None?
  {}

  /** The curve goes exactly through every point. */
  lemma HitsEveryPoint(points: seq<Point>, k: nat)
    requires Ordered(points) && k < |points|
    ensures Subsidy(points, points[k].block) == points[k].subsidy
  {
    if k == |points| - 1 {
      NoWindowAfter(points, points[k].block);
    } else {
      WindowIs(points, points[k].block, k);
    }
  }

  /** Every block from the first point on is on a piece of the curve or behind the last point. */
  lemma Piece(points: seq<Point>, height: nat) returns (k: nat)
    requires Ordered(points) && points != [] && points[0].block <= height
    ensures k < |points| && points[k].block <= height
    ensures k + 1 < |points| ==> height < points[k + 1].block
    ensures k + 1 < |points| ==> Window(points, height) == Some(k)
    ensures k + 1 == |points| ==> Window(points, height).None?
  {
    k := 0;
    while k + 1 < |points| && points[k + 1].block <= height
      invariant k < |points| && points[k].block <= height
    {
      k := k + 1;
    }
    if k + 1 < |points| {
      WindowIs(points, height, k);
    } else {
      NoWindowAfter(points, height);
    }
  }

  lemma SamePiece(from: Point, to: Point, height: nat, later: nat)
    requires from.block <= height <= later < to.block && to.subsidy <= from.subsidy
    ensures OnLine(from, to, later).value <= OnLine(from, to, height).value
  {
    var rate := (from.subsidy - to.subsidy) / (to.block - from.block);
    MulMono(height - from.block, later - from.block, rate);
    MulCommutes(rate, height - from.block);
    MulCommutes(rate, later - from.block);
  }

  /** Between two points the curve falls along the straight line, and from the last point on it is level. */
  lemma FallsAlongLine(points: seq<Point>, height: nat, k: nat)
    requires Ordered(points) && k < |points| && points[k].block <= height
    ensures k + 1 < |points| && height < points[k + 1].block ==>
              var span, drop := points[k + 1].block - points[k].block, points[k].subsidy - points[k + 1].subsidy;
              OnLineAt(points[k].subsidy, drop, span, height - points[k].block, Subsidy(points, height))
    ensures k + 1 == |points| ==> Subsidy(points, height) == points[k].subsidy
  {
    if k + 1 == |points| {
      NoWindowAfter(points, height);
    } else if height < points[k + 1].block {
      WindowIs(points, height, k);
      OnLineIs(points[k], points[k + 1], height);
    }
  }

  /** Before the first point there is no subsidy; from there on it never rises. */
  lemma NeverRises(points: seq<Point>, height: nat, later: nat)
    requires Ordered(points) && points != [] && height <= later
    ensures height < points[0].block ==> Subsidy(points, height) == 0
    ensures points[0].block <= height ==> Subsidy(points, later) <= Subsidy(points, height)
  {
    if points[0].block <= height {
      var i := Piece(points, height);
      var j := Piece(points, later);
      if i + 1 < |points| {
        if i == j {
          SamePiece(points[i], points[i + 1], height, later);
        } else {
          assert points[j].subsidy <= points[i + 1].subsidy;
        }
      }
    }
  }
}
