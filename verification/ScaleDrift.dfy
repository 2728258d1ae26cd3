/** How the float scales of the pixel buffer drift while the panel changes its source size: each
    adoption of a new source floors the client size and works the scale out again. */
module ScaleDrift {
  import opened Letterbox
  import opened Geometry
  import opened GeometryRuns

  function Value(r: Ratio): real
    requires r.den > 0
  {
    r.num as real / r.den as real
  }

  lemma QuotientBounds(q: nat, a: nat, d: nat)
    requires d > 0 && q * d <= a < q * d + d
    ensures q as real <= a as real / d as real < q as real + 1.0
  {
    RealProduct(q, d);
    RealQuotient(q as real, a as real, d as real, a as real / d as real);
  }

  lemma RealProduct(a: nat, b: nat)
    ensures (a * b) as real == a as real * b as real
  {}

  lemma RealQuotient(q: real, a: real, d: real, x: real)
    requires d > 0.0 && x == a / d && q * d <= a < q * d + d
    ensures q <= x < q + 1.0
  {
    assert x * d == a;
    assert (q + 1.0) * d == q * d + d;
    CancelFactor(x, q + 1.0, d);
    if x < q { CancelFactor(a, q * d, 1.0); }
  }

  /** One update: the new scale floor(s * r) / s is at most r and less than 1/s below it. */
  lemma ScaleFalls(r: Ratio, s: nat)
    requires r.den > 0 && s > 0
    ensures var r' := Ratio(ScaleDown(s, r.num, r.den), s);
      Value(r') <= Value(r) < Value(r') + 1.0 / s as real
  {
    var c := ScaleDown(s, r.num, r.den);
    QuotientBounds(c, s * r.num, r.den);
    var x := (s * r.num) as real / r.den as real;
    assert x == s as real * Value(r) by { ProductOverDen(s, r); }
    DivideThrough(c as real, s as real * Value(r), s as real, Value(r));
  }

  lemma ProductOverDen(s: nat, r: Ratio)
    requires r.den > 0
    ensures (s * r.num) as real / r.den as real == s as real * Value(r)
  {
    RealProduct(s, r.num);
  }

  lemma DivideThrough(c: real, x: real, s: real, v: real)
    requires s > 0.0 && x == s * v && c <= x < c + 1.0
    ensures c / s <= v < c / s + 1.0 / s
  {
    assert c == (c / s) * s && 1.0 == (1.0 / s) * s;
    assert (c / s) * s <= v * s;
    assert v * s < (c / s + 1.0 / s) * s;
  }

  /** The oriented source that a reading reports. */
  function Visited(op: Op): Size
    requires op.Refresh? && ValidPanel(op.panel)
  {
    Oriented(PanelMode(op.panel), PanelRotation(op.panel))
  }

  /** This operation makes the buffer adopt a new source. */
  predicate Moves(w: World, op: Op) {
    op.Refresh? && ValidPanel(op.panel) && Visited(op) != w.pixels.source
  }

  /** This operation neither turns the buffer nor gives it a new client size. */
  predicate Undisturbing(w: World, op: Op) {
    match op
    case Refresh(panel, _, _) => ValidPanel(panel) ==> IsDisplayRotated(PanelRotation(panel)) == w.pixels.rotated
    case Resize(mirrors, width, height, _) => !Accepted(w, mirrors, width, height) || w.pixels.client == Size(width, height)
    case _ => true
  }

  predicate Undisturbed(w: World, ops: seq<Op>)
    requires Good(w)
  {
    ops != [] ==>
      Undisturbed(w, ops[..|ops| - 1]) && Undisturbing(After(w, ops[..|ops| - 1]), ops[|ops| - 1])
  }

  /** Some operation of the run makes the buffer adopt a new source. */
  predicate EverMoves(w: World, ops: seq<Op>)
    requires Good(w)
  {
    ops != [] && (EverMoves(w, ops[..|ops| - 1]) || Moves(After(w, ops[..|ops| - 1]), ops[|ops| - 1]))
  }

  /** The sum of 1/S over the source widths (or heights) that the buffer adopted. */
  function Drift(w: World, ops: seq<Op>, horizontal: bool): real
    requires Good(w)
  {
    if ops == [] then 0.0
    else
      var op := ops[|ops| - 1];
      Drift(w, ops[..|ops| - 1], horizontal)
      + if Moves(After(w, ops[..|ops| - 1]), op) then 1.0 / (if horizontal then Visited(op).width else Visited(op).height) as real
        else 0.0
  }

  predicate Clean(p: Pixels) {
    p.scaleX == Ratio(p.client.width, p.source.width) && p.scaleY == Ratio(p.client.height, p.source.height)
  }

  /** r' is at most r and not lower by more than drift. */
  predicate FallsWithin(r: Ratio, r': Ratio, drift: real) {
    r.den > 0 && r'.den > 0 && Value(r') <= Value(r) <= Value(r') + drift
  }

  predicate FallsBelow(r: Ratio, r': Ratio, drift: real) {
    FallsWithin(r, r', drift) && Value(r) < Value(r') + drift
  }

  lemma MoveStep(w: World, op: Op)
    requires Good(w) && Undisturbing(w, op) && Moves(w, op)
    ensures var p, p' := w.pixels, Apply(w, op).pixels;
      && p'.rotated == p.rotated && p'.source == Visited(op) && Clean(p')
      && FallsBelow(p.scaleX, p'.scaleX, 1.0 / Visited(op).width as real)
      && FallsBelow(p.scaleY, p'.scaleY, 1.0 / Visited(op).height as real)
  {
    ScaleFalls(w.pixels.scaleX, Visited(op).width);
    ScaleFalls(w.pixels.scaleY, Visited(op).height);
  }

  /** Every other undisturbing operation leaves the buffer as it is; most panel readings are of
      this kind. */
  lemma StillStep(w: World, op: Op)
    requires Good(w) && Undisturbing(w, op) && !Moves(w, op)
    ensures Apply(w, op).pixels == w.pixels
  {}

  /** Scale drift: over any run without a turn and without a new client size, each scale never
      rises and falls by at most the sum of 1/S over the sources adopted, by less if there was
      one. */
  lemma {:induction false} ScaleDriftIsBounded(w: World, ops: seq<Op>)
    requires Good(w) && Undisturbed(w, ops)
    ensures var p, p' := w.pixels, After(w, ops).pixels;
      && p'.rotated == p.rotated && (Clean(p) ==> Clean(p'))
      && FallsWithin(p.scaleX, p'.scaleX, Drift(w, ops, true))
      && FallsWithin(p.scaleY, p'.scaleY, Drift(w, ops, false))
    ensures var p, p' := w.pixels, After(w, ops).pixels;
      EverMoves(w, ops) ==> && FallsBelow(p.scaleX, p'.scaleX, Drift(w, ops, true))
                            && FallsBelow(p.scaleY, p'.scaleY, Drift(w, ops, false))
  {
    if ops != [] {
      var v, op := After(w, ops[..|ops| - 1]), ops[|ops| - 1];
      ScaleDriftIsBounded(w, ops[..|ops| - 1]);
      if Moves(v, op) { MoveStep(v, op); } else { StillStep(v, op); }
    }
  }

  /** The client is not larger than before and has lost less than `driftX`, `driftY` sources. */
  predicate LosesLessThan(p: Pixels, p': Pixels, driftX: real, driftY: real) {
    && p'.client.width <= p.client.width && p'.client.height <= p.client.height
    && (p.client.width - p'.client.width) as real < p.source.width as real * driftX
    && (p.client.height - p'.client.height) as real < p.source.height as real * driftY
  }

  /** Coming back to the first source never enlarges the window, and loses less than the sum of
      S0/S. */
  lemma ReturningLosesLittle(w: World, ops: seq<Op>)
    requires Good(w) && Undisturbed(w, ops) && EverMoves(w, ops)
    requires Clean(w.pixels) && After(w, ops).pixels.source == w.pixels.source
    ensures LosesLessThan(w.pixels, After(w, ops).pixels, Drift(w, ops, true), Drift(w, ops, false))
  {
    ScaleDriftIsBounded(w, ops);
    ClientLoss(w.pixels, After(w, ops).pixels, Drift(w, ops, true), Drift(w, ops, false));
  }

  lemma ClientLoss(p: Pixels, p': Pixels, driftX: real, driftY: real)
    requires p.source.Positive() && p'.source == p.source && Clean(p) && Clean(p')
    requires FallsBelow(p.scaleX, p'.scaleX, driftX) && FallsBelow(p.scaleY, p'.scaleY, driftY)
    ensures LosesLessThan(p, p', driftX, driftY)
  {
    TimesSource(p.client.width, p'.client.width, p.source.width, driftX);
    TimesSource(p.client.height, p'.client.height, p.source.height, driftY);
  }

  lemma TimesSource(c: nat, c': nat, s: nat, drift: real)
    requires s > 0
    requires c' as real / s as real <= c as real / s as real < c' as real / s as real + drift
    ensures c' <= c && (c - c') as real < s as real * drift
  {
    var x, x', t := c as real / s as real, c' as real / s as real, s as real;
    assert x * t == c as real && x' * t == c' as real;
    assert x' * t <= x * t;
    assert x * t < (x' + drift) * t;
  }
}
