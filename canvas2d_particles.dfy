/** What `animateParticles` paints, and which particles it keeps. */
module Canvas2DParticles {
  import opened Base
  import opened Canvas2D
  import opened Canvas2DRack

  /** The global alpha after the particles' assignments, starting from
      `before`: each assignment takes effect only when it is accepted. */
  function AlphaAfter(before: Alpha, ps: seq<Particle>): Alpha {
    if ps == [] then before
    else
      var last := ps[|ps| - 1];
      AssignAlpha(AlphaAfter(before, ps[..|ps| - 1]), LifeRatio(last.life, last.maxLife))
  }

  /** The dots a particle leaves when the global alpha was `before`: one
      at its position, with radius `2 * life / maxLife`, in the alpha its
      assignment leaves; none when `maxLife` is zero and the arc is
      skipped. */
  function DotOf(before: Alpha, p: Particle): seq<Dot> {
    if p.maxLife != 0.0
    then [Dot(Point(p.x, p.y), Faded(p.life, p.maxLife), p.color, AssignAlpha(before, LifeRatio(p.life, p.maxLife)))]
    else []
  }

  function ParticleDots(before: Alpha, ps: seq<Particle>): seq<Dot> {
    if ps == [] then []
    else ParticleDots(before, ps[..|ps| - 1]) + DotOf(AlphaAfter(before, ps[..|ps| - 1]), ps[|ps| - 1])
  }

  /** Setting the alpha and the fill, then filling a one-arc path, leaves
      one fill in that colour and in the alpha the assignment leaves. */
  lemma ArcFillMarks(pen: Pen, alpha: Alpha, color: Color, center: Point, radius: Radius)
    ensures var r := Paint(pen, [SetGlobalAlpha(alpha), SetFillStyle(color), BeginPath, Arc(center, radius), Fill]);
            && r.marks == [FillMark(ArcOps(center, radius), color, AssignAlpha(pen.alpha, alpha))]
            && r.pen.alpha == AssignAlpha(pen.alpha, alpha)
  {
    var rest := FillArc(color, center, radius);
    assert [SetGlobalAlpha(alpha), SetFillStyle(color), BeginPath, Arc(center, radius), Fill] == [SetGlobalAlpha(alpha)] + rest;
    FillArcMarks(pen.(alpha := AssignAlpha(pen.alpha, alpha)), color, center, radius);
    PaintCons(pen, SetGlobalAlpha(alpha), rest);
  }

  /** One particle paints the dots `DotOf` gives, and nothing else, and
      leaves the alpha its assignment sets. */
  lemma ParticlePaint(pen: Pen, p: Particle)
    ensures var r := Paint(pen, ParticleCommands(p));
            && Dots(r.marks) == DotOf(pen.alpha, p) && Rects(r.marks) == [] && Strokes(r.marks) == []
            && r.pen.alpha == AssignAlpha(pen.alpha, LifeRatio(p.life, p.maxLife))
  {
    var alpha := AssignAlpha(pen.alpha, LifeRatio(p.life, p.maxLife));
    var center := Point(p.x, p.y);
    var radius := Faded(p.life, p.maxLife);
    ArcFillMarks(pen, LifeRatio(p.life, p.maxLife), p.color, center, radius);
    ViewsOne(FillMark(ArcOps(center, radius), p.color, alpha));
  }

  predicate ParticlesPainted(pen: Pen, r: Painting, ps: seq<Particle>) {
    && Dots(r.marks) == ParticleDots(pen.alpha, ps) && Rects(r.marks) == [] && Strokes(r.marks) == []
    && r.pen.alpha == AlphaAfter(pen.alpha, ps)
  }

  lemma ParticlesStep(pen: Pen, prev: seq<Command>, one: seq<Command>, ps: seq<Particle>, p: Particle)
    requires ParticlesPainted(pen, Paint(pen, prev), ps)
    requires var mid := Paint(pen, prev).pen;
             var r := Paint(mid, one);
             && Dots(r.marks) == DotOf(mid.alpha, p) && Rects(r.marks) == [] && Strokes(r.marks) == []
             && r.pen.alpha == AssignAlpha(mid.alpha, LifeRatio(p.life, p.maxLife))
    ensures ParticlesPainted(pen, Paint(pen, prev + one), ps + [p])
  {
    PaintViews(pen, prev, one);
    assert (ps + [p])[..|ps + [p]| - 1] == ps;
  }

  lemma {:induction false} ParticlesLoopPaint(pen: Pen, ps: seq<Particle>)
    ensures ParticlesPainted(pen, Paint(pen, ParticlesCommands(ps)), ps)
    decreases |ps|
  {
    if ps == [] {
      PaintNothing(pen);
    } else {
      var init := ps[..|ps| - 1];
      var last := ps[|ps| - 1];
      assert init + [last] == ps;
      assert ParticlesCommands(ps) == ParticlesCommands(init) + ParticleCommands(last);
      ParticlesLoopPaint(pen, init);
      ParticlePaint(Paint(pen, ParticlesCommands(init)).pen, last);
      ParticlesStep(pen, ParticlesCommands(init), ParticleCommands(last), init, last);
    }
  }

  lemma AlphaResetPaint(pen: Pen)
    ensures Paint(pen, [SetGlobalAlpha(Opacity(1.0))]) == Painting(pen.(alpha := Opacity(1.0)), [])
  {
    assert [SetGlobalAlpha(Opacity(1.0))][1..] == [];
  }

  /** A frame that completes paints exactly the dots `ParticleDots` gives,
      one per particle with a non-zero `maxLife`, in array order, at the
      particle's position before it moves; it paints nothing else and
      leaves the global alpha at 1. */
  lemma FramePaint(pen: Pen, ps: seq<Particle>)
    ensures var r := Paint(pen, ParticlesCommands(ps) + [SetGlobalAlpha(Opacity(1.0))]);
            && Dots(r.marks) == ParticleDots(pen.alpha, ps) && Rects(r.marks) == [] && Strokes(r.marks) == []
            && r.pen.alpha == Opacity(1.0)
  {
    var body := ParticlesCommands(ps);
    ParticlesLoopPaint(pen, ps);
    AlphaResetPaint(Paint(pen, body).pen);
    PaintViews(pen, body, [SetGlobalAlpha(Opacity(1.0))]);
    ViewsAppend([], []);
  }

  // ---------------------------------------------------------------------
  // Particles whose life lies between 0 and maxLife

  /** The alpha `life / maxLife` is accepted exactly when `life` lies
      between 0 and `maxLife`, inclusive. */
  lemma LifeRatioAccepted(life: real, maxLife: real)
    ensures AlphaAccepted(LifeRatio(life, maxLife)) <==>
              (0.0 < maxLife && 0.0 <= life <= maxLife) || (maxLife < 0.0 && maxLife <= life <= 0.0)
  {
    if maxLife != 0.0 {
      var q := life / maxLife;
      assert q * maxLife == life;
      assert (q - 1.0) * maxLife == life - maxLife;
      if maxLife > 0.0 {
        assert 0.0 <= q <==> 0.0 <= life;
        assert q <= 1.0 <==> life <= maxLife by {
          assert (1.0 - q) * maxLife == maxLife - life;
          if q <= 1.0 { ProductNonNegative(1.0 - q, maxLife); } else { ProductNonNegative(q - 1.0, maxLife); }
        }
      } else {
        assert 0.0 <= q <==> life <= 0.0;
        assert q <= 1.0 <==> maxLife <= life by {
          assert (1.0 - q) * -maxLife == life - maxLife;
          if q <= 1.0 { ProductNonNegative(1.0 - q, -maxLife); } else { ProductNonNegative(q - 1.0, -maxLife); }
        }
      }
    }
  }

  /** The arc throws exactly when `life` and `maxLife` have opposite
      signs. */
  lemma ArcThrowsSigns(p: Particle)
    ensures ArcThrows(p) <==> (p.maxLife > 0.0 && p.life < 0.0) || (p.maxLife < 0.0 && p.life > 0.0)
  {
    if p.maxLife != 0.0 {
      var q := p.life / p.maxLife;
      assert q * p.maxLife == p.life;
      if p.maxLife > 0.0 {
        assert q < 0.0 <==> p.life < 0.0;
      } else {
        assert q < 0.0 <==> p.life > 0.0;
      }
    }
  }

  /** A particle with a positive `maxLife` and a life between 0 and it. */
  predicate InRange(p: Particle) {
    0.0 < p.maxLife && 0.0 <= p.life <= p.maxLife
  }

  /** The dot a particle in range leaves: radius and opacity both fade
      with `life / maxLife`. */
  function FadedDot(p: Particle): Dot {
    Dot(Point(p.x, p.y), Faded(p.life, p.maxLife), p.color, LifeRatio(p.life, p.maxLife))
  }

  function FadedDots(ps: seq<Particle>): seq<Dot> {
    if ps == [] then []
    else FadedDots(ps[..|ps| - 1]) + [FadedDot(ps[|ps| - 1])]
  }

  /** When every particle is in range, no arc throws, so a frame draws
      and moves them all. */
  lemma {:induction false} InRangeNeverThrows(ps: seq<Particle>)
    requires forall p :: p in ps ==> InRange(p)
    ensures FirstThrow(ps) == |ps|
    decreases |ps|
  {
    if ps != [] {
      ArcThrowsSigns(ps[0]);
      assert ps[0] in ps;
      assert forall p :: p in ps[1..] ==> p in ps;
      InRangeNeverThrows(ps[1..]);
    }
  }

  /** When every particle is in range, each one paints one dot whose
      radius and opacity both fade with `life / maxLife`, whatever the
      alpha was before. */
  lemma {:induction false} InRangeFrameDots(before: Alpha, ps: seq<Particle>)
    requires forall p :: p in ps ==> InRange(p)
    ensures ParticleDots(before, ps) == FadedDots(ps)
    ensures ps != [] ==> AlphaAfter(before, ps) == LifeRatio(ps[|ps| - 1].life, ps[|ps| - 1].maxLife)
    decreases |ps|
  {
    if ps != [] {
      var init := ps[..|ps| - 1];
      var last := ps[|ps| - 1];
      assert last in ps;
      assert forall p :: p in init ==> p in ps;
      InRangeFrameDots(before, init);
      LifeRatioAccepted(last.life, last.maxLife);
    }
  }

  lemma {:induction false} FadedDotsAt(ps: seq<Particle>)
    ensures |FadedDots(ps)| == |ps|
    ensures forall k :: 0 <= k < |ps| ==> FadedDots(ps)[k] == FadedDot(ps[k])
    decreases |ps|
  {
    if ps != [] {
      FadedDotsAt(ps[..|ps| - 1]);
    }
  }

  // ---------------------------------------------------------------------
  // Which particles are kept

  lemma {:induction false} SurvivorsAppend(a: seq<Particle>, b: seq<Particle>)
    ensures Survivors(a + b) == Survivors(a) + Survivors(b)
    decreases |b|
  {
    if b == [] {
      assert a + b == a;
    } else {
      var b' := b[..|b| - 1];
      assert (a + b)[..|a + b| - 1] == a + b';
      SurvivorsAppend(a, b');
    }
  }

  /** The filter keeps a particle exactly when its life is positive. */
  lemma {:induction false} SurvivorsMembers(ps: seq<Particle>, p: Particle)
    ensures p in Survivors(ps) <==> p in ps && p.life > 0.0
    decreases |ps|
  {
    if ps != [] {
      var init := ps[..|ps| - 1];
      SurvivorsMembers(init, p);
      assert ps == init + [ps[|ps| - 1]];
    }
  }

  /** The particles with more than one frame of life left. */
  function Lasting(ps: seq<Particle>): seq<Particle> {
    if ps == [] then []
    else
      var last := ps[|ps| - 1];
      Lasting(ps[..|ps| - 1]) + (if last.life > 1.0 then [last] else [])
  }

  /** What one frame returns: exactly the particles that had more than one
      frame of life left, moved on by one frame, in their original order. */
  lemma {:induction false} FrameSurvivors(ps: seq<Particle>)
    ensures Survivors(AdvanceAll(ps)) == AdvanceAll(Lasting(ps))
    decreases |ps|
  {
    if ps != [] {
      var init := ps[..|ps| - 1];
      var last := ps[|ps| - 1];
      FrameSurvivors(init);
      assert AdvanceAll(ps)[..|ps| - 1] == AdvanceAll(init);
      var kept := if last.life > 1.0 then [last] else [];
      assert AdvanceAll(Lasting(init) + kept) == AdvanceAll(Lasting(init)) + AdvanceAll(kept);
    }
  }

  /** A frame keeps the range: when every particle is in range, every
      particle it returns is in range again, with at least one frame of
      life left. */
  lemma SurvivorsInRange(ps: seq<Particle>)
    requires forall p :: p in ps ==> InRange(p)
    ensures forall q :: q in Survivors(AdvanceAll(ps)) ==> InRange(q) && q.life > 0.0
  {
    forall q | q in Survivors(AdvanceAll(ps))
      ensures InRange(q) && q.life > 0.0
    {
      SurvivorsMembers(AdvanceAll(ps), q);
      var k :| 0 <= k < |ps| && AdvanceAll(ps)[k] == q;
      assert ps[k] in ps;
    }
  }
}
