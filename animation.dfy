/** The in-buffer confetti animation of showConfetti (src/extension.ts):
    a batch of particles is created on line 0, and every tick advances them,
    projects them onto editor positions, drops the ones that fell past the
    last line and reschedules itself while any remain. */
module Animation {
  import opened Particles

  datatype Option<T> = None | Some(value: T)

  /** Number of particles in a batch. */
  const BatchSize: nat := 50

  /** An open text document, as the lengths of its lines. A document always
      has at least one line (the source reads line 0 unconditionally). */
  type Document = lines: seq<nat> | |lines| > 0 witness [0]

  /** One rendered confetti glyph: the editor position it is attached to
      (its range runs from this column to the next) and its colour. */
  datatype Decoration = Decoration(line: nat, column: nat, color: string)

  /** A source of `Math.random()` draws: the i-th call returns random(i). */
  ghost predicate IsRandomSource(random: nat -> real) {
    forall i :: IsDraw(random(i))
  }

  function Max(a: int, b: int): int { if a < b then b else a }
  function Min(a: int, b: int): int { if a < b then a else b }

  // ---------------------------------------------------------------------
  // Creating the batch

  /** Scaling a length by a draw stays between 0 and that length. */
  lemma ScaleWithin(r: real, n: real)
    requires 0.0 <= r <= 1.0 && n >= 0.0
    ensures 0.0 <= r * n <= n
  {
    assert n - r * n == (1.0 - r) * n;
  }

  /** Particle k of the batch. Each particle consumes four draws: its
      horizontal start, then (in its constructor) colour, horizontal and
      vertical velocity. */
  function BatchParticle(firstLine: nat, random: nat -> real, k: nat): (p: State)
    requires IsRandomSource(random)
    ensures p.y == 0.0 && Falling(p)
    ensures 0.0 <= p.x <= firstLine as real
    ensures -1.0 <= p.vx < 1.0 && p.vy < MaxFallSpeed
    ensures p.color in Palette
  {
    var rx := random(4 * k);
    assert IsDraw(rx);
    ScaleWithin(rx, firstLine as real);
    Spawned(rx * firstLine as real, 0.0, random(4 * k + 1), random(4 * k + 2), random(4 * k + 3))
  }

  /** The values of the whole batch showConfetti creates: 50 particles, all
      on line 0 and falling. */
  ghost function Batch(firstLine: nat, random: nat -> real): (b: seq<State>)
    requires IsRandomSource(random)
    ensures |b| == BatchSize
    ensures DescendedAtLeast(b, 0)
  {
    seq(BatchSize, k requires 0 <= k => BatchParticle(firstLine, random, k))
  }

  // ---------------------------------------------------------------------
  // One tick, as functions of the particle values

  /** Every particle advanced once, each independently of the others. */
  function Steps(ps: seq<State>): (r: seq<State>)
    ensures |r| == |ps|
  {
    if ps == [] then [] else Steps(ps[..|ps| - 1]) + [Advance(ps[|ps| - 1])]
  }

  /** Each particle's step depends on that particle alone. */
  lemma {:induction false} StepsAt(ps: seq<State>)
    ensures forall i :: 0 <= i < |ps| ==> Steps(ps)[i] == Advance(ps[i])
  {
    if ps != [] {
      StepsAt(ps[..|ps| - 1]);
    }
  }

  /** The editor line a particle is drawn on, before the range check. */
  function LineOf(p: State): (line: int)
    ensures line >= 0
    ensures p.y >= 0.0 ==> line as real <= p.y < (line + 1) as real
    ensures p.y < 0.0 ==> line == 0
  {
    Max(0, p.y.Floor)
  }

  /** Projection of a particle onto the document: None when its line is past
      the last one, otherwise the clamped position. Out-of-range columns are
      clamped, never rejected. */
  function Project(p: State, doc: Document): (r: Option<Decoration>)
    ensures r.Some? <==> LineOf(p) < |doc|
    ensures r.Some? <==> p.y < |doc| as real
    ensures r.Some? ==> r.value.line == LineOf(p) && r.value.color == p.color
    ensures r.Some? ==> r.value.column <= doc[r.value.line]
    ensures r.Some? && 0 <= p.x.Floor <= doc[LineOf(p)] ==> r.value.column == p.x.Floor
    ensures r.Some? && p.x.Floor < 0 ==> r.value.column == 0
    ensures r.Some? && p.x.Floor > doc[LineOf(p)] ==> r.value.column == doc[LineOf(p)]
  {
    var line := LineOf(p);
    if line >= |doc| then None
    else Some(Decoration(line, Max(0, Min(p.x.Floor, doc[line])), p.color))
  }

  /** The decorations the forEach pass builds, in particle order: one per
      particle whose projection is inside the document. */
  function Decorate(ps: seq<State>, doc: Document): (ds: seq<Decoration>)
    ensures |ds| <= |ps|
  {
    if ps == [] then []
    else
      Decorate(ps[..|ps| - 1], doc)
      + match Project(ps[|ps| - 1], doc) { case None => [] case Some(d) => [d] }
  }

  /** Every decoration lies inside the document: on an existing line and at
      most at that line's end. */
  lemma {:induction false} DecorateInBounds(ps: seq<State>, doc: Document)
    ensures forall d :: d in Decorate(ps, doc) ==> d.line < |doc| && d.column <= doc[d.line]
  {
    if ps != [] {
      DecorateInBounds(ps[..|ps| - 1], doc);
    }
  }

  /** The survivor filter: the particles above `lineCount`, in order. */
  function Survive(ps: seq<State>, lineCount: nat): (r: seq<State>)
    ensures |r| <= |ps|
  {
    if ps == [] then []
    else
      Survive(ps[..|ps| - 1], lineCount)
      + if ps[|ps| - 1].y < lineCount as real then [ps[|ps| - 1]] else []
  }

  /** The filter keeps a particle exactly when it is above `lineCount`. */
  lemma {:induction false} SurviveKeepsExactly(ps: seq<State>, lineCount: nat)
    ensures forall p :: p in Survive(ps, lineCount) <==> p in ps && p.y < lineCount as real
  {
    if ps != [] {
      SurviveKeepsExactly(ps[..|ps| - 1], lineCount);
      assert ps == ps[..|ps| - 1] + [ps[|ps| - 1]];
    }
  }

  /** Decorating one more particle of a prefix appends that particle's
      projection, if any. */
  lemma DecoratePrefix(ps: seq<State>, doc: Document, i: nat)
    requires i < |ps|
    ensures Decorate(ps[..i + 1], doc)
            == Decorate(ps[..i], doc) + match Project(ps[i], doc) { case None => [] case Some(d) => [d] }
  {
    assert ps[..i + 1][..i] == ps[..i];
  }

  /** The decoration pass treats every particle on its own and keeps their
      order: decorating a concatenation concatenates the decorations. */
  lemma {:induction false} DecorateAppend(a: seq<State>, b: seq<State>, doc: Document)
    ensures Decorate(a + b, doc) == Decorate(a, doc) + Decorate(b, doc)
  {
    if b == [] {
      assert a + b == a;
    } else {
      var init := b[..|b| - 1];
      var tail := match Project(b[|b| - 1], doc) { case None => [] case Some(d) => [d] };
      assert (a + b)[..|a + b| - 1] == a + init;
      calc {
        Decorate(a + b, doc);
        Decorate(a + init, doc) + tail;
        { DecorateAppend(a, init, doc); }
        Decorate(a, doc) + Decorate(init, doc) + tail;
        Decorate(a, doc) + Decorate(b, doc);
      }
    }
  }

  /** The filter keeps the order of the particles: filtering a concatenation
      concatenates the survivors of each part. */
  lemma {:induction false} SurviveAppend(a: seq<State>, b: seq<State>, lineCount: nat)
    ensures Survive(a + b, lineCount) == Survive(a, lineCount) + Survive(b, lineCount)
  {
    if b == [] {
      assert a + b == a;
    } else {
      var init, last := b[..|b| - 1], b[|b| - 1];
      var tail := if last.y < lineCount as real then [last] else [];
      assert (a + b)[..|a + b| - 1] == a + init;
      calc {
        Survive(a + b, lineCount);
        Survive(a + init, lineCount) + tail;
        { SurviveAppend(a, init, lineCount); }
        Survive(a, lineCount) + Survive(init, lineCount) + tail;
        Survive(a, lineCount) + Survive(b, lineCount);
      }
    }
  }

  /** The particles drawn in a tick are exactly the ones that survive it, and
      each decoration is the projection of the survivor in the same place. */
  lemma {:induction false} DecorateMatchesSurvive(ps: seq<State>, doc: Document)
    ensures |Decorate(ps, doc)| == |Survive(ps, |doc|)|
    ensures forall i :: 0 <= i < |Survive(ps, |doc|)| ==>
              Project(Survive(ps, |doc|)[i], doc) == Some(Decorate(ps, doc)[i])
  {
    if ps != [] {
      var init, last := ps[..|ps| - 1], ps[|ps| - 1];
      DecorateMatchesSurvive(init, doc);
    }
  }

  /** What one call of animate produces from the particles it starts with. */
  datatype Frame = Frame(decorations: seq<Decoration>, survivors: seq<State>, reschedule: bool)

  function Animate(ps: seq<State>, doc: Document): (f: Frame)
    ensures |f.decorations| <= |ps| && |f.survivors| <= |ps|
  {
    var moved := Steps(ps);
    var kept := Survive(moved, |doc|);
    Frame(Decorate(moved, doc), kept, |kept| > 0)
  }

  /** A tick draws one decoration per survivor, the projection of that
      survivor, so a tick that stops (it reschedules exactly when some
      particle survives) has nothing left to draw; every survivor is above
      the last line. */
  lemma AnimateFrame(ps: seq<State>, doc: Document)
    ensures |Animate(ps, doc).decorations| == |Animate(ps, doc).survivors| <= |ps|
    ensures !Animate(ps, doc).reschedule ==> Animate(ps, doc).decorations == []
    ensures forall i :: 0 <= i < |Animate(ps, doc).survivors| ==>
              Project(Animate(ps, doc).survivors[i], doc) == Some(Animate(ps, doc).decorations[i])
    ensures forall p :: p in Animate(ps, doc).survivors ==> p.y < |doc| as real
  {
    DecorateMatchesSurvive(Steps(ps), doc);
    SurviveKeepsExactly(Steps(ps), |doc|);
  }

  /** The particles left after k ticks on an unchanging document. */
  function Iterate(ps: seq<State>, doc: Document, k: nat): (r: seq<State>)
    ensures |r| <= |ps|
  {
    if k == 0 then ps else Survive(Steps(Iterate(ps, doc, k - 1)), |doc|)
  }

  /** Every particle is still falling and at least k/2 lines down. */
  predicate DescendedAtLeast(ps: seq<State>, k: nat) {
    forall p :: p in ps ==> Falling(p) && p.y >= k as real * MinFallSpeed
  }

  /** Advancing takes every particle at least half a line further. */
  lemma StepsDescend(ps: seq<State>, k: nat)
    requires DescendedAtLeast(ps, k)
    ensures DescendedAtLeast(Steps(ps), k + 1)
  {
    var moved := Steps(ps);
    StepsAt(ps);
    forall q | q in moved
      ensures Falling(q) && q.y >= (k + 1) as real * MinFallSpeed
    {
      var j :| 0 <= j < |moved| && moved[j] == q;
      AdvanceFalls(ps[j]);
    }
  }

  /** No particle survives when every one is past the last line. */
  lemma {:induction false} SurviveNone(ps: seq<State>, lineCount: nat)
    requires forall p :: p in ps ==> p.y >= lineCount as real
    ensures Survive(ps, lineCount) == []
  {
    if ps != [] {
      assert ps[|ps| - 1] in ps;
      SurviveNone(ps[..|ps| - 1], lineCount);
    }
  }

  /** One tick takes every surviving particle at least half a line further. */
  lemma TickDescends(ps: seq<State>, doc: Document, k: nat)
    requires DescendedAtLeast(ps, k)
    ensures DescendedAtLeast(Animate(ps, doc).survivors, k + 1)
  {
    StepsDescend(ps, k);
    SurviveKeepsExactly(Steps(ps), |doc|);
  }

  lemma {:induction false} IterateDescends(ps: seq<State>, doc: Document, k: nat)
    requires DescendedAtLeast(ps, 0)
    ensures DescendedAtLeast(Iterate(ps, doc, k), k)
  {
    if k > 0 {
      IterateDescends(ps, doc, k - 1);
      TickDescends(Iterate(ps, doc, k - 1), doc, k - 1);
    }
  }

  /** Termination bound: with a fixed document of n lines, no particle of a
      falling batch is left after 2n ticks. */
  lemma AllGoneAfter(ps: seq<State>, doc: Document, k: nat)
    requires DescendedAtLeast(ps, 0)
    requires k >= 2 * |doc|
    ensures Iterate(ps, doc, k) == []
  {
    var before := Iterate(ps, doc, k - 1);
    IterateDescends(ps, doc, k - 1);
    StepsDescend(before, k - 1);
    SurviveNone(Steps(before), |doc|);
  }

  /** Finished is absorbing: once no particle is left, none ever is. */
  lemma {:induction false} FinishedIsFinal(ps: seq<State>, doc: Document, j: nat, k: nat)
    requires j <= k && Iterate(ps, doc, j) == []
    ensures Iterate(ps, doc, k) == []
  {
    if j < k {
      FinishedIsFinal(ps, doc, j, k - 1);
    }
  }

  // ---------------------------------------------------------------------
  // The imperative animator

  /** `index` gives every particle object of `ps` its position, so no
      object appears twice in `ps`. */
  ghost predicate Indexed(ps: seq<Particle>, index: map<Particle, nat>) {
    forall i :: 0 <= i < |ps| ==> ps[i] in index && index[ps[i]] == i
  }

  /** The particle objects `ps` currently hold the values `vs`. */
  ghost predicate Holds(ps: seq<Particle>, vs: seq<State>)
    reads ps
  {
    |ps| == |vs| && forall i :: 0 <= i < |ps| ==> ps[i].Value() == vs[i]
  }

  /** The forEach pass of animate: advance every particle in place and
      collect, in order, the decorations of the ones projected inside the
      document. */
  method AdvanceAll(ps: seq<Particle>, doc: Document, ghost index: map<Particle, nat>, ghost vs: seq<State>)
    returns (drawn: seq<Decoration>)
    requires Indexed(ps, index) && Holds(ps, vs)
    modifies ps
    ensures Holds(ps, Steps(vs))
    ensures drawn == Decorate(Steps(vs), doc)
  {
    ghost var moved := Steps(vs);
    StepsAt(vs);
    drawn := [];
    for i := 0 to |ps|
      invariant forall k :: 0 <= k < i ==> ps[k].Value() == moved[k]
      invariant forall k :: i <= k < |ps| ==> ps[k].Value() == vs[k]
      invariant drawn == Decorate(moved[..i], doc)
    {
      ps[i].Update();
      forall k | 0 <= k < |ps| && k != i
        ensures ps[k] != ps[i]
      {
        assert index[ps[k]] != index[ps[i]];
      }
      DecoratePrefix(moved, doc, i);
      var d := Project(ps[i].Value(), doc);
      if d.Some? {
        drawn := drawn + [d.value];
      }
    }
    assert moved[..|ps|] == moved;
  }

  /** The survivor filter of animate on the particle objects: the ones above
      line `lineCount`, in their order. */
  method KeepVisible(ps: seq<Particle>, lineCount: nat, ghost index: map<Particle, nat>, ghost vs: seq<State>)
    returns (kept: seq<Particle>, ghost keptIndex: map<Particle, nat>)
    requires Indexed(ps, index) && Holds(ps, vs)
    ensures Indexed(kept, keptIndex)
    ensures Holds(kept, Survive(vs, lineCount))
    ensures forall j :: 0 <= j < |kept| ==> kept[j] in ps
  {
    kept, keptIndex := [], map[];
    for i := 0 to |ps|
      invariant Indexed(kept, keptIndex)
      invariant forall j :: 0 <= j < |kept| ==>
                  kept[j] in index && index[kept[j]] < i && ps[index[kept[j]]] == kept[j]
      invariant Holds(kept, Survive(vs[..i], lineCount))
    {
      assert vs[..i + 1][..i] == vs[..i];
      if ps[i].y < lineCount as real {
        kept, keptIndex := kept + [ps[i]], keptIndex[ps[i] := |kept|];
      }
    }
    assert vs[..|ps|] == vs;
  }

  /** The loop of showConfetti that creates the batch: particle k starts in
      state BatchParticle(doc[0], random, k). */
  method NewBatch(doc: Document, random: nat -> real)
    returns (batch: seq<Particle>, ghost vals: seq<State>, ghost ix: map<Particle, nat>)
    requires IsRandomSource(random)
    ensures Indexed(batch, ix) && Holds(batch, vals)
    ensures |vals| == BatchSize
    ensures forall k :: 0 <= k < BatchSize ==> vals[k] == BatchParticle(doc[0], random, k)
    ensures forall k :: 0 <= k < BatchSize ==> fresh(batch[k])
  {
    batch, vals, ix := [], [], map[];
    for i := 0 to BatchSize
      invariant |batch| == |vals| == i
      invariant Indexed(batch, ix)
      invariant forall k :: 0 <= k < i ==> fresh(batch[k])
      invariant forall k :: 0 <= k < i ==> vals[k] == BatchParticle(doc[0], random, k)
      invariant Holds(batch, vals)
    {
      var p := new Particle(random(4 * i) * doc[0] as real, 0.0,
                            random(4 * i + 1), random(4 * i + 2), random(4 * i + 3));
      batch, vals, ix := batch + [p], vals + [BatchParticle(doc[0], random, i)], ix[p := i];
    }
  }

  /** The state showConfetti's closure keeps: the particle list and the
      decorations last handed to the editor. `values` is the list's value. */
  class Animator {
    var particles: seq<Particle>
    var decorations: seq<Decoration>
    ghost var values: seq<State>
    ghost var index: map<Particle, nat>

    ghost predicate Valid()
      reads this, particles
    {
      Indexed(particles, index) && Holds(particles, values)
    }

    /** The 50-particle batch on line 0 of `doc`. */
    constructor (doc: Document, random: nat -> real)
      requires IsRandomSource(random)
      ensures Valid()
      ensures values == Batch(doc[0], random)
      ensures forall k :: 0 <= k < BatchSize ==> fresh(particles[k])
      ensures decorations == []
    {
      ghost var vals, ix;
      var batch;
      batch, vals, ix := NewBatch(doc, random);
      assert vals == Batch(doc[0], random);
      particles, values, index := batch, vals, ix;
      decorations := [];
    }

    /** animate(): one tick on the document as it is now. Returns whether the
        tick reschedules itself. */
    method Tick(doc: Document) returns (reschedule: bool)
      requires Valid()
      modifies this, particles
      ensures Valid()
      ensures forall i :: 0 <= i < |particles| ==> particles[i] in old(particles)
      ensures values == Survive(Steps(old(values)), |doc|)
      ensures reschedule == (values != [])
      ensures decorations == (if reschedule then Decorate(Steps(old(values)), doc) else [])
    {
      var ps := particles;
      ghost var moved := Steps(values);
      var drawn := AdvanceAll(ps, doc, index, values);
      var kept;
      ghost var keptIndex;
      kept, keptIndex := KeepVisible(ps, |doc|, index, moved);
      reschedule := |kept| > 0;
      Commit(if reschedule then drawn else [], kept, Survive(moved, |doc|), keptIndex);
    }

    /** The end of animate: the survivors become the particle list and the
        decorations are handed over. */
    method Commit(drawn: seq<Decoration>, kept: seq<Particle>, ghost vs: seq<State>, ghost ix: map<Particle, nat>)
      requires Indexed(kept, ix) && Holds(kept, vs)
      modifies this
      ensures Valid()
      ensures decorations == drawn && particles == kept && values == vs
    {
      assert forall i :: 0 <= i < |kept| ==> kept[i] as object != this as object;
      decorations, particles, values, index := drawn, kept, vs, ix;
    }

    /** The timer chain: the first tick, then one more tick each time the
        previous one rescheduled, on an unchanging document. */
    method Run(doc: Document) returns (ticks: nat)
      requires Valid()
      requires DescendedAtLeast(values, 0)
      modifies this, particles
      ensures Valid()
      ensures 1 <= ticks <= 2 * |doc|
      ensures Iterate(old(values), doc, ticks) == []
      ensures ticks > 1 ==> Iterate(old(values), doc, ticks - 1) != []
      ensures particles == [] && decorations == []
    {
      var reschedule := true;
      ticks := 0;
      while reschedule
        invariant Valid()
        invariant forall i :: 0 <= i < |particles| ==> particles[i] in old(particles)
        invariant ticks <= 2 * |doc|
        invariant values == Iterate(old(values), doc, ticks)
        invariant ticks > 1 ==> Iterate(old(values), doc, ticks - 1) != []
        invariant !reschedule ==> ticks > 0 && values == [] && decorations == []
        invariant reschedule && ticks > 0 ==> values != []
        decreases 2 * |doc| - ticks
      {
        assert ticks < 2 * |doc| by {
          if ticks >= 2 * |doc| {
            AllGoneAfter(old(values), doc, ticks);
          }
        }
        ghost var before := values;
        reschedule := Tick(doc);
        ticks := ticks + 1;
        assert values == Iterate(old(values), doc, ticks) by {
          assert Iterate(old(values), doc, ticks) == Survive(Steps(before), |doc|);
        }
      }
    }
  }

  /** showConfetti: with no editor nothing is animated; otherwise the fresh
      batch is animated until it has left the document: `ticks` is the first
      tick count after which no particle of the batch is left, at least one
      and at most twice the line count. */
  method ShowConfetti(editor: Option<Document>, random: nat -> real) returns (started: bool, ticks: nat)
    requires IsRandomSource(random)
    ensures started <==> editor.Some?
    ensures !started ==> ticks == 0
    ensures started ==> 1 <= ticks <= 2 * |editor.value|
    ensures started ==> Iterate(Batch(editor.value[0], random), editor.value, ticks) == []
    ensures started && ticks > 1 ==> Iterate(Batch(editor.value[0], random), editor.value, ticks - 1) != []
  {
    if editor.None? {
      return false, 0;
    }
    var animator := new Animator(editor.value, random);
    ghost var batch := animator.values;
    ticks := animator.Run(editor.value);
    started := true;
  }
}
