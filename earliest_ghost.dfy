/** The earliest ghost steering (src/ghost.rs): the same greedy scan inlined
    into `choose_next_dir`, with walls given by the entity's Collides set,
    writing NextDir each time a candidate beats the running best. */
module EarliestGhost {
  import opened Wrappers
  import opened Grid
  import opened Layout
  import opened Steering
  import opened LegacyMovement

  predicate Open(collides: set<Tile>, layout: Layout, ahead: GridLocation, loc: GridLocation, d: Dir)
    requires CanProbeAround(ahead)
  {
    ProbeAround(ahead, d);
    var candidateLoc := Shift(ahead, d);
    !CollidesAt(collides, layout, candidateLoc) && candidateLoc != loc
  }

  /** The four candidates around the tile ahead, in the order Up, Left, Down, Right. */
  function CandidatesAround(collides: set<Tile>, layout: Layout, ahead: GridLocation, loc: GridLocation,
                            target: GridLocation): (cs: seq<Candidate>)
    requires CanProbeAround(ahead)
    ensures InOrder(cs)
    ensures forall d :: cs[Rank(d)] == Candidate(d, Open(collides, layout, ahead, loc, d), Distance(ahead, target, d))
  {
    seq(4, i requires 0 <= i < 4 =>
      Candidate(DIRECTIONS[i], Open(collides, layout, ahead, loc, DIRECTIONS[i]), Distance(ahead, target, DIRECTIONS[i])))
  }

  predicate CanLookAhead(collides: set<Tile>, layout: Layout, loc: GridLocation, dir: Dir)
  {
    var ahead := Shift(loc, dir);
    InRows(ahead.y) && (!CollidesAt(collides, layout, ahead) ==> CanProbeAround(ahead))
  }

  /** NextDir after the scan: the first nearest open candidate, or the old
      NextDir when there is none. */
  function AfterChooseNextDir(layout: Layout, m: Motion, target: GridLocation, locChanged: bool): Motion
    requires locChanged ==> CanLookAhead(m.collides, layout, m.loc, m.dir)
  {
    var ahead := Shift(m.loc, m.dir);
    if locChanged && !CollidesAt(m.collides, layout, ahead) then
      match ChosenDir(CandidatesAround(m.collides, layout, ahead, m.loc, target))
      case Some(d) => m.(nextDir := Some(d))
      case None => m
    else m
  }

  /** Only NextDir changes; it never points into a colliding tile or back
      onto the current tile; it is the nearest such direction, the earliest
      on ties; and when no direction qualifies the previous NextDir is kept,
      not cleared. */
  lemma ChooseNextDirEffect(layout: Layout, m: Motion, target: GridLocation, locChanged: bool)
    requires locChanged ==> CanLookAhead(m.collides, layout, m.loc, m.dir)
    ensures var r := AfterChooseNextDir(layout, m, target, locChanged);
            var ahead := Shift(m.loc, m.dir);
            && r == m.(nextDir := r.nextDir)
            && (!locChanged || CollidesAt(m.collides, layout, ahead) ==> r == m)
            && (locChanged && !CollidesAt(m.collides, layout, ahead) ==>
                  && ((forall d :: !Open(m.collides, layout, ahead, m.loc, d)) ==> r == m)
                  && ((exists d :: Open(m.collides, layout, ahead, m.loc, d)) ==>
                        && r.nextDir.Some?
                        && Open(m.collides, layout, ahead, m.loc, r.nextDir.value)
                        && (forall d | Open(m.collides, layout, ahead, m.loc, d) ::
                              Distance(ahead, target, r.nextDir.value) <= Distance(ahead, target, d))
                        && (forall d | Open(m.collides, layout, ahead, m.loc, d) && Rank(d) < Rank(r.nextDir.value) ::
                              Distance(ahead, target, d) > Distance(ahead, target, r.nextDir.value))))
  {
    var ahead := Shift(m.loc, m.dir);
    if locChanged && !CollidesAt(m.collides, layout, ahead) {
      var cs := CandidatesAround(m.collides, layout, ahead, m.loc, target);
      ChosenDirSpec(cs);
    }
  }

  method ChooseNextDir(layout: Layout, m: Mover, target: GridLocation, locChanged: bool)
    requires locChanged ==> CanLookAhead(m.collides, layout, m.loc, m.dir)
    modifies m
    ensures m.View() == AfterChooseNextDir(layout, old(m.View()), target, locChanged)
  {
    if !locChanged {
      return;
    }
    var loc := m.loc;
    var nextLoc := Shift(loc, m.dir);
    if CollidesAt(m.collides, layout, nextLoc) {
      return;
    }
    ghost var cs := CandidatesAround(m.collides, layout, nextLoc, loc, target);
    var distanceToTarget: Option<int> := None;
    var i := 0;
    while i < |DIRECTIONS|
      invariant 0 <= i <= |DIRECTIONS|
      invariant m.loc == loc && m.collides == old(m.collides)
      invariant m.View() == old(m.View()).(nextDir := m.nextDir)
      invariant Scan(cs[..i]).NoBest? <==> distanceToTarget.None?
      invariant Scan(cs[..i]).NoBest? ==> m.nextDir == old(m.nextDir)
      invariant Scan(cs[..i]).Best? ==>
                  m.nextDir == Some(Scan(cs[..i]).dir) && distanceToTarget == Some(Scan(cs[..i]).dist)
    {
      var candidateDir := DIRECTIONS[i];
      var candidateLoc := Shift(nextLoc, candidateDir);
      ProbeAround(nextLoc, candidateDir);
      var collision := CollidesAt(m.collides, layout, candidateLoc);
      var distance := DistanceSquared(candidateLoc, target);
      assert cs[..i + 1][..i] == cs[..i];
      assert cs[i] == Candidate(candidateDir, Open(m.collides, layout, nextLoc, loc, candidateDir),
                                Distance(nextLoc, target, candidateDir));
      if !collision && candidateLoc != loc && (distanceToTarget.None? || distance < distanceToTarget.value) {
        m.nextDir := Some(candidateDir);
        distanceToTarget := Some(distance);
      }
      i := i + 1;
    }
    assert cs[..4] == cs;
  }
}
