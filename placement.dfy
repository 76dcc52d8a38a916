/** The placement step the four heuristics share: look for a position; if
    there is one, move the pallet there and offer it to the trailer; if there
    is none, rotate the pallet and look again; if there is still none, turn
    it back. A position that is found but then refused by the trailer ends
    the attempt: the other orientation is not tried, and in the rotated
    branch the pallet stays rotated. */
module Placement {
  import opened Cargo
  import opened Container
  import opened Scans

  /** How one attempt ended: the position found, whether it was found in the
      rotated orientation and whether the trailer accepted the pallet there;
      or no position in either orientation. */
  datatype Attempt =
    | Found(at: Position, rotated: bool, added: bool)
    | NoRoom
  {
    predicate Loaded() { Found? && added }
  }

  /** The attempt the fallback makes for a pallet in state `s`, on the grid
      `g` in front of the loaded boxes `ls`: the best position in its own
      orientation; failing that, the best in the other; failing that, nothing. */
  ghost predicate Chosen(t: Trailer, g: Picture, ls: seq<PalletState>, s: PalletState, scan: Scan, a: Attempt)
  {
    match a
    case NoRoom => !Room(t, g, ls, s, scan) && !Room(t, g, ls, s.Rotated(), scan)
    case Found(at, rotated, _) =>
      if rotated then !Room(t, g, ls, s, scan) && Best(t, g, ls, s.Rotated(), scan, at)
      else Best(t, g, ls, s, scan, at)
  }

  /** The pallet's state after the attempt: moved to the position found, in
      the orientation it was found in, or unchanged when nothing was found. */
  function After(s: PalletState, a: Attempt): (s': PalletState)
    ensures s'.spec == s.spec
    ensures a.NoRoom? ==> s' == s
    ensures a.Found? ==> s'.position == a.at && (s'.rotation == s.rotation <==> !a.rotated)
  {
    match a
    case NoRoom => s
    case Found(at, rotated, _) => (if rotated then s.Rotated() else s).WithPosition(at)
  }

  /** The three checks of `add_pallet` for the box `s` in front of the loaded boxes `ls`. */
  predicate Admits(t: Trailer, ls: seq<PalletState>, s: PalletState)
  {
    && t.Fits(s)
    && !CollidesWithAny(s, ls)
    && TotalLoad(ls) + s.spec.TotalWeight() <= t.maxLoad
  }

  /** The whole attempt: the choice above, accepted exactly when the trailer
      admits the pallet where the attempt moved it. */
  ghost predicate Attempted(t: Trailer, g: Picture, ls: seq<PalletState>, s: PalletState, scan: Scan, a: Attempt)
  {
    && Chosen(t, g, ls, s, scan, a)
    && (a.Found? ==> (a.added <==> Admits(t, ls, After(s, a))))
  }

  /** The branch structure of `load_pallets`, `_load_zone` and `_load_layer`,
      on a trailer whose grid `g` copies. */
  method PlaceWithFallback(t: Trailer, p: Pallet, scan: Scan, ghost g: Picture) returns (a: Attempt)
    requires t.Valid() && t.Shows(g) && !scan.ZoneFloor?
    modifies p, t`loaded, t`distribution, t.spaceMap
    ensures t.Valid()
    ensures t.Shows(if a.Loaded() then g.Then([p.State()]) else g)
    ensures p.State() == After(old(p.State()), a)
    ensures a.Loaded() ==> t.loaded == old(t.loaded) + [p]
    ensures !a.Loaded() ==> t.loaded == old(t.loaded) && t.distribution == old(t.distribution) && unchanged(t.spaceMap)
    ensures a.Found? ==> Within(t, p.State(), scan, a.at)
    ensures p !in old(t.loaded) ==> Attempted(t, g, old(t.Loaded()), old(p.State()), scan, a)
    ensures p !in old(t.loaded) ==> t.Loaded() == old(t.Loaded()) + if a.Loaded() then [p.State()] else []
    ensures p !in old(t.loaded) && old(t.Consistent(t.Loaded())) ==> t.Consistent(t.Loaded())
  {
    var r := Find(t, g, p.State(), scan);
    if r.Some? {
      CandidateWithin(t, g, t.Loaded(), p.State(), scan, r.value);
      var ok := Offer(t, p, r.value, g);
      return Found(r.value, false, ok);
    }
    a := PlaceRotated(t, p, scan, g);
  }

  /** The branch of `PlaceWithFallback` after the first search found nothing. */
  method PlaceRotated(t: Trailer, p: Pallet, scan: Scan, ghost g: Picture) returns (a: Attempt)
    requires t.Valid() && t.Shows(g) && !scan.ZoneFloor?
    modifies p, t`loaded, t`distribution, t.spaceMap
    ensures t.Valid()
    ensures t.Shows(if a.Loaded() then g.Then([p.State()]) else g)
    ensures a.Found? ==> a.rotated && Within(t, p.State(), scan, a.at)
    ensures p.State() == After(old(p.State()), a)
    ensures a.Loaded() ==> t.loaded == old(t.loaded) + [p]
    ensures !a.Loaded() ==> t.loaded == old(t.loaded) && t.distribution == old(t.distribution) && unchanged(t.spaceMap)
    ensures p !in old(t.loaded) && a.NoRoom? ==> !Room(t, g, old(t.Loaded()), old(p.State()).Rotated(), scan)
    ensures p !in old(t.loaded) && a.Found? ==> Best(t, g, old(t.Loaded()), old(p.State()).Rotated(), scan, a.at)
    ensures p !in old(t.loaded) && a.Found? ==> (a.added <==> Admits(t, old(t.Loaded()), p.State()))
    ensures p !in old(t.loaded) ==> t.Loaded() == old(t.Loaded()) + if a.Loaded() then [p.State()] else []
    ensures p !in old(t.loaded) && old(t.Consistent(t.Loaded())) ==> t.Consistent(t.Loaded())
  {
    ghost var ls := t.Loaded();
    var original := p.rotation;
    p.Rotate();
    if p !in t.loaded {
      assert t.Loaded() == ls;
    }
    a := SearchAndOffer(t, p, scan, original, g);
  }

  /** The search in the rotated orientation, and what follows it. */
  method SearchAndOffer(t: Trailer, p: Pallet, scan: Scan, original: Rotation, ghost g: Picture) returns (a: Attempt)
    requires t.Valid() && t.Shows(g) && !scan.ZoneFloor? && p.rotation == Toggle(original)
    modifies p, t`loaded, t`distribution, t.spaceMap
    ensures t.Valid()
    ensures t.Shows(if a.Loaded() then g.Then([p.State()]) else g)
    ensures a.Found? ==> a.rotated && Within(t, p.State(), scan, a.at)
    ensures a.Found? ==> p.State() == old(p.State()).WithPosition(a.at)
    ensures a.NoRoom? ==> p.State() == old(p.State()).Rotated()
    ensures a.Loaded() ==> t.loaded == old(t.loaded) + [p]
    ensures !a.Loaded() ==> t.loaded == old(t.loaded) && t.distribution == old(t.distribution) && unchanged(t.spaceMap)
    ensures p !in old(t.loaded) && a.NoRoom? ==> !Room(t, g, old(t.Loaded()), old(p.State()), scan)
    ensures p !in old(t.loaded) && a.Found? ==> Best(t, g, old(t.Loaded()), old(p.State()), scan, a.at)
    ensures p !in old(t.loaded) && a.Found? ==> (a.added <==> Admits(t, old(t.Loaded()), p.State()))
    ensures p !in old(t.loaded) ==> t.Loaded() == old(t.Loaded()) + if a.Loaded() then [p.State()] else []
    ensures p !in old(t.loaded) && old(t.Consistent(t.Loaded())) ==> t.Consistent(t.Loaded())
  {
    var r := Find(t, g, p.State(), scan);
    if r.Some? {
      CandidateWithin(t, g, t.Loaded(), p.State(), scan, r.value);
      var ok := Offer(t, p, r.value, g);
      return Found(r.value, true, ok);
    }
    if p.rotation != original {
      p.Rotate();
    }
    return NoRoom;
  }

  /** `set_position` followed by `add_pallet`; an accepted pallet's cells are
      written on the grid. */
  method Offer(t: Trailer, p: Pallet, q: Position, ghost g: Picture) returns (ok: bool)
    requires t.Valid() && t.Shows(g)
    modifies p, t`loaded, t`distribution, t.spaceMap
    ensures t.Valid()
    ensures t.Shows(if ok then g.Then([p.State()]) else g)
    ensures p.State() == old(p.State()).WithPosition(q)
    ensures ok ==> t.loaded == old(t.loaded) + [p]
    ensures !ok ==> t.loaded == old(t.loaded) && t.distribution == old(t.distribution) && unchanged(t.spaceMap)
    ensures p !in old(t.loaded) ==> (ok <==> Admits(t, old(t.Loaded()), p.State()))
    ensures p !in old(t.loaded) ==> t.Loaded() == old(t.Loaded()) + if ok then [p.State()] else []
    ensures p !in old(t.loaded) && old(t.Consistent(t.Loaded())) ==> t.Consistent(t.Loaded())
  {
    ghost var ls := t.Loaded();
    p.SetPosition(q.x, q.y, q.z);
    if p !in t.loaded {
      assert t.Loaded() == ls;
    }
    ok := t.AddPallet(p);
    if ok {
      forall i, j, k | 0 <= i < t.spaceMap.Length0 && 0 <= j < t.spaceMap.Length1 && 0 <= k < t.spaceMap.Length2
        ensures t.spaceMap[i, j, k] == g.Then([p.State()]).Cell(i, j, k)
      {
        g.ThenCell(p.State(), i, j, k);
      }
    }
  }

  // ---------------------------------------------------------------------
  // The greedy loop over a list of pallets

  /** No pallet object occurs twice. */
  predicate Distinct(ps: seq<Pallet>)
  {
    forall p :: p in ps ==> multiset(ps)[p] == 1
  }

  predicate Disjoint(ps: seq<Pallet>, qs: seq<Pallet>)
  {
    forall p :: p in ps ==> p !in qs
  }

  lemma DistinctIndices(ps: seq<Pallet>)
    requires Distinct(ps)
    ensures forall j, k :: 0 <= j < k < |ps| ==> ps[j] != ps[k]
  {
    forall j, k | 0 <= j < k < |ps|
      ensures ps[j] != ps[k]
    {
      if ps[j] == ps[k] {
        Repeated(ps, j, k);
        assert false;
      }
    }
  }

  lemma Repeated(ps: seq<Pallet>, j: nat, k: nat)
    requires j < k < |ps| && ps[j] == ps[k]
    ensures multiset(ps)[ps[k]] >= 2
  {
    assert ps == ps[..k] + [ps[k]] + ps[k + 1..];
    assert ps[j] in ps[..k];
  }

  /** The converse of `DistinctIndices`. */
  lemma {:induction false} DistinctByIndex(ps: seq<Pallet>)
    requires forall j, k :: 0 <= j < k < |ps| ==> ps[j] != ps[k]
    ensures Distinct(ps)
  {
    if ps != [] {
      var n := |ps| - 1;
      var front := ps[..n];
      DistinctByIndex(front);
      assert ps == front + [ps[n]];
      assert ps[n] !in front;
      forall p | p in ps
        ensures multiset(ps)[p] == 1
      {
        assert multiset(ps)[p] == multiset(front)[p] + multiset([ps[n]])[p];
      }
    }
  }

  /** Reordering a list keeps it free of repeats and keeps it apart from another. */
  lemma Rearranged(ps: seq<Pallet>, qs: seq<Pallet>, others: seq<Pallet>)
    requires multiset(ps) == multiset(qs)
    ensures forall p :: p in qs <==> p in ps
    ensures forall i :: 0 <= i < |qs| ==> qs[i] in ps
    ensures Distinct(ps) ==> Distinct(qs)
    ensures Disjoint(ps, others) ==> Disjoint(qs, others)
  {
    forall p
      ensures p in qs <==> p in ps
    {
      assert p in qs <==> multiset(qs)[p] > 0;
      assert p in ps <==> multiset(ps)[p] > 0;
    }
  }

  /** The pallets whose attempt ended in the trailer, in order. */
  function Accepted(ps: seq<Pallet>, attempts: seq<Attempt>): (r: seq<Pallet>)
    requires |attempts| == |ps|
    ensures |r| <= |ps|
    ensures forall p :: p in r ==> p in ps
  {
    if ps == [] then []
    else
      var n := |ps| - 1;
      var rest := Accepted(ps[..n], attempts[..n]);
      if attempts[n].Loaded() then rest + [ps[n]] else rest
  }

  /** `Accepted` by index: every accepted pallet is one of the list's. */
  lemma AcceptedWithin(ps: seq<Pallet>, attempts: seq<Attempt>)
    requires |attempts| == |ps|
    ensures forall j :: 0 <= j < |Accepted(ps, attempts)| ==> Accepted(ps, attempts)[j] in ps
  {
    var r := Accepted(ps, attempts);
    forall j | 0 <= j < |r|
      ensures r[j] in ps
    {
      assert r[j] in r;
    }
  }

  /** What the greedy loop knows about the pallet states `states` after `i`
      pallets, started from `s0`: without repeated pallet objects, the first
      `i` have made their attempt, each found position respecting the
      finder's bounds, and the others are as they were. */
  ghost predicate Tracks(t: Trailer, scan: Scan, distinct: bool, s0: seq<PalletState>, states: seq<PalletState>,
                         i: nat, attempts: seq<Attempt>)
  {
    && |states| == |s0| && i <= |s0| && |attempts| == i
    && (distinct ==> forall k :: 0 <= k < i ==> states[k] == After(s0[k], attempts[k]))
    && (distinct ==> forall k :: i <= k < |s0| ==> states[k] == s0[k])
    && (distinct ==> forall k :: 0 <= k < i && attempts[k].Found? ==> Within(t, states[k], scan, attempts[k].at))
  }

  lemma TracksStep(t: Trailer, scan: Scan, distinct: bool, s0: seq<PalletState>, states: seq<PalletState>,
                   states': seq<PalletState>, i: nat, attempts: seq<Attempt>, a: Attempt)
    requires Tracks(t, scan, distinct, s0, states, i, attempts) && i < |s0|
    requires |states'| == |states|
    requires distinct ==> states' == states[i := After(states[i], a)]
    requires distinct && a.Found? ==> Within(t, states'[i], scan, a.at)
    ensures Tracks(t, scan, distinct, s0, states', i + 1, attempts + [a])
  {
  }

  /** The boxes the first `k` attempts put on the trailer, in order: each
      accepted pallet, started from its state in `s0`, as its attempt left it. */
  function Placed(s0: seq<PalletState>, attempts: seq<Attempt>, k: nat): (bs: seq<PalletState>)
    requires k <= |s0| && k <= |attempts|
    ensures |bs| <= k
  {
    if k == 0 then []
    else Placed(s0, attempts, k - 1) + if attempts[k - 1].Loaded() then [After(s0[k - 1], attempts[k - 1])] else []
  }

  /** `Placed` looks at the first `k` attempts only. */
  lemma {:induction false} PlacedPrefix(s0: seq<PalletState>, attempts: seq<Attempt>, a: Attempt, k: nat)
    requires k <= |s0| && k <= |attempts|
    ensures Placed(s0, attempts + [a], k) == Placed(s0, attempts, k)
  {
    if k > 0 {
      PlacedPrefix(s0, attempts, a, k - 1);
      assert (attempts + [a])[k - 1] == attempts[k - 1];
    }
  }

  /** Each of the `attempts` is the fallback's whole attempt for its pallet,
      in its state in `s0`, on the trailer as the earlier attempts left it:
      the grid `g0` with their boxes written, and the boxes `l0` with theirs
      appended. */
  ghost predicate Greedy(t: Trailer, g0: Picture, l0: seq<PalletState>, s0: seq<PalletState>, scan: Scan, attempts: seq<Attempt>)
  {
    && |attempts| <= |s0|
    && forall k :: 0 <= k < |attempts| ==>
         Attempted(t, g0.Then(Placed(s0, attempts, k)), l0 + Placed(s0, attempts, k), s0[k], scan, attempts[k])
  }

  /** The next attempt, made on the trailer as the earlier ones left it, extends `Greedy`. */
  lemma GreedyStep(t: Trailer, g0: Picture, l0: seq<PalletState>, s0: seq<PalletState>, scan: Scan, attempts: seq<Attempt>, a: Attempt)
    requires Greedy(t, g0, l0, s0, scan, attempts) && |attempts| < |s0|
    requires var done := Placed(s0, attempts, |attempts|);
      Attempted(t, g0.Then(done), l0 + done, s0[|attempts|], scan, a)
    ensures Greedy(t, g0, l0, s0, scan, attempts + [a])
  {
    var attempts' := attempts + [a];
    forall k | 0 <= k < |attempts'|
      ensures Attempted(t, g0.Then(Placed(s0, attempts', k)), l0 + Placed(s0, attempts', k), s0[k], scan, attempts'[k])
    {
      PlacedPrefix(s0, attempts, a, k);
      if k < |attempts| {
        assert attempts'[k] == attempts[k];
      }
    }
  }

  /** One more attempt adds its box, if any, to what is on the trailer. */
  lemma PlacedStep(g0: Picture, l0: seq<PalletState>, s0: seq<PalletState>, attempts: seq<Attempt>, a: Attempt)
    requires |attempts| < |s0|
    ensures var i, done := |attempts|, Placed(s0, attempts, |attempts|);
      var box := if a.Loaded() then [After(s0[i], a)] else [];
      && Placed(s0, attempts + [a], i + 1) == done + box
      && g0.Then(Placed(s0, attempts + [a], i + 1)) == (if a.Loaded() then g0.Then(done).Then(box) else g0.Then(done))
      && l0 + Placed(s0, attempts + [a], i + 1) == (l0 + done) + box
  {
    var i := |attempts|;
    var done := Placed(s0, attempts, i);
    var box := if a.Loaded() then [After(s0[i], a)] else [];
    PlacedSnoc(s0, attempts, a);
    ThenThen(g0, done, box);
    AppendAssoc(l0, done, box);
    if !a.Loaded() {
      assert done + box == done;
    }
  }

  /** One more attempt appends its box, if any, to the boxes placed. */
  lemma PlacedSnoc(s0: seq<PalletState>, attempts: seq<Attempt>, a: Attempt)
    requires |attempts| < |s0|
    ensures var i := |attempts|;
      Placed(s0, attempts + [a], i + 1) == Placed(s0, attempts, i) + if a.Loaded() then [After(s0[i], a)] else []
  {
    var i, attempts' := |attempts|, attempts + [a];
    PlacedPrefix(s0, attempts, a, i);
    assert attempts'[i] == a;
  }

  /** How far the greedy loop has got after `i` pallets, started from the
      pallet states `s0`, the loaded list `l0` with the boxes `L0`, the grid
      copy `g0` and the consistency `c0` of the trailer; `g` copies the grid. */
  ghost predicate Progress(t: Trailer, ps: seq<Pallet>, scan: Scan, s0: seq<PalletState>, l0: seq<Pallet>, L0: seq<PalletState>,
                           g0: Picture, c0: bool, i: nat, out: seq<Pallet>, attempts: seq<Attempt>, g: Picture)
    reads t`loaded, t.loaded, ps, t`spaceMap, t.spaceMap
  {
    && |s0| == |ps| && i <= |ps| && |attempts| == i
    && out == Accepted(ps[..i], attempts)
    && t.loaded == l0 + out
    && Tracks(t, scan, Distinct(ps), s0, States(ps), i, attempts)
    && t.Shows(g)
    && (Distinct(ps) ==> g == g0.Then(Placed(s0, attempts, i)))
    && (Distinct(ps) && Disjoint(ps, l0) ==> t.Loaded() == L0 + Placed(s0, attempts, i) && Greedy(t, g0, L0, s0, scan, attempts))
    && (Distinct(ps) && Disjoint(ps, l0) && c0 ==> t.Consistent(t.Loaded()))
  }

  /** The loops of `XYAxisLoading.load_pallets`, `_load_zone` and `_load_layer`:
      every pallet in turn goes through `PlaceWithFallback`, and those the
      trailer accepts are collected. Without repeated pallets, each attempt
      is the fallback's choice on the trailer as the earlier ones left it. */
  method PlaceAll(t: Trailer, ps: seq<Pallet>, scan: Scan, ghost g0: Picture)
      returns (out: seq<Pallet>, ghost attempts: seq<Attempt>, ghost g: Picture)
    requires t.Valid() && t.Shows(g0) && !scan.ZoneFloor?
    modifies ps, t`loaded, t`distribution, t.spaceMap
    ensures t.Valid() && t.Shows(g)
    ensures |attempts| == |ps| && out == Accepted(ps, attempts)
    ensures t.loaded == old(t.loaded) + out
    ensures Distinct(ps) ==> forall k :: 0 <= k < |ps| ==> ps[k].State() == After(old(ps[k].State()), attempts[k])
    ensures Distinct(ps) ==> forall k :: 0 <= k < |ps| && attempts[k].Found? ==> Within(t, ps[k].State(), scan, ps[k].position)
    ensures Distinct(ps) ==> g == g0.Then(Placed(old(States(ps)), attempts, |ps|))
    ensures Distinct(ps) && Disjoint(ps, old(t.loaded)) ==>
              && Greedy(t, g0, old(t.Loaded()), old(States(ps)), scan, attempts)
              && t.Loaded() == old(t.Loaded()) + Placed(old(States(ps)), attempts, |ps|)
    ensures Distinct(ps) && Disjoint(ps, old(t.loaded)) && old(t.Consistent(t.Loaded())) ==> t.Consistent(t.Loaded())
  {
    ghost var s0, l0, L0, c0 := States(ps), t.loaded, t.Loaded(), t.Consistent(t.Loaded());
    out, attempts, g := [], [], g0;
    assert g0.Then([]) == g0 && L0 + [] == L0;
    for i := 0 to |ps|
      invariant t.Valid()
      invariant Progress(t, ps, scan, s0, l0, L0, g0, c0, i, out, attempts, g)
    {
      out, attempts, g := PlaceOne(t, ps, scan, s0, l0, L0, g0, c0, i, out, attempts, g);
    }
    assert ps[..|ps|] == ps;
  }

  /** One turn of the greedy loop. */
  method PlaceOne(t: Trailer, ps: seq<Pallet>, scan: Scan, ghost s0: seq<PalletState>, ghost l0: seq<Pallet>, ghost L0: seq<PalletState>,
                  ghost g0: Picture, ghost c0: bool, i: nat, out0: seq<Pallet>, ghost attempts0: seq<Attempt>, ghost g1: Picture)
      returns (out: seq<Pallet>, ghost attempts: seq<Attempt>, ghost g: Picture)
    requires t.Valid() && !scan.ZoneFloor? && i < |ps|
    requires Progress(t, ps, scan, s0, l0, L0, g0, c0, i, out0, attempts0, g1)
    modifies ps[i], t`loaded, t`distribution, t.spaceMap
    ensures t.Valid()
    ensures Progress(t, ps, scan, s0, l0, L0, g0, c0, i + 1, out, attempts, g)
  {
    ghost var before := States(ps);
    if Distinct(ps) {
      DistinctIndices(ps);
      assert ps[i] !in out0;
    }
    var a := PlaceWithFallback(t, ps[i], scan, g1);
    out := if a.Loaded() then out0 + [ps[i]] else out0;
    attempts := attempts0 + [a];
    g := if a.Loaded() then g1.Then([ps[i].State()]) else g1;
    assert ps[..i + 1][..i] == ps[..i] && attempts[..i] == attempts0;
    if Distinct(ps) {
      assert States(ps) == before[i := ps[i].State()];
      PlacedStep(g0, L0, s0, attempts0, a);
      if Disjoint(ps, l0) {
        GreedyStep(t, g0, L0, s0, scan, attempts0, a);
      }
    }
    TracksStep(t, scan, Distinct(ps), s0, before, States(ps), i, attempts0, a);
  }

  // ---------------------------------------------------------------------
  // Several rounds of the greedy loop, one after the other

  /** The boxes the first `k` rounds put on the trailer: round `j` started
      its pallets from the states `starts[j]` and made the attempts `attempts[j]`. */
  function Rounds(starts: seq<seq<PalletState>>, attempts: seq<seq<Attempt>>, k: nat): seq<PalletState>
    requires k <= |starts| && k <= |attempts|
    requires forall j :: 0 <= j < k ==> |attempts[j]| == |starts[j]|
  {
    if k == 0 then []
    else Rounds(starts, attempts, k - 1) + Placed(starts[k - 1], attempts[k - 1], |starts[k - 1]|)
  }

  /** Round `j` of several was the greedy loop with the finder `scans[j]`,
      over pallets started from `starts[j]`, on the trailer as rounds
      `0..j-1` left it: the grid `g0` and the boxes `l0` with theirs added. */
  ghost predicate GreedyRounds(t: Trailer, g0: Picture, l0: seq<PalletState>, starts: seq<seq<PalletState>>, scans: seq<Scan>,
                               attempts: seq<seq<Attempt>>)
    decreases |attempts|
  {
    && |starts| == |attempts| == |scans|
    && (forall j :: 0 <= j < |attempts| ==> |attempts[j]| == |starts[j]|)
    && (attempts != [] ==>
          var k := |attempts| - 1;
          && GreedyRounds(t, g0, l0, starts[..k], scans[..k], attempts[..k])
          && Round(t, g0, l0, Rounds(starts, attempts, k), starts[k], scans[k], attempts[k]))
  }

  /** One round, after the boxes `done` of the earlier ones. */
  ghost predicate Round(t: Trailer, g0: Picture, l0: seq<PalletState>, done: seq<PalletState>, s: seq<PalletState>, scan: Scan, a: seq<Attempt>)
  {
    Greedy(t, g0.Then(done), l0 + done, s, scan, a)
  }

  /** `Rounds` looks at the first `k` rounds only. */
  lemma {:induction false} RoundsPrefix(starts: seq<seq<PalletState>>, attempts: seq<seq<Attempt>>, s: seq<PalletState>, a: seq<Attempt>, k: nat)
    requires k <= |starts| && k <= |attempts|
    requires forall j :: 0 <= j < k ==> |attempts[j]| == |starts[j]|
    ensures Rounds(starts + [s], attempts + [a], k) == Rounds(starts, attempts, k)
  {
    if k > 0 {
      RoundsPrefix(starts, attempts, s, a, k - 1);
      assert (starts + [s])[k - 1] == starts[k - 1] && (attempts + [a])[k - 1] == attempts[k - 1];
    }
  }

  /** One more round, the greedy loop on the trailer as the earlier rounds left it, extends `GreedyRounds`. */
  lemma GreedyRoundsStep(t: Trailer, g0: Picture, l0: seq<PalletState>, starts: seq<seq<PalletState>>, scans: seq<Scan>,
                         attempts: seq<seq<Attempt>>, s: seq<PalletState>, scan: Scan, a: seq<Attempt>)
    requires GreedyRounds(t, g0, l0, starts, scans, attempts) && |a| == |s|
    requires Round(t, g0, l0, Rounds(starts, attempts, |attempts|), s, scan, a)
    ensures GreedyRounds(t, g0, l0, starts + [s], scans + [scan], attempts + [a])
    ensures Rounds(starts + [s], attempts + [a], |attempts| + 1) == Rounds(starts, attempts, |attempts|) + Placed(s, a, |s|)
  {
    var k, starts', scans', attempts' := |attempts|, starts + [s], scans + [scan], attempts + [a];
    assert starts'[..k] == starts && scans'[..k] == scans && attempts'[..k] == attempts;
    RoundAdded(t, g0, l0, starts, scans, attempts, s, scan, a);
    RoundsSnoc(starts, attempts, s, a);
  }

  /** The last round of the longer record is the new round. */
  lemma RoundAdded(t: Trailer, g0: Picture, l0: seq<PalletState>, starts: seq<seq<PalletState>>, scans: seq<Scan>,
                   attempts: seq<seq<Attempt>>, s: seq<PalletState>, scan: Scan, a: seq<Attempt>)
    requires |starts| == |attempts| == |scans| && |a| == |s|
    requires forall j :: 0 <= j < |attempts| ==> |attempts[j]| == |starts[j]|
    requires Round(t, g0, l0, Rounds(starts, attempts, |attempts|), s, scan, a)
    ensures forall j :: 0 <= j < |attempts| + 1 ==> |(attempts + [a])[j]| == |(starts + [s])[j]|
    ensures var k := |attempts|;
      Round(t, g0, l0, Rounds(starts + [s], attempts + [a], k), (starts + [s])[k], (scans + [scan])[k], (attempts + [a])[k])
  {
    var k := |attempts|;
    RoundsPrefix(starts, attempts, s, a, k);
    assert (starts + [s])[k] == s && (scans + [scan])[k] == scan && (attempts + [a])[k] == a;
  }

  /** The boxes of one more round follow those of the earlier ones. */
  lemma RoundsSnoc(starts: seq<seq<PalletState>>, attempts: seq<seq<Attempt>>, s: seq<PalletState>, a: seq<Attempt>)
    requires |starts| == |attempts| && |a| == |s|
    requires forall j :: 0 <= j < |attempts| ==> |attempts[j]| == |starts[j]|
    ensures Rounds(starts + [s], attempts + [a], |attempts| + 1) == Rounds(starts, attempts, |attempts|) + Placed(s, a, |s|)
  {
    RoundsPrefix(starts, attempts, s, a, |attempts|);
    assert (starts + [s])[|attempts|] == s && (attempts + [a])[|attempts|] == a;
  }

  /** Writing two lists of boxes one after the other is writing them together. */
  lemma ThenThen(g: Picture, a: seq<PalletState>, b: seq<PalletState>)
    ensures g.Then(a).Then(b) == g.Then(a + b)
  {
    assert (g.stamped + a) + b == g.stamped + (a + b);
  }

  // ---------------------------------------------------------------------
  // Lists of lists

  /** The accepted pallets of several rounds, in round order. */
  function Concat(outs: seq<seq<Pallet>>): seq<Pallet>
  {
    if outs == [] then [] else Concat(outs[..|outs| - 1]) + outs[|outs| - 1]
  }

  lemma ConcatSnoc(outs: seq<seq<Pallet>>, last: seq<Pallet>)
    ensures Concat(outs + [last]) == Concat(outs) + last
  {
    assert (outs + [last])[..|outs|] == outs;
  }

  /** Appending is associative; stated once so that the loops need not prove it in a crowded context. */
  lemma AppendAssoc<T>(a: seq<T>, b: seq<T>, c: seq<T>)
    ensures (a + b) + c == a + (b + c)
  {
  }

  /** The concatenation holds only pallets of the rounds, so only pallets of a pool containing them. */
  lemma {:induction false} ConcatFrom(outs: seq<seq<Pallet>>, pool: seq<Pallet>)
    requires forall k, j :: 0 <= k < |outs| && 0 <= j < |outs[k]| ==> outs[k][j] in pool
    ensures forall j :: 0 <= j < |Concat(outs)| ==> Concat(outs)[j] in pool
  {
    if outs != [] {
      var n := |outs| - 1;
      ConcatFrom(outs[..n], pool);
      var front, last := Concat(outs[..n]), outs[n];
      forall j | 0 <= j < |Concat(outs)|
        ensures Concat(outs)[j] in pool
      {
        if j >= |front| {
          assert Concat(outs)[j] == last[j - |front|];
        }
      }
    }
  }
}
