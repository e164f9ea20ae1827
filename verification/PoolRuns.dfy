/**
 The pool's program and the runs of the pool are the same thing: every method of the pool
 class, whatever other goroutines do meanwhile, is a stretch of a run, and so keeps the
 invariant of the runs.
 */
module PoolRuns {
  import opened Bytes
  import opened ReusePool

  /** What a world has beside the pool's own fields. */
  datatype Around = Around(loops: nat, starting: multiset<nat>, draining: multiset<nat>, doomed: set<nat>)

  function WorldOf(p: Pool, a: Around): World
    reads p
  {
    World(p.closed, p.entries, p.hasStop, p.ticking, p.drainCount, p.table, a.loops, a.starting, a.draining, a.doomed)
  }

  /** A stretch of a run, from one world to another. */
  datatype Stretch = Stretch(worlds: seq<World>, labels: seq<Label>)

  ghost predicate Joins(r: Stretch, w: World, w': World) {
    && |r.worlds| == |r.labels| + 1
    && r.worlds[0] == w && r.worlds[|r.labels|] == w'
    && forall k :: 0 <= k < |r.labels| ==> Step(r.worlds[k], r.worlds[k + 1], r.labels[k])
  }

  function Nowhere(w: World): Stretch { Stretch([w], []) }

  function OneMore(r: Stretch, l: Label, w: World): Stretch { Stretch(r.worlds + [w], r.labels + [l]) }

  lemma JoinsNowhere(w: World)
    ensures Joins(Nowhere(w), w, w)
  {
  }

  lemma JoinsOneMore(r: Stretch, w: World, w': World, l: Label, w'': World)
    requires Joins(r, w, w') && Step(w', w'', l)
    ensures Joins(OneMore(r, l, w''), w, w'')
  {
    hide Step;
    var s := OneMore(r, l, w'');
    forall k | 0 <= k < |s.labels| ensures Step(s.worlds[k], s.worlds[k + 1], s.labels[k]) {
      if k < |r.labels| {
        assert Step(r.worlds[k], r.worlds[k + 1], r.labels[k]);
      }
    }
  }

  /** A stretch keeps the invariant of the runs. */
  lemma {:induction false} StretchKeepsInv(r: Stretch, w: World, w': World)
    requires Joins(r, w, w') && Inv(w)
    ensures Inv(w')
    decreases |r.labels|
  {
    hide Inv, Step;
    if r.labels != [] {
      var n := |r.labels| - 1;
      var front := Stretch(r.worlds[..n + 1], r.labels[..n]);
      forall k | 0 <= k < n ensures Step(front.worlds[k], front.worlds[k + 1], front.labels[k]) {
        assert Step(r.worlds[k], r.worlds[k + 1], r.labels[k]);
      }
      StretchKeepsInv(front, w, r.worlds[n]);
      assert Step(r.worlds[n], r.worlds[n + 1], r.labels[n]);
      StepKeepsInv(r.worlds[n], r.worlds[n + 1], r.labels[n]);
    }
  }

  /** Closing sessions outside the lock, one after the other, when they end up closed. */
  lemma {:induction false} ClosingOff(r: Stretch, w: World, w': World, ids: seq<nat>) returns (s: Stretch)
    requires Joins(r, w, w') && AllClosed(ids, w'.table)
    ensures Joins(s, w, w'.(doomed := w'.doomed - Elements(ids)))
    decreases |ids|
  {
    hide Joins;
    if ids == [] {
      s := r;
      assert w'.doomed - Elements(ids) == w'.doomed;
    } else {
      var id := ids[0];
      var mid := w'.(doomed := w'.doomed - {id});
      var next := r;
      assert AllClosed(ids[1..], w'.table);
      if id in w'.doomed {
        AlreadyClosed(w'.table, id);
        assert Step(w', mid, ClosesOne(id));
        JoinsOneMore(r, w, w', ClosesOne(id), mid);
        next := OneMore(r, ClosesOne(id), mid);
      } else {
        assert mid == w';
      }
      s := ClosingOff(next, w, mid, ids[1..]);
      assert mid.doomed - Elements(ids[1..]) == w'.doomed - Elements(ids);
    }
  }

  lemma AlreadyClosed(t: seq<Session>, id: nat)
    requires id < |t| && t[id].state.Closed?
    ensures t[id := CloseSession(t[id])] == t
  {
  }

  /** The other goroutines' moves, and the closings they leave done. */
  lemma Settled(r: Stretch, w: World, w': World, t: seq<Session>, ids: seq<nat>) returns (s: Stretch)
    requires Joins(r, w, w') && AllEvolve(w'.table, t) && AllClosed(ids, t)
    ensures Joins(s, w, w'.(table := t, doomed := w'.doomed - Elements(ids)))
  {
    hide Joins, AllEvolve, AllClosed;
    var moved := w'.(table := t);
    assert Step(w', moved, OthersMove);
    JoinsOneMore(r, w, w', OthersMove, moved);
    s := ClosingOff(OneMore(r, OthersMove, moved), w, moved, ids);
  }

  // ------------------------------------------------------------ what each method is

  lemma InvParts(w: World)
    requires Inv(w)
    ensures AllSound(w.table) && Listed(w.entries, w.table)
  {
  }

  lemma StaysTaking(t: seq<Session>, u: seq<Session>, id: nat)
    requires AllEvolve(t, u) && id < |t| && t[id].place.Taking?
    ensures id < |u| && u[id].place.Taking?
  {
    assert Evolves(t[id], u[id]);
  }

  lemma TakeIsStretch(w: World, entries: seq<Entry>, mid: seq<Session>, end: seq<Session>, now: int,
                      found: Option<nat>, expired: seq<nat>, fates: seq<Fate>)
    returns (r: Stretch, w': World)
    requires Inv(w) && !w.closed && Sweeps(w.entries, entries, w.table, mid, now, true, found, expired, fates)
    requires AllEvolve(mid, end) && AllClosed(expired, end)
    ensures w' == w.(entries := entries, table := HandedOut(end, found), doomed := w'.doomed) && Joins(r, w, w')
    ensures found.Some? ==> found.value < |w'.table| && w'.table[found.value].place.Held?
  {
    hide Inv, Sweeps, AllEvolve, Joins, AllClosed;
    var took := TakeOne(now, found, expired, fates);
    var w1 := w.(entries := entries, table := mid, doomed := w.doomed + Elements(expired));
    JoinsNowhere(w);
    JoinsOneMore(Nowhere(w), w, w, took, w1);
    r := Settled(OneMore(Nowhere(w), took, w1), w, w1, end, expired);
    w' := w1.(table := end, doomed := w1.doomed - Elements(expired));
    if found.Some? {
      var id := found.value;
      TakenWasPooled(w, w1, took, id);
      StaysTaking(mid, end, id);
      var w2 := w'.(table := HandedOut(end, found));
      JoinsOneMore(r, w, w', Deliver(id), w2);
      r, w' := OneMore(r, Deliver(id), w2), w2;
    }
  }

  lemma HandBackIsStretch(w: World, l: Label, w1: World, end: seq<Session>) returns (r: Stretch, w': World)
    requires l.HandBack? && HandBackStep(w, w1, l) && AllEvolve(w1.table, end) && AllClosed(l.expired, end)
    requires !Added(w, l) ==> l.id < |end| && end[l.id].state.Closed?
    ensures w' == w1.(table := end, doomed := w'.doomed) && Joins(r, w, w')
  {
    hide HandBackStep, AllEvolve, Joins, AllClosed;
    JoinsNowhere(w);
    JoinsOneMore(Nowhere(w), w, w, l, w1);
    r := Settled(OneMore(Nowhere(w), l, w1), w, w1, end, l.expired);
    w' := w1.(table := end, doomed := w1.doomed - Elements(l.expired));
    if !Added(w, l) {
      OneClosed(end, l.id);
      r := ClosingOff(r, w, w', [l.id]);
      w' := w'.(doomed := w'.doomed - Elements([l.id]));
    }
  }

  lemma OneClosed(t: seq<Session>, id: nat)
    requires id < |t| && t[id].state.Closed?
    ensures AllClosed([id], t)
  {
  }

  lemma SettledAfter(w: World, l: Label, w1: World, end: seq<Session>, ids: seq<nat>) returns (r: Stretch, w': World)
    requires Step(w, w1, l) && AllEvolve(w1.table, end) && AllClosed(ids, end)
    ensures w' == w1.(table := end, doomed := w'.doomed) && Joins(r, w, w')
  {
    hide Step, AllEvolve, Joins, AllClosed;
    JoinsNowhere(w);
    JoinsOneMore(Nowhere(w), w, w, l, w1);
    r := Settled(OneMore(Nowhere(w), l, w1), w, w1, end, ids);
    w' := w1.(table := end, doomed := w1.doomed - Elements(ids));
  }

  lemma JustOne(w: World, l: Label, w': World) returns (r: Stretch)
    requires Step(w, w', l)
    ensures Joins(r, w, w')
  {
    hide Step;
    JoinsNowhere(w);
    JoinsOneMore(Nowhere(w), w, w, l, w');
    r := OneMore(Nowhere(w), l, w');
  }

  function AroundOf(w: World): Around { Around(w.loops, w.starting, w.draining, w.doomed) }

  // ------------------------------------------------------------ the methods

  method TakeRuns(p: Pool, now: int, others: Others, later: Others, ghost a: Around)
    returns (session: Option<nat>, ghost r: Stretch, ghost a': Around)
    requires Inv(WorldOf(p, a))
    modifies p
    ensures Joins(r, old(WorldOf(p, a)), WorldOf(p, a')) && Inv(WorldOf(p, a'))
    ensures session.Some? ==> session.value < |p.table| && p.table[session.value].place.Held?
    ensures old(p.closed) ==> session.None?
  {
    hide Inv, Sweeps, AllEvolve, Joins, AllClosed, HandedOut, Listed, AllSound;
    ghost var w := WorldOf(p, a);
    InvParts(w);
    var closed, expired;
    ghost var fates, mid, end;
    session, closed, expired, fates, mid, end := p.Take(now, others, later);
    if closed {
      a' := a;
      r := JustOne(w, TakeOne(now, None, [], []), w);
    } else {
      ghost var w';
      r, w' := TakeIsStretch(w, p.entries, mid, end, now, session, expired, fates);
      a' := AroundOf(w');
    }
    StretchKeepsInv(r, w, WorldOf(p, a'));
  }

  /** The caller starts the drainer if the session was added for draining (startDrain). */
  method MoveToPoolRuns(p: Pool, session: nat, state: State, drain: bool, now: int, others: Others, later: Others,
      ghost a: Around)
    returns (added: bool, ghost r: Stretch, ghost a': Around)
    requires Inv(WorldOf(p, a)) && session < |p.table| && p.table[session].place.Returning?
    modifies p
    ensures Joins(r, old(WorldOf(p, a)), WorldOf(p, a')) && Inv(WorldOf(p, a'))
    ensures added && state.Waiting? && drain ==> a'.starting == a.starting + multiset{session}
    ensures old(p.closed) ==> !added
    ensures !added ==> session < |p.table| && p.table[session].state.Closed?
  {
    hide Inv, Sweeps, AllEvolve, Joins, AllClosed, Listed, AllSound, HandedBack;
    ghost var w := WorldOf(p, a);
    InvParts(w);
    var started, expired;
    ghost var fates, kept, mid;
    added, started, expired, fates, kept, mid := p.MoveToPool(session, state, drain, now, others, later);
    ghost var l := HandBack(session, now, state.Waiting? && drain, kept, mid, expired, fates);
    ghost var w1 := w.(
      table := HandedBack(mid, session, added), entries := p.entries, ticking := p.ticking, drainCount := p.drainCount,
      loops := if started then w.loops + 1 else w.loops,
      starting := if added && state.Waiting? && drain then w.starting + multiset{session} else w.starting,
      doomed := w.doomed + Elements(expired) + (if added then {} else {session}));
    ghost var w';
    r, w' := HandBackIsStretch(w, l, w1, p.table);
    a' := AroundOf(w');
    StretchKeepsInv(r, w, WorldOf(p, a'));
  }

  /** A tick of the expire loop, which must be alive. */
  method TickRuns(p: Pool, now: int, others: Others, later: Others, ghost a: Around)
    returns (goesOn: bool, ghost r: Stretch, ghost a': Around)
    requires Inv(WorldOf(p, a)) && a.loops > 0
    modifies p
    ensures Joins(r, old(WorldOf(p, a)), WorldOf(p, a')) && Inv(WorldOf(p, a'))
    ensures a'.loops == if goesOn then a.loops else a.loops - 1
  {
    hide Inv, Sweeps, AllEvolve, Joins, AllClosed, Listed, AllSound;
    ghost var w := WorldOf(p, a);
    InvParts(w);
    var expired;
    ghost var fates, mid;
    goesOn, expired, fates, mid := p.Tick(now, others, later);
    if p.closed {
      a' := a.(loops := a.loops - 1);
      r := JustOne(w, LoopTicks(now, [], []), WorldOf(p, a'));
    } else {
      ghost var w1 := w.(
        entries := p.entries, table := mid, doomed := w.doomed + Elements(expired), ticking := p.ticking,
        loops := if goesOn then w.loops else w.loops - 1);
      ghost var w';
      r, w' := SettledAfter(w, LoopTicks(now, expired, fates), w1, p.table, expired);
      a' := AroundOf(w');
    }
    StretchKeepsInv(r, w, WorldOf(p, a'));
  }

  method ResetRuns(p: Pool, later: Others, ghost a: Around) returns (ghost r: Stretch, ghost a': Around)
    requires Inv(WorldOf(p, a))
    modifies p
    ensures Joins(r, old(WorldOf(p, a)), WorldOf(p, a')) && Inv(WorldOf(p, a'))
  {
    hide Inv, AllEvolve, Joins, AllClosed, Listed, AllSound, Unlisted, Ids;
    ghost var w := WorldOf(p, a);
    InvParts(w);
    p.Reset(later);
    if p.closed {
      a' := a;
      r := JustOne(w, Resets, w);
    } else {
      ghost var w1 := w.(entries := [], table := Unlisted(w.table), doomed := w.doomed + Elements(Ids(w.entries)));
      ghost var w';
      r, w' := SettledAfter(w, Resets, w1, p.table, Ids(w.entries));
      a' := AroundOf(w');
    }
    StretchKeepsInv(r, w, WorldOf(p, a'));
  }

  method CloseRuns(p: Pool, later: Others, ghost a: Around) returns (ghost r: Stretch, ghost a': Around)
    requires Inv(WorldOf(p, a))
    modifies p
    ensures Joins(r, old(WorldOf(p, a)), WorldOf(p, a')) && Inv(WorldOf(p, a'))
    ensures p.closed && p.entries == []
  {
    hide Inv, AllEvolve, Joins, AllClosed, Listed, AllSound, Unlisted, Ids;
    ghost var w := WorldOf(p, a);
    InvParts(w);
    ClosedIsEmpty(w);
    p.Close(later);
    if w.closed {
      a' := a;
      r := JustOne(w, Closes, w);
    } else {
      ghost var w1 := w.(
        closed := true, entries := [], table := Unlisted(w.table), doomed := w.doomed + Elements(Ids(w.entries)));
      ghost var w';
      r, w' := SettledAfter(w, Closes, w1, p.table, Ids(w.entries));
      a' := AroundOf(w');
    }
    StretchKeepsInv(r, w, WorldOf(p, a'));
  }

  lemma ClosedIsEmpty(w: World)
    requires Inv(w)
    ensures w.closed ==> w.entries == []
  {
  }

  /** A drainer that runs may always say it is done: the wait group does not go below zero. */
  method DrainDoneRuns(p: Pool, session: nat, ghost a: Around) returns (ghost r: Stretch, ghost a': Around)
    requires Inv(WorldOf(p, a)) && session in a.draining
    modifies p
    ensures Joins(r, old(WorldOf(p, a)), WorldOf(p, a')) && Inv(WorldOf(p, a'))
  {
    ghost var w := WorldOf(p, a);
    CountsDrainers(w, session);
    hide Inv, Joins;
    p.DrainDone();
    a' := a.(draining := a.draining - multiset{session});
    r := JustOne(w, DrainerDone(session), WorldOf(p, a'));
    StretchKeepsInv(r, w, WorldOf(p, a'));
  }

  lemma CountsDrainers(w: World, session: nat)
    requires Inv(w) && session in w.draining
    ensures w.drainCount > 0
  {
  }

  method InitRuns(p: Pool, ghost a: Around) returns (ghost r: Stretch)
    requires Inv(WorldOf(p, a))
    modifies p
    ensures Joins(r, old(WorldOf(p, a)), WorldOf(p, a)) && Inv(WorldOf(p, a))
  {
    hide Inv, Joins;
    ghost var w := WorldOf(p, a);
    p.Init();
    r := JustOne(w, Inits, WorldOf(p, a));
    StretchKeepsInv(r, w, WorldOf(p, a));
  }
}
