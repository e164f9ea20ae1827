/**
 What the steps of the pool's runs amount to: the moves of other goroutines make of a session
 exactly what the runs allow them to make of it, a session that was given back is not given
 back again before a Take has handed it out, and Close's wait for the pool's own goroutines
 (internal/reuse/reuse.go) can always come to its end.
 */
module PoolMoves {
  import opened Bytes
  import opened ReusePool
  import opened PoolRuns
  import ReuseClosing

  // ------------------------------------------------------------ what others make of a session

  function AfterMoves(a: Session, moves: seq<Move>): Session
    decreases |moves|
  {
    if moves == [] then a else AfterMoves(MoveOne(a, moves[0]), moves[1..])
  }

  lemma OneMoveEvolves(a: Session, m: Move)
    requires Sound(a)
    ensures Sound(MoveOne(a, m)) && Evolves(a, MoveOne(a, m))
  {
  }

  lemma {:induction false} MovesEvolve(a: Session, moves: seq<Move>)
    requires Sound(a)
    ensures Sound(AfterMoves(a, moves)) && Evolves(a, AfterMoves(a, moves))
    decreases |moves|
  {
    if moves != [] {
      OneMoveEvolves(a, moves[0]);
      MovesEvolve(MoveOne(a, moves[0]), moves[1..]);
    }
  }

  lemma {:induction false} MovesAppend(a: Session, moves: seq<Move>, more: seq<Move>)
    ensures AfterMoves(a, moves + more) == AfterMoves(AfterMoves(a, moves), more)
    decreases |moves|
  {
    hide MoveOne;
    if moves == [] {
      AppendNothing(more);
    } else {
      TailAppend(moves, more);
      MovesAppend(MoveOne(a, moves[0]), moves[1..], more);
    }
  }

  lemma AfterOne(a: Session, m: Move)
    ensures AfterMoves(a, [m]) == MoveOne(a, m)
  {
  }

  /** Giving up, draining and closing, in that order, as far as they are needed. */
  function MovesBetween(a: Session, b: Session): seq<Move>
  {
    (if b.place != a.place then [GivingUp(0, b.state.Waiting?)] else [])
    + ((if a.state.Waiting? && b.state.Ready? then [Drained(0)] else [])
    + (if b.state.Closed? then [Closing(0)] else []))
  }

  lemma MovesAreMade(a: Session, b: Session, given: Session, drained: Session)
    requires given == if b.place != a.place then MoveOne(a, GivingUp(0, b.state.Waiting?)) else a
    requires drained == if a.state.Waiting? && b.state.Ready? then MoveOne(given, Drained(0)) else given
    ensures AfterMoves(a, MovesBetween(a, b)) == if b.state.Closed? then MoveOne(drained, Closing(0)) else drained
  {
    hide MoveOne;
    var giving := if b.place != a.place then [GivingUp(0, b.state.Waiting?)] else [];
    var draining := if a.state.Waiting? && b.state.Ready? then [Drained(0)] else [];
    var closing := if b.state.Closed? then [Closing(0)] else [];
    MovesAppend(a, giving, draining + closing);
    MovesAppend(given, draining, closing);
    AfterOne(a, GivingUp(0, b.state.Waiting?));
    AfterOne(given, Drained(0));
    AfterOne(drained, Closing(0));
  }

  /** Others make of a session exactly what the runs let them make of it. */
  lemma OthersMakeIff(a: Session, b: Session)
    requires Sound(a) && Sound(b)
    ensures Evolves(a, b) <==> exists moves :: AfterMoves(a, moves) == b
  {
    if moves :| AfterMoves(a, moves) == b {
      MovesEvolve(a, moves);
    }
    if Evolves(a, b) {
      var given := if b.place != a.place then MoveOne(a, GivingUp(0, b.state.Waiting?)) else a;
      var drained := if a.state.Waiting? && b.state.Ready? then MoveOne(given, Drained(0)) else given;
      MovesAreMade(a, b, given, drained);
    }
  }

  function TableAfter(t: seq<Session>, moves: seq<Move>): seq<Session>
    decreases |moves|
  {
    if moves == [] then t else TableAfter(Moved(t, moves[0]), moves[1..])
  }

  /** And they may dial any number of sessions, each in its dialler's hands, without touching the others. */
  lemma {:induction false} AnyNumberDialled(t: seq<Session>, n: nat) returns (moves: seq<Move>)
    requires AllSound(t)
    ensures var u := TableAfter(t, moves);
            && |u| == |t| + n && u[..|t|] == t && AllSound(u)
            && forall id :: |t| <= id < |u| ==> u[id].place.Held? && u[id].state.Active?
    decreases n
  {
    hide Sound;
    moves := [];
    if n == 0 {
      assert t[..|t|] == t;
    } else {
      MovedEvolves(t, Dialling);
      var dialled := Moved(t, Dialling);
      var more := AnyNumberDialled(dialled, n - 1);
      moves := [Dialling] + more;
      var u := TableAfter(t, moves);
      assert u == TableAfter(dialled, more) && u[..|t|] == u[..|dialled|][..|t|];
      assert u[|t|] == u[..|dialled|][|t|] == dialled[|t|];
    }
  }

  // ------------------------------------------------------------ handed out and back

  /** In nobody's hands: on the list, or off it for good. */
  predicate Left(a: Session) { a.place.Pooled? || a.place.Removed? }

  lemma SweepLeaves(entries: seq<Entry>, kept: seq<Entry>, t: seq<Session>, u: seq<Session>, now: int, take: bool,
                    found: Option<nat>, expired: seq<nat>, fates: seq<Fate>, id: nat)
    requires Sweeps(entries, kept, t, u, now, take, found, expired, fates) && Listed(entries, t)
    requires id < |t| && Left(t[id]) && found != Some(id)
    ensures id < |u| && Left(u[id])
  {
    hide Sound, FirstReady, Staying, Expirees, TakenOf;
    if Mentions(entries, id) {
      var j := MentionedAt(entries, id);
      assert FateOf(entries[j], fates[j], t[id], u[id], now);
      if fates[j].Taken? {
        TakenIsUnique(entries, fates, take, t, u, now, kept, found, expired, j);
      }
    } else {
      assert Evolves(t[id], u[id]);
    }
  }

  /** Only a Take brings such a session into somebody's hands. */
  lemma StepLeaves(w: World, w': World, l: Label, id: nat)
    requires Inv(w) && Step(w, w', l) && id < |w.table| && Left(w.table[id])
    ensures id < |w'.table|
    ensures !(l.TakeOne? && l.found == Some(id)) ==> Left(w'.table[id])
  {
    hide Sound, FirstReady;
    StepOnSession(w, w', l, id);
    match l
    case TakeOne(now, found, expired, fates) =>
      if !w.closed && found != Some(id) {
        SweepLeaves(w.entries, w'.entries, w.table, w'.table, now, true, found, expired, fates, id);
      }
    case HandBack(_, _, _, _, _, _, _) =>
      if !w.closed {
        SweepLeaves(w.entries, l.kept, w.table, l.mid, l.now, false, None, l.expired, l.fates, id);
      }
    case LoopTicks(now, expired, fates) =>
      if !w.closed {
        SweepLeaves(w.entries, w'.entries, w.table, w'.table, now, false, None, expired, fates, id);
      }
    case _ =>
  }

  lemma {:induction false} TakenBetween(ws: seq<World>, ls: seq<Label>, j: nat, k: nat, id: nat) returns (m: nat)
    requires Run(ws, ls) && j <= k < |ls|
    requires id < |ws[j].table| && Left(ws[j].table[id]) && id < |ws[k].table| && !Left(ws[k].table[id])
    ensures j <= m < k && ls[m].TakeOne? && ls[m].found == Some(id)
    decreases k - j
  {
    hide Inv, Step, Initial, Left;
    RunInv(ws, ls, j);
    RunStep(ws, ls, j);
    StepLeaves(ws[j], ws[j + 1], ls[j], id);
    if ls[j].TakeOne? && ls[j].found == Some(id) {
      m := j;
    } else {
      m := TakenBetween(ws, ls, j + 1, k, id);
    }
  }

  /** A session that was given back is not given back again before a Take has handed it out. */
  lemma ReturnedThenTaken(ws: seq<World>, ls: seq<Label>, j: nat, k: nat, id: nat) returns (m: nat)
    requires Run(ws, ls) && j < k < |ls|
    requires ls[j].HandBack? && ls[j].id == id && ls[k].HandBack? && ls[k].id == id
    ensures j < m < k && ls[m].TakeOne? && ls[m].found == Some(id)
  {
    RunStep(ws, ls, j);
    RunStep(ws, ls, k);
    HandBackLeaves(ws[j], ws[j + 1], ls[j]);
    m := TakenBetween(ws, ls, j + 1, k, id);
  }

  lemma HandBackLeaves(w: World, w': World, l: Label)
    requires l.HandBack? && Step(w, w', l)
    ensures l.id < |w'.table| && Left(w'.table[l.id])
  {
    hide Sweeps, Added;
  }

  // ------------------------------------------------------------ the end of Close

  /** What is left to be done by the goroutines that the pool itself has started. */
  function Outstanding(w: World): nat { w.loops + 2 * |w.starting| + |w.draining| }

  lemma OneLess(m: multiset<nat>, id: nat)
    requires id in m
    ensures |m - multiset{id}| == |m| - 1
  {
  }

  lemma OneMoreOf(m: multiset<nat>, id: nat)
    ensures |m + multiset{id}| == |m| + 1
  {
  }

  lemma StartsNext(w: World, id: nat, w': World)
    requires id in w.starting
    requires w' == w.(starting := w.starting - multiset{id}, draining := w.draining + multiset{id})
    ensures Step(w, w', StartsDrainer(id)) && Outstanding(w') == Outstanding(w) - 1
  {
    OneLess(w.starting, id);
    OneMoreOf(w.draining, id);
  }

  lemma EndsNext(w: World, id: nat, w': World)
    requires id in w.draining
    requires w' == w.(draining := w.draining - multiset{id}, drainCount := w.drainCount - 1)
    ensures Step(w, w', DrainerDone(id)) && Outstanding(w') == Outstanding(w) - 1
  {
    OneLess(w.draining, id);
  }

  lemma StopsNext(w: World, w': World)
    requires w.closed && w.hasStop && w.loops > 0 && w' == w.(loops := w.loops - 1)
    ensures Step(w, w', LoopStops) && Outstanding(w') == Outstanding(w) - 1
  {
  }

  /** One of them can always get on with it. */
  lemma OneGoesOn(w: World) returns (l: Label, w': World)
    requires w.closed && w.hasStop && Outstanding(w) > 0
    ensures Step(w, w', l) && w'.closed && w'.hasStop && Outstanding(w') < Outstanding(w)
  {
    hide Step;
    if w.loops > 0 {
      l, w' := LoopStops, w.(loops := w.loops - 1);
      StopsNext(w, w');
    } else if |w.starting| > 0 {
      var id :| id in w.starting;
      l, w' := StartsDrainer(id), w.(starting := w.starting - multiset{id}, draining := w.draining + multiset{id});
      StartsNext(w, id, w');
    } else {
      var id :| id in w.draining;
      l, w' := DrainerDone(id), w.(draining := w.draining - multiset{id}, drainCount := w.drainCount - 1);
      EndsNext(w, id, w');
    }
  }

  /** Close waits for the drainers: from every closed pool a run goes on to where none of them and no loop is left. */
  lemma {:induction false} CloseCanFinish(w: World) returns (r: Stretch, w': World)
    requires Inv(w) && w.closed && w.hasStop
    ensures Joins(r, w, w') && w'.closed && w'.drainCount == 0 && w'.loops == 0
    decreases Outstanding(w)
  {
    hide Step, ListInv, DoomInv, Joins;
    if Outstanding(w) == 0 {
      JoinsNowhere(w);
      r, w' := Nowhere(w), w;
    } else {
      var l, w1 := OneGoesOn(w);
      StepKeepsInv(w, w1, l);
      r, w' := CloseCanFinish(w1);
      r := JoinsBefore(w, l, r, w1, w');
    }
  }

  lemma JoinsBefore(w: World, l: Label, r: Stretch, w1: World, w': World) returns (s: Stretch)
    requires Step(w, w1, l) && Joins(r, w1, w')
    ensures Joins(s, w, w')
  {
    hide Step;
    s := Stretch([w] + r.worlds, [l] + r.labels);
    forall k | 0 <= k < |s.labels| ensures Step(s.worlds[k], s.worlds[k + 1], s.labels[k]) {
      if k > 0 {
        assert Step(r.worlds[k - 1], r.worlds[k], r.labels[k - 1]);
      }
    }
  }
}
