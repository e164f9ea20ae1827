/**
 The pool of reusable client sessions (internal/reuse/reuse.go). Its methods run under a
 lock, but the sessions' states are atomics that other goroutines go on changing while the
 lock is held: a drainer or a late read moves Waiting to Ready, anyone may close a session,
 a holder gives one up, a new one is dialled. `others` says what they do between one access
 and the next, and every claim holds whatever it says.
 */
module ReusePool {
  import opened Bytes
  import ReuseClosing

  type State = ReuseClosing.SessionState

  const POOL_SIZE := 10
  const POOL_MAX_AGE := 180_000_000_000 // nanoseconds

  /** Who is responsible for a session; a history variable. */
  datatype Place =
    | Taking    // taken out by a Take that has not returned yet
    | Held      // dialled or taken, in use
    | Returning // its holder has swapped it out of Active, MoveToPool is to follow
    | Pooled    // in the entry list
    | Removed   // taken off the list, or refused by it

  datatype Session = Session(
    state: State,
    connCloses: nat, // calls of Conn.Close
    place: Place,
    handed: nat,     // times it was dialled or taken
    returned: nat    // times it was put on the list
  )

  datatype Entry = Entry(session: nat, time: int)

  predicate Sound(a: Session) {
    && a.connCloses == (if a.state.Closed? then 1 else 0)
    && a.returned <= a.handed <= a.returned + 1
    && (a.place.Pooled? ==> a.handed == a.returned)
    && (a.place.Taking? || a.place.Held? || a.place.Returning? ==> a.handed == a.returned + 1)
    && (a.place.Taking? || a.place.Held? ==> a.state.Active? || a.state.Closed?)
    && (a.place.Returning? || a.place.Pooled? || a.place.Removed? ==> !a.state.Active?)
  }

  ghost predicate AllSound(t: seq<Session>) {
    forall id :: 0 <= id < |t| ==> Sound(t[id])
  }

  // ------------------------------------------------------------ what other goroutines do

  datatype Move =
    | Drained(id: nat)               // compare-and-swap Waiting to Ready, by a drainer or a read
    | Closing(id: nat)               // Session.Close
    | GivingUp(id: nat, wait: bool)  // compare-and-swap Active to Ready or Waiting, by the holder
    | Dialling                       // a new session

  /** Session.Close: exchanges the state for Closed; only the first to do so closes the connection. */
  function CloseSession(a: Session): Session
  {
    if a.state.Closed? then a else a.(state := ReuseClosing.Closed, connCloses := a.connCloses + 1)
  }

  function MoveOne(a: Session, m: Move): Session
  {
    match m
    case Drained(_) => if a.state.Waiting? then a.(state := ReuseClosing.Ready) else a
    case Closing(_) => CloseSession(a)
    case GivingUp(_, wait) =>
      if a.place.Held? && a.state.Active? then
        a.(state := if wait then ReuseClosing.Waiting else ReuseClosing.Ready, place := Returning)
      else
        a
    case Dialling => a
  }

  function Moved(t: seq<Session>, m: Move): seq<Session>
  {
    if m.Dialling? then t + [Session(ReuseClosing.Active, 0, Held, 1, 0)]
    else if m.id < |t| then t[m.id := MoveOne(t[m.id], m)]
    else t
  }

  /** What moves of others can make of one session: Closed is for good, Ready only ends in Closed. */
  predicate Evolves(a: Session, b: Session) {
    && b.handed == a.handed && b.returned == a.returned
    && (b.place == a.place || (a.place.Held? && b.place.Returning?))
    && (a.state.Closed? ==> b == a)
    && (a.state.Ready? ==> b.state.Ready? || b.state.Closed?)
    && (a.state.Waiting? ==> !b.state.Active?)
  }

  ghost predicate AllEvolve(t: seq<Session>, u: seq<Session>) {
    && |t| <= |u| && AllSound(u)
    && (forall id :: 0 <= id < |t| ==> Evolves(t[id], u[id]))
    && (forall id :: |t| <= id < |u| ==> !u[id].place.Pooled? && !u[id].place.Removed?)
  }

  lemma MovedEvolves(t: seq<Session>, m: Move)
    requires AllSound(t)
    ensures AllEvolve(t, Moved(t, m))
  {
  }

  lemma EvolveTrans(t: seq<Session>, u: seq<Session>, v: seq<Session>)
    requires AllEvolve(t, u) && AllEvolve(u, v)
    ensures AllEvolve(t, v)
  {
  }

  // ------------------------------------------------------------ one traversal of the list

  datatype Fate = Stays | FoundClosed | Expired | Taken

  function Staying(entries: seq<Entry>, fates: seq<Fate>): seq<Entry>
    requires |entries| == |fates|
    decreases |entries|
  {
    if entries == [] then [] else
      var n := |entries| - 1;
      Staying(entries[..n], fates[..n]) + (if fates[n].Stays? then [entries[n]] else [])
  }

  function Expirees(entries: seq<Entry>, fates: seq<Fate>): seq<nat>
    requires |entries| == |fates|
    decreases |entries|
  {
    if entries == [] then [] else
      var n := |entries| - 1;
      Expirees(entries[..n], fates[..n]) + (if fates[n].Expired? then [entries[n].session] else [])
  }

  function TakenOf(entries: seq<Entry>, fates: seq<Fate>): Option<nat>
    requires |entries| == |fates|
    decreases |entries|
  {
    if entries == [] then None else
      var n := |entries| - 1;
      if fates[n].Taken? then Some(entries[n].session) else TakenOf(entries[..n], fates[..n])
  }

  /** What became of one entry, a and b being its session before and after the traversal. */
  predicate FateOf(e: Entry, f: Fate, a: Session, b: Session, now: int) {
    && b.returned == a.returned
    && b.handed == a.handed + (if f.Taken? then 1 else 0)
    && (f.FoundClosed? ==> b.place.Removed? && b.state.Closed?)
    && (!f.FoundClosed? ==> !a.state.Closed? && (f.Expired? <==> now - e.time > POOL_MAX_AGE))
    && (f.Expired? ==> b.place.Removed?)
    && (f.Taken? ==> b.place.Taking?)
    && (f.Stays? ==> Evolves(a, b))
  }

  ghost predicate Listed(entries: seq<Entry>, t: seq<Session>) {
    && (forall i :: 0 <= i < |entries| ==> entries[i].session < |t| && t[entries[i].session].place.Pooled?)
    && (forall i, j :: 0 <= i < j < |entries| ==> entries[i].session != entries[j].session)
  }

  predicate Mentions(entries: seq<Entry>, id: nat) {
    exists i :: 0 <= i < |entries| && entries[i].session == id
  }

  /** The entries a traversal has visited, with their fates, between the tables before and now. */
  ghost predicate Swept(entries: seq<Entry>, fates: seq<Fate>, t: seq<Session>, u: seq<Session>, now: int) {
    && |fates| == |entries| && |t| <= |u| && AllSound(u)
    && (forall i :: 0 <= i < |entries| ==>
      entries[i].session < |t| && FateOf(entries[i], fates[i], t[entries[i].session], u[entries[i].session], now))
    && (forall id :: 0 <= id < |t| && !Mentions(entries, id) ==> Evolves(t[id], u[id]))
    && (forall id :: |t| <= id < |u| ==> !u[id].place.Pooled? && !u[id].place.Removed?)
  }

  /** One entry visited: its fate is decided, the other sessions only evolve. */
  ghost predicate Visits(e: Entry, f: Fate, u: seq<Session>, v: seq<Session>, now: int, take: bool) {
    && e.session < |u| <= |v| && AllSound(v)
    && FateOf(e, f, u[e.session], v[e.session], now)
    && (forall id :: 0 <= id < |u| && id != e.session ==> Evolves(u[id], v[id]))
    && (forall id :: |u| <= id < |v| ==> !v[id].place.Pooled? && !v[id].place.Removed?)
    && (f.Taken? ==> take)
    && (take && f.Stays? && u[e.session].state.Ready? ==> v[e.session].state.Closed?)
  }

  lemma MentionsNext(entries: seq<Entry>, e: Entry, id: nat)
    ensures Mentions(entries + [e], id) <==> Mentions(entries, id) || id == e.session
  {
    var es := entries + [e];
    assert es[|entries|] == e;
    if Mentions(entries, id) {
      var i :| 0 <= i < |entries| && entries[i].session == id;
      assert es[i].session == id;
    }
  }

  /** The fates so far stand, the new one is as given. */
  lemma SweptNext(entries: seq<Entry>, fates: seq<Fate>, e: Entry, f: Fate, t: seq<Session>, u: seq<Session>,
      v: seq<Session>, now: int, take: bool)
    requires Swept(entries, fates, t, u, now) && !Mentions(entries, e.session) && e.session < |t|
    requires Visits(e, f, u, v, now, take)
    ensures Swept(entries + [e], fates + [f], t, v, now)
  {
    var es := entries + [e];
    forall i | 0 <= i < |es|
      ensures es[i].session < |t| && FateOf(es[i], (fates + [f])[i], t[es[i].session], v[es[i].session], now)
    {
      if i < |entries| {
        assert entries[i] == es[i] && Mentions(entries, es[i].session);
      } else {
        assert Evolves(t[e.session], u[e.session]);
      }
    }
    forall id | 0 <= id < |t| && !Mentions(es, id) ensures Evolves(t[id], v[id]) {
      MentionsNext(entries, e, id);
      assert Evolves(t[id], u[id]);
    }
  }

  lemma StayingNext(entries: seq<Entry>, fates: seq<Fate>, e: Entry, f: Fate)
    requires |entries| == |fates|
    ensures Staying(entries + [e], fates + [f]) == Staying(entries, fates) + (if f.Stays? then [e] else [])
    ensures Expirees(entries + [e], fates + [f]) == Expirees(entries, fates) + (if f.Expired? then [e.session] else [])
    ensures TakenOf(entries + [e], fates + [f]) == if f.Taken? then Some(e.session) else TakenOf(entries, fates)
  {
    SplitAppend(entries, [e]);
    SplitAppend(fates, [f]);
  }

  /** The first entry of the list that could be taken is: an entry left in place was not Ready, or has been closed. */
  ghost predicate Passed(entries: seq<Entry>, fates: seq<Fate>, t: seq<Session>, u: seq<Session>, k: nat)
    requires |fates| == |entries| && k < |entries| && entries[k].session < |t| && entries[k].session < |u|
  {
    fates[k].Stays? && (forall j :: 0 <= j < k ==> !fates[j].Taken?) && t[entries[k].session].state.Ready?
    ==> u[entries[k].session].state.Closed?
  }

  ghost predicate FirstReady(entries: seq<Entry>, fates: seq<Fate>, t: seq<Session>, u: seq<Session>)
    requires |fates| == |entries|
             && (forall i :: 0 <= i < |entries| ==> entries[i].session < |t| && entries[i].session < |u|)
  {
    && (forall i, j :: 0 <= i < j < |entries| ==> !(fates[i].Taken? && fates[j].Taken?))
    && (forall k :: 0 <= k < |entries| ==> Passed(entries, fates, t, u, k))
  }

  /** A whole traversal: what stays, what is handed out, what is to be closed. */
  ghost predicate Sweeps(entries: seq<Entry>, entries': seq<Entry>, t: seq<Session>, u: seq<Session>, now: int,
                         take: bool, found: Option<nat>, expired: seq<nat>, fates: seq<Fate>) {
    && Swept(entries, fates, t, u, now)
    && entries' == Staying(entries, fates)
    && expired == Expirees(entries, fates)
    && found == TakenOf(entries, fates)
    && (!take ==> forall i :: 0 <= i < |entries| ==> !fates[i].Taken?)
    && (take ==> FirstReady(entries, fates, t, u))
  }

  lemma {:induction false} TakenOfNone(entries: seq<Entry>, fates: seq<Fate>)
    requires |entries| == |fates|
    ensures TakenOf(entries, fates).None? <==> forall i :: 0 <= i < |entries| ==> !fates[i].Taken?
  {
    if entries != [] {
      var n := |entries| - 1;
      TakenOfNone(entries[..n], fates[..n]);
      assert fates[n].Taken? || forall i :: 0 <= i < n ==> fates[..n][i] == fates[i];
    }
  }

  lemma FirstReadyNext(entries: seq<Entry>, fates: seq<Fate>, e: Entry, f: Fate, t: seq<Session>, u: seq<Session>,
      v: seq<Session>, now: int)
    requires Swept(entries, fates, t, u, now) && FirstReady(entries, fates, t, u)
    requires !Mentions(entries, e.session) && e.session < |t|
    requires Visits(e, f, u, v, now, TakenOf(entries, fates).None?)
    ensures FirstReady(entries + [e], fates + [f], t, v)
  {
    hide Sound;
    var es, fs := entries + [e], fates + [f];
    TakenOfNone(entries, fates);
    forall i | 0 <= i < |es| ensures es[i].session < |t| && es[i].session < |v| && Passed(es, fs, t, v, i) {
      if i < |entries| {
        assert es[i] == entries[i] && Mentions(entries, es[i].session);
        assert Passed(entries, fates, t, u, i);
        assert Evolves(u[es[i].session], v[es[i].session]);
        if forall j :: 0 <= j < i ==> !fs[j].Taken? {
          forall j | 0 <= j < i ensures !fates[j].Taken? { assert fs[j] == fates[j]; }
        }
      } else {
        assert Evolves(t[e.session], u[e.session]);
        if forall j :: 0 <= j < i ==> !fs[j].Taken? {
          forall j | 0 <= j < i ensures !fates[j].Taken? { assert fs[j] == fates[j]; }
        }
      }
    }
  }

  lemma SweepsNext(entries: seq<Entry>, kept: seq<Entry>, t: seq<Session>, u: seq<Session>, now: int, take: bool,
                   found: Option<nat>, expired: seq<nat>, fates: seq<Fate>, e: Entry, f: Fate, v: seq<Session>)
    requires Sweeps(entries, kept, t, u, now, take, found, expired, fates)
    requires !Mentions(entries, e.session) && e.session < |t|
    requires Visits(e, f, u, v, now, take && found.None?)
    ensures Sweeps(entries + [e], kept + (if f.Stays? then [e] else []), t, v, now, take,
                   if f.Taken? then Some(e.session) else found,
                   expired + (if f.Expired? then [e.session] else []), fates + [f])
  {
    hide Sound, Evolves, FateOf, Visits, Swept, Staying, Expirees, TakenOf, FirstReady;
    SweptNext(entries, fates, e, f, t, u, v, now, take && found.None?);
    StayingNext(entries, fates, e, f);
    if take {
      FirstReadyNext(entries, fates, e, f, t, u, v, now);
    } else {
      NeverTaken(e, f, u, v, now);
    }
  }

  lemma NeverTaken(e: Entry, f: Fate, u: seq<Session>, v: seq<Session>, now: int)
    requires Visits(e, f, u, v, now, false)
    ensures !f.Taken?
  {
  }

  lemma SweepsNothing(t: seq<Session>, now: int, take: bool)
    requires AllSound(t)
    ensures Sweeps([], [], t, t, now, take, None, [], [])
  {
  }

  lemma NextEntry(entries: seq<Entry>, k: nat, t: seq<Session>)
    requires Listed(entries, t) && k < |entries|
    ensures entries[k].session < |t| && !Mentions(entries[..k], entries[k].session)
    ensures entries[..k] + [entries[k]] == entries[..k + 1]
  {
  }

  /** A session not visited yet is still pooled. */
  lemma StillPooled(entries: seq<Entry>, kept: seq<Entry>, t: seq<Session>, u: seq<Session>, now: int, take: bool,
                    found: Option<nat>, expired: seq<nat>, fates: seq<Fate>, id: nat)
    requires Sweeps(entries, kept, t, u, now, take, found, expired, fates)
    requires id < |t| && t[id].place.Pooled? && !Mentions(entries, id)
    ensures AllSound(u) && id < |u| && u[id].place.Pooled?
  {
    hide Sound, FateOf, FirstReady;
    assert Evolves(t[id], u[id]);
  }

  lemma {:induction false} ExpireesAre(entries: seq<Entry>, fates: seq<Fate>, id: nat)
    requires |entries| == |fates|
    ensures id in Expirees(entries, fates) <==>
            exists i :: 0 <= i < |entries| && fates[i].Expired? && entries[i].session == id
  {
    if entries != [] {
      var n := |entries| - 1;
      ExpireesAre(entries[..n], fates[..n], id);
    }
  }

  ghost predicate AllClosed(ids: seq<nat>, t: seq<Session>) {
    forall i :: 0 <= i < |ids| ==> ids[i] < |t| && t[ids[i]].state.Closed?
  }

  lemma ClosingOne(t: seq<Session>, id: nat)
    requires AllSound(t) && id < |t|
    ensures AllEvolve(t, t[id := CloseSession(t[id])]) && CloseSession(t[id]).state.Closed?
  {
    MovedEvolves(t, Closing(id));
  }

  /** The ids a traversal wants closed are ids of the table. */
  lemma SweptIds(entries: seq<Entry>, kept: seq<Entry>, t: seq<Session>, u: seq<Session>, now: int, take: bool,
                 found: Option<nat>, expired: seq<nat>, fates: seq<Fate>)
    requires Sweeps(entries, kept, t, u, now, take, found, expired, fates)
    ensures AllSound(u) && |t| <= |u|
    ensures forall i :: 0 <= i < |expired| ==> expired[i] < |u|
  {
    hide Sound, FateOf, FirstReady;
    forall i | 0 <= i < |expired| ensures expired[i] < |u| {
      ExpireesAre(entries, fates, expired[i]);
    }
  }

  lemma NothingTaken(entries: seq<Entry>, kept: seq<Entry>, t: seq<Session>, u: seq<Session>, now: int,
                     found: Option<nat>, expired: seq<nat>, fates: seq<Fate>)
    requires Sweeps(entries, kept, t, u, now, false, found, expired, fates)
    ensures found == None
  {
    TakenOfNone(entries, fates);
  }

  lemma StillReturning(entries: seq<Entry>, kept: seq<Entry>, t: seq<Session>, u: seq<Session>, now: int,
                       expired: seq<nat>, fates: seq<Fate>, id: nat)
    requires Sweeps(entries, kept, t, u, now, false, None, expired, fates) && Listed(entries, t)
    requires id < |t| && t[id].place.Returning?
    ensures id < |u| && u[id].place.Returning?
  {
    hide Sound, FateOf, FirstReady;
    assert Evolves(t[id], u[id]);
  }

  /** The session that Take found, in its caller's hands. */
  function HandedOut(t: seq<Session>, session: Option<nat>): seq<Session>
  {
    if session.Some? && session.value < |t| then t[session.value := t[session.value].(place := Held)] else t
  }

  /** The session's place once MoveToPool has decided. */
  function HandedBack(t: seq<Session>, id: nat, added: bool): seq<Session>
    requires id < |t|
  {
    if added then t[id := t[id].(place := Pooled, returned := t[id].returned + 1)]
      else t[id := t[id].(place := Removed)]
  }

  lemma HandedBackSound(t: seq<Session>, id: nat, added: bool)
    requires AllSound(t) && id < |t| && t[id].place.Returning?
    ensures AllSound(HandedBack(t, id, added))
  {
  }

  /** The table once the list has been emptied. */
  function Unlisted(t: seq<Session>): seq<Session>
  {
    seq(|t|, i requires 0 <= i < |t| => if t[i].place.Pooled? then t[i].(place := Removed) else t[i])
  }

  function Ids(entries: seq<Entry>): (ids: seq<nat>)
    ensures |ids| == |entries| && forall i :: 0 <= i < |ids| ==> ids[i] == entries[i].session
  {
    if entries == [] then [] else [entries[0].session] + Ids(entries[1..])
  }

  type Others = nat -> seq<Move>

  class Pool {
    var closed: bool
    var entries: seq<Entry>
    var hasStop: bool  // stop has been made by Init
    var ticking: bool
    var drainCount: int // drainWg
    var table: seq<Session> // the sessions' atomics

    /** The other goroutines run. */
    method Interfere(moves: seq<Move>)
      requires AllSound(table)
      modifies `table
      ensures AllEvolve(old(table), table)
    {
      var i := 0;
      while i < |moves|
        invariant 0 <= i <= |moves|
        invariant AllEvolve(old(table), table)
      {
        MovedEvolves(table, moves[i]);
        EvolveTrans(old(table), table, Moved(table, moves[i]));
        table := Moved(table, moves[i]);
        i := i + 1;
      }
    }

    /** One round of the traversal: the state is loaded, and compared and swapped if it is to be taken. */
    method Visit(e: Entry, now: int, take: bool, before: seq<Move>, between: seq<Move>) returns (fate: Fate)
      requires AllSound(table) && e.session < |table| && table[e.session].place.Pooled?
      modifies `table
      ensures Visits(e, fate, old(table), table, now, take)
    {
      Interfere(before);
      var a := table[e.session];
      if a.state.Closed? {
        fate, table := FoundClosed, table[e.session := a.(place := Removed)];
      } else if now - e.time > POOL_MAX_AGE {
        fate, table := Expired, table[e.session := a.(place := Removed)];
      } else {
        fate := Stays;
        if take && a.state.Ready? {
          Interfere(between);
          a := table[e.session];
          if a.state.Ready? {
            fate, table := Taken,
              table[e.session := a.(state := ReuseClosing.Active, place := Taking, handed := a.handed + 1)];
          }
        }
      }
    }

    /** The traversal that Take, MoveToPool and the expire loop share; only Take takes. */
    method Sweep(now: int, take: bool, others: Others)
      returns (found: Option<nat>, expired: seq<nat>, ghost fates: seq<Fate>)
      requires AllSound(table) && Listed(entries, table)
      modifies `entries, `table
      ensures Sweeps(old(entries), entries, old(table), table, now, take, found, expired, fates)
    {
      hide Sweeps, Sound, Evolves, Visits;
      found, expired, fates := None, [], [];
      ghost var was, start := entries, table;
      SweepsNothing(start, now, take);
      var i, k := 0, 0;
      while i < |entries|
        invariant 0 <= k <= |was| == k + |entries| - i
        invariant i <= |entries|
        invariant entries[i..] == was[k..]
        invariant |start| <= |table|
        invariant Sweeps(was[..k], entries[..i], start, table, now, take, found, expired, fates)
        decreases |entries| - i
      {
        var e := entries[i];
        ghost var kept, mid := entries[..i], table;
        NextEntry(was, k, start);
        StillPooled(was[..k], kept, start, table, now, take, found, expired, fates, e.session);
        var fate := Visit(e, now, take && found.None?, others(2 * k), others(2 * k + 1));
        SweepsNext(was[..k], kept, start, mid, now, take, found, expired, fates, e, fate, table);
        fates := fates + [fate];
        AppendNothing(expired);
        if fate.Stays? {
          i := i + 1;
          assert entries[..i] == kept + [e];
        } else {
          entries := entries[..i] + entries[i + 1..];
          assert entries[..i] == kept + [];
          if fate.Expired? {
            expired := expired + [e.session];
          }
          if fate.Taken? {
            found := Some(e.session);
          }
        }
        k := k + 1;
      }
      assert was[..k] == was && entries[..i] == entries;
    }

    /** Session.Close for each of them, outside the lock. */
    method CloseAll(ids: seq<nat>, others: Others)
      requires AllSound(table) && forall i :: 0 <= i < |ids| ==> ids[i] < |table|
      modifies `table
      ensures AllEvolve(old(table), table)
      ensures AllClosed(ids, table)
    {
      hide Sound, CloseSession, Moved;
      var n := 0;
      while n < |ids|
        invariant 0 <= n <= |ids|
        invariant AllEvolve(old(table), table)
        invariant AllClosed(ids[..n], table)
      {
        Interfere(others(n));
        ClosingOne(table, ids[n]);
        table := table[ids[n] := CloseSession(table[ids[n]])];
        assert ids[..n + 1] == ids[..n] + [ids[n]];
        n := n + 1;
      }
      assert ids[..n] == ids;
    }

    method Init()
      modifies `entries, `hasStop
      ensures hasStop && entries == if old(hasStop) then old(entries) else []
    {
      if !hasStop {
        entries, hasStop := [], true;
      }
    }

    /**
     A Ready session for a new connection; mid is the table when the lock was released, end
     the table when the expired sessions were closed and the session is handed out.
     */
    method Take(now: int, others: Others, later: Others)
      returns (
        session: Option<nat>, wasClosed: bool, expired: seq<nat>,
        ghost fates: seq<Fate>, ghost mid: seq<Session>, ghost end: seq<Session>)
      requires AllSound(table) && Listed(entries, table)
      modifies `entries, `table
      ensures wasClosed == old(closed)
      ensures wasClosed ==> session.None? && entries == old(entries) && table == old(table)
      ensures !wasClosed ==> Sweeps(old(entries), entries, old(table), mid, now, true, session, expired, fates)
      ensures !wasClosed ==> AllEvolve(mid, end) && AllClosed(expired, end) && table == HandedOut(end, session)
    {
      hide Sweeps, AllEvolve;
      session, wasClosed, expired, fates, mid, end := None, closed, [], [], table, table;
      if !closed {
        session, expired, fates := Sweep(now, true, others);
        mid := table;
        SweptIds(old(entries), entries, old(table), mid, now, true, session, expired, fates);
        CloseAll(expired, later);
        end := table;
        table := HandedOut(table, session);
      }
    }

    /**
     A session handed back by its holder. It is kept if the pool is open and has room after the
     traversal, and closed otherwise; kept and mid are the list and the table after the traversal.
     */
    method MoveToPool(session: nat, state: State, drain: bool, now: int, others: Others, later: Others)
      returns (added: bool, started: bool, expired: seq<nat>, ghost fates: seq<Fate>, ghost kept: seq<Entry>,
        ghost mid: seq<Session>)
      requires AllSound(table) && Listed(entries, table)
      requires session < |table| && table[session].place.Returning?
      modifies `entries, `table, `ticking, `drainCount
      ensures old(closed) ==> kept == old(entries) && mid == old(table) && expired == []
      ensures !old(closed) ==> Sweeps(old(entries), kept, old(table), mid, now, false, None, expired, fates)
      ensures session < |mid| && mid[session].place.Returning?
      ensures added <==> !closed && hasStop && |kept| < POOL_SIZE
      ensures entries == if added then kept + [Entry(session, now)] else kept
      ensures drainCount == old(drainCount) + (if added && state.Waiting? && drain then 1 else 0)
      ensures started <==> added && !old(ticking)
      ensures ticking <==> added || old(ticking)
      ensures AllEvolve(HandedBack(mid, session, added), table)
      ensures AllClosed(expired, table)
      ensures session < |table| && (!added ==> table[session].state.Closed?)
    {
      hide Sweeps, Sound, Evolves;
      expired, fates, kept, mid := [], [], entries, table;
      if !closed {
        var none;
        none, expired, fates := Sweep(now, false, others);
        kept, mid := entries, table;
        NothingTaken(old(entries), entries, old(table), mid, now, none, expired, fates);
        SweptIds(old(entries), entries, old(table), mid, now, false, none, expired, fates);
        StillReturning(old(entries), entries, old(table), mid, now, expired, fates, session);
      }
      added, started := false, false;
      if !closed && hasStop && |entries| < POOL_SIZE {
        entries := entries + [Entry(session, now)];
        if state.Waiting? && drain {
          drainCount := drainCount + 1;
        }
        added := true;
        if !ticking {
          ticking, started := true, true;
        }
      }
      HandedBackSound(table, session, added);
      table := HandedBack(table, session, added);
      ghost var start := table;
      CloseAll(expired, later);
      if !added {
        ghost var between := table;
        MovedEvolves(table, Closing(session));
        table := table[session := CloseSession(table[session])];
        EvolveTrans(start, between, table);
      }
    }

    /** One tick of the expire loop; it goes on while the pool is open and not empty. */
    method Tick(now: int, others: Others, later: Others)
      returns (goesOn: bool, expired: seq<nat>, ghost fates: seq<Fate>, ghost mid: seq<Session>)
      requires AllSound(table) && Listed(entries, table)
      modifies `entries, `table, `ticking
      ensures closed ==> entries == old(entries) && table == old(table) && !goesOn
      ensures !closed ==> Sweeps(old(entries), entries, old(table), mid, now, false, None, expired, fates)
      ensures !closed ==> AllEvolve(mid, table) && AllClosed(expired, table)
      ensures !closed ==> (goesOn <==> entries != [])
      ensures ticking <==> goesOn && old(ticking)
    {
      hide Sweeps, AllEvolve;
      expired, fates, mid := [], [], table;
      if closed {
        ticking, goesOn := false, false;
        return;
      }
      var none;
      none, expired, fates := Sweep(now, false, others);
      mid := table;
      NothingTaken(old(entries), entries, old(table), mid, now, none, expired, fates);
      SweptIds(old(entries), entries, old(table), mid, now, false, none, expired, fates);
      goesOn := entries != [];
      if !goesOn {
        ticking := false;
      }
      CloseAll(expired, later);
    }

    method Reset(later: Others)
      requires AllSound(table) && Listed(entries, table)
      modifies `entries, `table
      ensures closed ==> entries == old(entries) && table == old(table)
      ensures !closed ==> entries == [] && AllEvolve(Unlisted(old(table)), table) && AllClosed(Ids(old(entries)), table)
    {
      if !closed {
        var sessions := Ids(entries);
        entries := [];
        table := Unlisted(table);
        CloseAll(sessions, later);
      }
    }

    /** Everything Close does before it waits for the drainers. */
    method Close(later: Others)
      requires AllSound(table) && Listed(entries, table)
      modifies `closed, `entries, `table
      ensures closed
      ensures old(closed) ==> entries == old(entries) && table == old(table)
      ensures !old(closed) ==>
              entries == [] && AllEvolve(Unlisted(old(table)), table) && AllClosed(Ids(old(entries)), table)
    {
      if !closed {
        closed := true;
        var sessions := Ids(entries);
        entries := [];
        table := Unlisted(table);
        CloseAll(sessions, later);
      }
    }

    method DrainDone()
      requires drainCount > 0 // the wait group panics below zero
      modifies `drainCount
      ensures drainCount == old(drainCount) - 1
    {
      drainCount := drainCount - 1;
    }
  }

  // ------------------------------------------------------------ whole runs

  /** The pool, its sessions, and who still has something to do. */
  datatype World = World(
    closed: bool, entries: seq<Entry>, hasStop: bool, ticking: bool, drainCount: int, table: seq<Session>,
    loops: nat,      // expire loops alive
    starting: multiset<nat>, // sessions added for draining whose drainer is still to be started
    draining: multiset<nat>, // drainers that have not called DrainDone
    doomed: set<nat> // sessions some method is about to close, outside the lock
  )

  /** One critical section, or one step outside the lock. */
  datatype Label =
    | OthersMove
    | TakeOne(now: int, found: Option<nat>, expired: seq<nat>, fates: seq<Fate>)
    | Deliver(id: nat) // Take returns
    | HandBack(id: nat, now: int, drains: bool, kept: seq<Entry>, mid: seq<Session>, expired: seq<nat>,
      fates: seq<Fate>)
    | LoopTicks(now: int, expired: seq<nat>, fates: seq<Fate>)
    | LoopStops        // the expire loop sees stop closed
    | Resets
    | Closes
    | ClosesOne(id: nat)
    | StartsDrainer(id: nat) // startDrain, once MoveToPool has added the session
    | DrainerDone(id: nat)   // the end of drain
    | Inits

  function Elements(ids: seq<nat>): set<nat> { set id | id in ids }

  predicate Added(w: World, l: Label)
    requires l.HandBack?
  {
    !w.closed && w.hasStop && |l.kept| < POOL_SIZE
  }

  ghost predicate HandBackStep(w: World, w': World, l: Label)
    requires l.HandBack?
  {
    && l.id < |w.table| && w.table[l.id].place.Returning? && l.id < |l.mid|
    && (if w.closed then l.kept == w.entries && l.mid == w.table && l.expired == []
        else Sweeps(w.entries, l.kept, w.table, l.mid, l.now, false, None, l.expired, l.fates))
    && w' == w.(table := HandedBack(l.mid, l.id, Added(w, l)),
                entries := if Added(w, l) then l.kept + [Entry(l.id, l.now)] else l.kept,
                ticking := w.ticking || Added(w, l),
                loops := if Added(w, l) && !w.ticking then w.loops + 1 else w.loops,
                drainCount := if Added(w, l) && l.drains then w.drainCount + 1 else w.drainCount,
                starting := if Added(w, l) && l.drains then w.starting + multiset{l.id} else w.starting,
                doomed := w.doomed + Elements(l.expired) + (if Added(w, l) then {} else {l.id}))
  }

  ghost predicate LoopStep(w: World, w': World, l: Label)
    requires l.LoopTicks?
  {
    && w.loops > 0
    && (if w.closed then
          w' == w.(ticking := false, loops := w.loops - 1)
        else
          && Sweeps(w.entries, w'.entries, w.table, w'.table, l.now, false, None, l.expired, l.fates)
          && w' == w.(entries := w'.entries, table := w'.table, doomed := w.doomed + Elements(l.expired),
                      ticking := w.ticking && w'.entries != [],
                      loops := if w'.entries != [] then w.loops else w.loops - 1))
  }

  ghost predicate Step(w: World, w': World, l: Label) {
    match l
    case OthersMove => AllEvolve(w.table, w'.table) && w' == w.(table := w'.table)
    case TakeOne(now, found, expired, fates) =>
      if w.closed then w' == w && found.None?
      else
        && Sweeps(w.entries, w'.entries, w.table, w'.table, now, true, found, expired, fates)
        && w' == w.(entries := w'.entries, table := w'.table, doomed := w.doomed + Elements(expired))
    case Deliver(id) =>
      && id < |w.table| && w.table[id].place.Taking?
      && w' == w.(table := w.table[id := w.table[id].(place := Held)])
    case HandBack(_, _, _, _, _, _, _) => HandBackStep(w, w', l)
    case LoopTicks(_, _, _) => LoopStep(w, w', l)
    case LoopStops => w.closed && w.hasStop && w.loops > 0 && w' == w.(loops := w.loops - 1)
    case Resets =>
      if w.closed then w' == w
      else w' == w.(entries := [], table := Unlisted(w.table), doomed := w.doomed + Elements(Ids(w.entries)))
    case Closes =>
      if w.closed then w' == w
      else w' == w.(closed := true, entries := [], table := Unlisted(w.table),
        doomed := w.doomed + Elements(Ids(w.entries)))
    case ClosesOne(id) =>
      && id in w.doomed && id < |w.table|
      && w' == w.(table := w.table[id := CloseSession(w.table[id])], doomed := w.doomed - {id})
    case StartsDrainer(id) =>
      id in w.starting && w' == w.(starting := w.starting - multiset{id}, draining := w.draining + multiset{id})
    case DrainerDone(id) =>
      id in w.draining && w' == w.(draining := w.draining - multiset{id}, drainCount := w.drainCount - 1)
    case Inits => w' == if w.hasStop then w else w.(entries := [], hasStop := true)
  }

  ghost predicate Initial(w: World) {
    w == World(false, [], false, false, 0, [], 0, multiset{}, multiset{}, {})
  }

  ghost predicate Run(ws: seq<World>, ls: seq<Label>) {
    && |ws| == |ls| + 1 && Initial(ws[0])
    && forall k :: 0 <= k < |ls| ==> Step(ws[k], ws[k + 1], ls[k])
  }

  // ------------------------------------------------------------ what every run keeps

  /** Each pooled session is on the list exactly once. */
  ghost predicate ListInv(entries: seq<Entry>, t: seq<Session>) {
    && AllSound(t) && Listed(entries, t) && |entries| <= POOL_SIZE
    && forall id :: 0 <= id < |t| && t[id].place.Pooled? ==> Mentions(entries, id)
  }

  /** Exactly one expire loop serves an open pool that is not empty. */
  predicate LoopInv(w: World) {
    && w.loops <= 1
    && (!w.closed ==> (w.ticking <==> w.loops == 1))
    && (!w.closed && w.entries != [] ==> w.ticking)
    && (w.closed ==> w.entries == [])
    && (!w.hasStop ==> w.entries == [])
  }

  /** What was taken off the list and not handed out is closed, or about to be. */
  ghost predicate DoomInv(t: seq<Session>, doomed: set<nat>) {
    forall id :: 0 <= id < |t| && t[id].place.Removed? ==> t[id].state.Closed? || id in doomed
  }

  ghost predicate Inv(w: World) {
    ListInv(w.entries, w.table) && LoopInv(w) && DoomInv(w.table, w.doomed)
    && w.drainCount == |w.starting| + |w.draining|
  }

  /** An entry that its visit left on the list. */
  ghost predicate Stayed(entries: seq<Entry>, fates: seq<Fate>, e: Entry)
    requires |entries| == |fates|
  {
    exists i :: 0 <= i < |entries| && fates[i].Stays? && entries[i] == e
  }

  ghost predicate Distinct(entries: seq<Entry>) {
    forall i, j :: 0 <= i < j < |entries| ==> entries[i].session != entries[j].session
  }

  lemma StayedOneMore(entries: seq<Entry>, fates: seq<Fate>, e: Entry)
    requires |entries| == |fates| > 0
    ensures var n := |entries| - 1;
            Stayed(entries, fates, e) <==>
            Stayed(entries[..n], fates[..n], e) || (fates[n].Stays? && entries[n] == e)
  {
    var n := |entries| - 1;
    if i :| 0 <= i < |entries| && fates[i].Stays? && entries[i] == e && i < n {
      assert fates[..n][i].Stays? && entries[..n][i] == e;
    }
    if Stayed(entries[..n], fates[..n], e) {
      var i :| 0 <= i < n && fates[..n][i].Stays? && entries[..n][i] == e;
      assert fates[i].Stays? && entries[i] == e;
    }
  }

  lemma {:induction false} StayingMember(entries: seq<Entry>, fates: seq<Fate>, e: Entry)
    requires |entries| == |fates|
    ensures |Staying(entries, fates)| <= |entries|
    ensures e in Staying(entries, fates) <==> Stayed(entries, fates, e)
  {
    if entries != [] {
      StayingMember(entries[..|entries| - 1], fates[..|entries| - 1], e);
      StayedOneMore(entries, fates, e);
    }
  }

  lemma {:induction false} StayingDistinct(entries: seq<Entry>, fates: seq<Fate>)
    requires |entries| == |fates| && Distinct(entries)
    ensures Distinct(Staying(entries, fates))
  {
    if entries != [] {
      var n := |entries| - 1;
      StayingDistinct(entries[..n], fates[..n]);
      var kept := Staying(entries[..n], fates[..n]);
      forall i | 0 <= i < |kept| ensures kept[i].session != entries[n].session {
        StayingMember(entries[..n], fates[..n], kept[i]);
        var k :| 0 <= k < n && fates[..n][k].Stays? && entries[..n][k] == kept[i];
        assert entries[k] == kept[i];
      }
    }
  }

  lemma StayingAre(entries: seq<Entry>, fates: seq<Fate>)
    requires |entries| == |fates|
    ensures |Staying(entries, fates)| <= |entries|
    ensures forall e :: e in Staying(entries, fates) <==> Stayed(entries, fates, e)
    ensures Distinct(entries) ==> Distinct(Staying(entries, fates))
  {
    hide Staying, Stayed, Distinct;
    StayingMember(entries, fates, Entry(0, 0));
    forall e ensures e in Staying(entries, fates) <==> Stayed(entries, fates, e) {
      StayingMember(entries, fates, e);
    }
    if Distinct(entries) {
      StayingDistinct(entries, fates);
    }
  }

  lemma MentionedAt(entries: seq<Entry>, id: nat) returns (i: nat)
    requires Mentions(entries, id)
    ensures i < |entries| && entries[i].session == id
  {
    i :| 0 <= i < |entries| && entries[i].session == id;
  }

  lemma SweepKeepsList(entries: seq<Entry>, kept: seq<Entry>, t: seq<Session>, u: seq<Session>, now: int, take: bool,
                       found: Option<nat>, expired: seq<nat>, fates: seq<Fate>)
    requires ListInv(entries, t) && Sweeps(entries, kept, t, u, now, take, found, expired, fates)
    ensures ListInv(kept, u)
  {
    hide Sound, FirstReady, Expirees, TakenOf, Staying;
    StayingAre(entries, fates);
    forall i | 0 <= i < |kept| ensures kept[i].session < |u| && u[kept[i].session].place.Pooled? {
      assert kept[i] in kept;
      var j :| 0 <= j < |entries| && fates[j].Stays? && entries[j] == kept[i];
      assert Evolves(t[entries[j].session], u[entries[j].session]);
    }
    forall id | 0 <= id < |u| && u[id].place.Pooled? ensures Mentions(kept, id) {
      if Mentions(entries, id) {
        var j := MentionedAt(entries, id);
        assert FateOf(entries[j], fates[j], t[id], u[id], now);
        assert entries[j] in kept;
      }
    }
  }

  lemma SweepKeepsDoom(entries: seq<Entry>, kept: seq<Entry>, t: seq<Session>, u: seq<Session>, now: int, take: bool,
                       found: Option<nat>, expired: seq<nat>, fates: seq<Fate>, doomed: set<nat>)
    requires Sweeps(entries, kept, t, u, now, take, found, expired, fates) && DoomInv(t, doomed)
    ensures DoomInv(u, doomed + Elements(expired))
  {
    hide Sound, FirstReady, Expirees, TakenOf, Staying;
    forall id | 0 <= id < |u| && u[id].place.Removed? ensures u[id].state.Closed? || id in doomed + Elements(expired) {
      if id < |t| {
        if Mentions(entries, id) {
          var j := MentionedAt(entries, id);
          assert FateOf(entries[j], fates[j], t[id], u[id], now);
          ExpireesAre(entries, fates, id);
        } else {
          assert Evolves(t[id], u[id]);
        }
      }
    }
  }

  lemma EvolveKeepsInv(w: World, t: seq<Session>)
    requires Inv(w) && AllEvolve(w.table, t)
    ensures ListInv(w.entries, t) && DoomInv(t, w.doomed)
  {
    hide Sound, LoopInv;
    forall id | 0 <= id < |t| && t[id].place.Pooled? ensures Mentions(w.entries, id) {
      assert Evolves(w.table[id], t[id]);
    }
    forall id | 0 <= id < |t| && t[id].place.Removed? ensures t[id].state.Closed? || id in w.doomed {
      assert Evolves(w.table[id], t[id]);
    }
  }

  lemma HandBackLists(kept: seq<Entry>, mid: seq<Session>, id: nat, now: int, added: bool)
    requires Listed(kept, mid) && id < |mid| && mid[id].place.Returning?
    requires forall j :: 0 <= j < |mid| && mid[j].place.Pooled? ==> Mentions(kept, j)
    ensures var es, t := if added then kept + [Entry(id, now)] else kept, HandedBack(mid, id, added);
            Listed(es, t) && forall j :: 0 <= j < |t| && t[j].place.Pooled? ==> Mentions(es, j)
  {
    hide Mentions;
    var es, t := if added then kept + [Entry(id, now)] else kept, HandedBack(mid, id, added);
    forall j | 0 <= j < |t| && t[j].place.Pooled? ensures Mentions(es, j) {
      if added {
        MentionsNext(kept, Entry(id, now), j);
      }
    }
  }

  lemma HandBackKeepsDoom(mid: seq<Session>, id: nat, added: bool, doomed: set<nat>)
    requires id < |mid| && DoomInv(mid, doomed)
    ensures DoomInv(HandedBack(mid, id, added), doomed + (if added then {} else {id}))
  {
  }

  lemma HandBackKeepsList(kept: seq<Entry>, mid: seq<Session>, id: nat, now: int, added: bool, doomed: set<nat>)
    requires ListInv(kept, mid) && id < |mid| && mid[id].place.Returning? && (added ==> |kept| < POOL_SIZE)
             && DoomInv(mid, doomed)
    ensures ListInv(if added then kept + [Entry(id, now)] else kept, HandedBack(mid, id, added))
    ensures DoomInv(HandedBack(mid, id, added), doomed + (if added then {} else {id}))
  {
    hide Mentions, Listed, AllSound, DoomInv, HandedBack;
    HandedBackSound(mid, id, added);
    HandBackLists(kept, mid, id, now, added);
    HandBackKeepsDoom(mid, id, added, doomed);
  }

  lemma HandBackKeepsInv(w: World, w': World, l: Label)
    requires Inv(w) && l.HandBack? && HandBackStep(w, w', l)
    ensures Inv(w')
  {
    hide Sound, HandedBack, Sweeps, Listed;
    if w.closed {
      assert Elements(l.expired) == {};
      HandBackKeepsList(l.kept, l.mid, l.id, l.now, Added(w, l), w.doomed);
      assert w.doomed + Elements(l.expired) == w.doomed;
    } else {
      SweepKeepsList(w.entries, l.kept, w.table, l.mid, l.now, false, None, l.expired, l.fates);
      SweepKeepsDoom(w.entries, l.kept, w.table, l.mid, l.now, false, None, l.expired, l.fates, w.doomed);
      StillReturning(w.entries, l.kept, w.table, l.mid, l.now, l.expired, l.fates, l.id);
      HandBackKeepsList(l.kept, l.mid, l.id, l.now, Added(w, l), w.doomed + Elements(l.expired));
      SweepOfNothing(w.entries, l.kept, w.table, l.mid, l.now, false, None, l.expired, l.fates);
    }
  }

  /** A traversal never adds an entry. */
  lemma SweepOfNothing(entries: seq<Entry>, kept: seq<Entry>, t: seq<Session>, u: seq<Session>, now: int, take: bool,
                       found: Option<nat>, expired: seq<nat>, fates: seq<Fate>)
    requires Sweeps(entries, kept, t, u, now, take, found, expired, fates)
    ensures entries == [] ==> kept == []
    ensures |kept| <= |entries|
  {
    StayingAre(entries, fates);
  }

  lemma UnlistedKeeps(entries: seq<Entry>, t: seq<Session>, doomed: set<nat>)
    requires ListInv(entries, t) && DoomInv(t, doomed)
    ensures ListInv([], Unlisted(t)) && DoomInv(Unlisted(t), doomed + Elements(Ids(entries)))
  {
    var u := Unlisted(t);
    forall id | 0 <= id < |u| && u[id].place.Removed?
      ensures u[id].state.Closed? || id in doomed + Elements(Ids(entries))
    {
      if t[id].place.Pooled? {
        var i := MentionedAt(entries, id);
        assert Ids(entries)[i] == id;
      }
    }
  }

  lemma UnlistedKeepsInv(w: World, w': World, l: Label)
    requires Inv(w) && (l.Resets? || l.Closes?) && Step(w, w', l)
    ensures Inv(w')
  {
    hide ListInv, DoomInv, Unlisted, Elements, Ids;
    if !w.closed {
      UnlistedKeeps(w.entries, w.table, w.doomed);
    }
  }

  lemma StepKeepsInv(w: World, w': World, l: Label)
    requires Inv(w) && Step(w, w', l)
    ensures Inv(w')
  {
    hide Sound, HandBackStep, Sweeps, AllEvolve, Unlisted;
    match l
    case OthersMove => EvolveKeepsInv(w, w'.table);
    case TakeOne(now, found, expired, fates) =>
      if !w.closed {
        SweepKeepsList(w.entries, w'.entries, w.table, w'.table, now, true, found, expired, fates);
        SweepKeepsDoom(w.entries, w'.entries, w.table, w'.table, now, true, found, expired, fates, w.doomed);
        SweepOfNothing(w.entries, w'.entries, w.table, w'.table, now, true, found, expired, fates);
      }
    case Deliver(id) => TouchOne(w, id, Held);
    case HandBack(_, _, _, _, _, _, _) => HandBackKeepsInv(w, w', l);
    case LoopTicks(now, expired, fates) =>
      if !w.closed {
        SweepKeepsList(w.entries, w'.entries, w.table, w'.table, now, false, None, expired, fates);
        SweepKeepsDoom(w.entries, w'.entries, w.table, w'.table, now, false, None, expired, fates, w.doomed);
        SweepOfNothing(w.entries, w'.entries, w.table, w'.table, now, false, None, expired, fates);
      }
    case LoopStops =>
    case Resets => UnlistedKeepsInv(w, w', l);
    case Closes => UnlistedKeepsInv(w, w', l);
    case ClosesOne(id) =>
      MovedEvolves(w.table, Closing(id));
      EvolveKeepsInv(w, w'.table);
    case StartsDrainer(_) =>
    case DrainerDone(_) =>
    case Inits =>
  }

  lemma TouchOne(w: World, id: nat, place: Place)
    requires Inv(w) && id < |w.table| && w.table[id].place.Taking? && place.Held?
    ensures ListInv(w.entries, w.table[id := w.table[id].(place := place)])
    ensures DoomInv(w.table[id := w.table[id].(place := place)], w.doomed)
  {
  }

  /** Every reachable world meets the invariant, whatever the other goroutines do. */
  lemma {:induction false} RunInv(ws: seq<World>, ls: seq<Label>, k: nat)
    requires Run(ws, ls) && k < |ws|
    ensures Inv(ws[k])
  {
    if k > 0 {
      RunInv(ws, ls, k - 1);
      StepKeepsInv(ws[k - 1], ws[k], ls[k - 1]);
    }
  }

  // ------------------------------------------------------------ what that means

  /**
   At any time: at most ten entries, each session on the list at most once and never Active,
   every connection closed at most once, exactly one expire loop while an open pool has
   entries, a closed pool empty, and the drain count never below zero.
   */
  lemma PoolSafety(ws: seq<World>, ls: seq<Label>, k: nat)
    requires Run(ws, ls) && k < |ws|
    ensures |ws[k].entries| <= POOL_SIZE
    ensures forall i, j :: 0 <= i < j < |ws[k].entries| ==> ws[k].entries[i].session != ws[k].entries[j].session
    ensures forall e :: e in ws[k].entries ==> e.session < |ws[k].table| && !ws[k].table[e.session].state.Active?
    ensures forall id :: 0 <= id < |ws[k].table| ==>
            ws[k].table[id].connCloses == if ws[k].table[id].state.Closed? then 1 else 0
    ensures ws[k].loops <= 1 && (!ws[k].closed && ws[k].entries != [] ==> ws[k].loops == 1)
    ensures ws[k].closed ==> ws[k].entries == []
    ensures ws[k].drainCount >= 0
  {
    RunInv(ws, ls, k);
  }

  /** No session is lost: whoever is off the list and in nobody's hands is
      closed, or some method is about to close it. */
  lemma NothingLost(ws: seq<World>, ls: seq<Label>, k: nat, id: nat)
    requires Run(ws, ls) && k < |ws| && id < |ws[k].table| && !ws[k].table[id].state.Closed?
    ensures Mentions(ws[k].entries, id) || id in ws[k].doomed
         || ws[k].table[id].place.Taking? || ws[k].table[id].place.Held? || ws[k].table[id].place.Returning?
  {
    RunInv(ws, ls, k);
  }

  /** What one step can do to a session that exists already. */
  lemma StepOnSession(w: World, w': World, l: Label, id: nat)
    requires Inv(w) && Step(w, w', l) && id < |w.table|
    ensures id < |w'.table|
    ensures w.table[id].state.Closed? ==> w'.table[id].state.Closed?
    ensures w'.table[id].returned == w.table[id].returned + if l.HandBack? && l.id == id && Added(w, l) then 1 else 0
    ensures w'.table[id].handed == w.table[id].handed + if l.TakeOne? && !w.closed && l.found == Some(id) then 1 else 0
  {
    hide Sound, FirstReady;
    match l
    case TakeOne(now, found, expired, fates) =>
      if !w.closed { SweepOnSession(w.entries, w'.entries, w.table, w'.table, now, true, found, expired, fates, id); }
    case HandBack(_, _, _, _, _, _, _) =>
      if !w.closed {
        SweepOnSession(w.entries, l.kept, w.table, l.mid, l.now, false, None, l.expired, l.fates, id);
      }
    case LoopTicks(now, expired, fates) =>
      if !w.closed { SweepOnSession(w.entries, w'.entries, w.table, w'.table, now, false, None, expired, fates, id); }
    case _ =>
  }

  lemma SweepOnSession(entries: seq<Entry>, kept: seq<Entry>, t: seq<Session>, u: seq<Session>, now: int, take: bool,
                       found: Option<nat>, expired: seq<nat>, fates: seq<Fate>, id: nat)
    requires Sweeps(entries, kept, t, u, now, take, found, expired, fates) && Listed(entries, t) && id < |t|
    ensures id < |u|
    ensures t[id].state.Closed? ==> u[id].state.Closed?
    ensures u[id].returned == t[id].returned
    ensures u[id].handed == t[id].handed + if found == Some(id) then 1 else 0
    ensures found == Some(id) ==> u[id].place.Taking?
  {
    hide Sound, FirstReady, Staying, Expirees, TakenOf;
    TakenIs(entries, fates, id);
    if Mentions(entries, id) {
      var j := MentionedAt(entries, id);
      assert FateOf(entries[j], fates[j], t[id], u[id], now);
      if fates[j].Taken? {
        TakenIsUnique(entries, fates, take, t, u, now, kept, found, expired, j);
      }
    } else {
      assert Evolves(t[id], u[id]);
    }
  }

  lemma {:induction false} TakenIs(entries: seq<Entry>, fates: seq<Fate>, id: nat)
    requires |entries| == |fates|
    ensures TakenOf(entries, fates) == Some(id) ==>
            exists i :: 0 <= i < |entries| && fates[i].Taken? && entries[i].session == id
  {
    if entries != [] {
      var n := |entries| - 1;
      TakenIs(entries[..n], fates[..n], id);
    }
  }

  lemma TakenIsUnique(entries: seq<Entry>, fates: seq<Fate>, take: bool, t: seq<Session>, u: seq<Session>, now: int,
                      kept: seq<Entry>, found: Option<nat>, expired: seq<nat>, j: nat)
    requires Sweeps(entries, kept, t, u, now, take, found, expired, fates)
    requires j < |entries| && fates[j].Taken?
    ensures found == Some(entries[j].session)
  {
    hide Sound, FateOf, Staying, Expirees, Passed;
    TakenOfNone(entries, fates);
    TakenIs(entries, fates, found.value);
  }

  lemma RunStep(ws: seq<World>, ls: seq<Label>, k: nat)
    requires Run(ws, ls) && k < |ls|
    ensures Step(ws[k], ws[k + 1], ls[k])
  {
  }

  lemma InvSound(w: World)
    requires Inv(w)
    ensures forall id :: 0 <= id < |w.table| ==> w.table[id].connCloses == if w.table[id].state.Closed? then 1 else 0
  {
  }

  /** Closed is for good, and so is the one closing of the connection. */
  lemma {:induction false} ClosedForGood(ws: seq<World>, ls: seq<Label>, j: nat, k: nat, id: nat)
    requires Run(ws, ls) && j <= k < |ws| && id < |ws[j].table| && ws[j].table[id].state.Closed?
    ensures id < |ws[k].table| && ws[k].table[id].state.Closed? && ws[k].table[id].connCloses == 1
    decreases k - j
  {
    hide Inv, Step, Initial;
    RunInv(ws, ls, k);
    InvSound(ws[k]);
    if j < k {
      ClosedForGood(ws, ls, j, k - 1, id);
      RunInv(ws, ls, k - 1);
      RunStep(ws, ls, k - 1);
      StepOnSession(ws[k - 1], ws[k], ls[k - 1], id);
    }
  }

  lemma {:induction false} ReturnedBetween(ws: seq<World>, ls: seq<Label>, j: nat, k: nat, id: nat) returns (m: nat)
    requires Run(ws, ls) && j <= k < |ws| && id < |ws[j].table|
    requires id < |ws[k].table| ==> ws[j].table[id].returned < ws[k].table[id].returned
    ensures j <= m < k && ls[m].HandBack? && ls[m].id == id && Added(ws[m], ls[m])
    decreases k - j
  {
    hide Inv, Step, Initial, Added;
    RunInv(ws, ls, j);
    RunStep(ws, ls, j);
    StepOnSession(ws[j], ws[j + 1], ls[j], id);
    if ls[j].HandBack? && ls[j].id == id && Added(ws[j], ls[j]) {
      m := j;
    } else {
      m := ReturnedBetween(ws, ls, j + 1, k, id);
    }
  }

  /** A session handed out by a Take is put back on the list before any Take hands it out again. */
  lemma TakenThenReturned(ws: seq<World>, ls: seq<Label>, j: nat, k: nat, id: nat) returns (m: nat)
    requires Run(ws, ls) && j < k < |ls|
    requires ls[j].TakeOne? && ls[j].found == Some(id) && ls[k].TakeOne? && ls[k].found == Some(id)
    ensures j < m < k && ls[m].HandBack? && ls[m].id == id && Added(ws[m], ls[m])
  {
    RunInv(ws, ls, j);
    RunInv(ws, ls, j + 1);
    RunInv(ws, ls, k);
    TakenWasPooled(ws[j], ws[j + 1], ls[j], id);
    TakenWasPooled(ws[k], ws[k + 1], ls[k], id);
    HandedGrows(ws, ls, j + 1, k, id);
    m := ReturnedBetween(ws, ls, j + 1, k, id);
  }

  lemma TakenWasPooled(w: World, w': World, l: Label, id: nat)
    requires Inv(w) && Step(w, w', l) && l.TakeOne? && l.found == Some(id)
    ensures id < |w.table| && w.table[id].place.Pooled?
    ensures id < |w'.table| && w'.table[id].place.Taking?
  {
    hide Sound, FateOf, Passed;
    TakenIs(w.entries, l.fates, id);
    SweepOnSession(w.entries, w'.entries, w.table, w'.table, l.now, true, l.found, l.expired, l.fates, id);
  }

  lemma {:induction false} HandedGrows(ws: seq<World>, ls: seq<Label>, j: nat, k: nat, id: nat)
    requires Run(ws, ls) && j <= k < |ws| && id < |ws[j].table|
    ensures id < |ws[k].table| && ws[j].table[id].handed <= ws[k].table[id].handed
    decreases k - j
  {
    hide Inv, Step, Initial;
    if j < k {
      HandedGrows(ws, ls, j, k - 1, id);
      RunInv(ws, ls, k - 1);
      RunStep(ws, ls, k - 1);
      StepOnSession(ws[k - 1], ws[k], ls[k - 1], id);
    }
  }

  /** A closed pool stays closed and empty, starts no expire loop, and its drain
      count only falls: Close can wait for zero. */
  lemma {:induction false} PoolClosedForGood(ws: seq<World>, ls: seq<Label>, j: nat, k: nat)
    requires Run(ws, ls) && j <= k < |ws| && ws[j].closed
    ensures ws[k].closed && ws[k].entries == []
    ensures ws[k].loops <= ws[j].loops && ws[k].drainCount <= ws[j].drainCount
    decreases k - j
  {
    hide Inv, Step, Initial;
    RunInv(ws, ls, k);
    if j < k {
      PoolClosedForGood(ws, ls, j, k - 1);
      RunStep(ws, ls, k - 1);
      ClosedStaysClosed(ws[k - 1], ws[k], ls[k - 1]);
    }
    ClosedIsEmpty(ws[k]);
  }

  lemma ClosedIsEmpty(w: World)
    requires Inv(w) && w.closed
    ensures w.entries == []
  {
  }

  lemma ClosedStaysClosed(w: World, w': World, l: Label)
    requires Step(w, w', l) && w.closed
    ensures w'.closed && w'.loops <= w.loops && w'.drainCount <= w.drainCount
  {
    hide Sweeps, AllEvolve, HandedBack, HandedOut;
  }
}
