/**
 That the protocol of ReuseClosing.dfy gets on: Close is never stuck and takes few steps
 whatever others do, no read is stuck, and a drainer that has ended leaves nothing Waiting
 (snellv6/reuse.go).
 */
module ReuseProgress {
  import opened ReuseClosing

  // ------------------------------------------------------------ Close

  /** How many steps Close has still before it, at most. */
  function StepsLeft(c: CloserPc): nat
  {
    match c
    case NotClosing => 12
    case Marked => 11
    case Ending => 10
    case CheckRead => 9
    case Releasing => 8
    case CheckIdle => 8
    case CheckCount => 7
    case ToWaiting => 6
    case DrainIdle => 6
    case Recheck => 5
    case DrainSwap => 5
    case ToReady => 4
    case Returning => 3
    case Pooling => 3
    case DrainPool => 3
    case SwapFailed => 2
    case CloserKills => 1
    case Finished => 0
  }

  lemma CloserStepsDown(s: Sys, s': Sys)
    requires CloserStep(s, s')
    ensures StepsLeft(s'.closer) < StepsLeft(s.closer)
  {
  }

  /** The states that an interleaving goes through. */
  ghost predicate Path(states: seq<Sys>) {
    forall k :: 0 <= k < |states| - 1 ==> Next(states[k], states[k + 1])
  }

  /** How many of its steps are Close's. */
  function StepsOfClose(states: seq<Sys>): nat
    decreases |states|
  {
    if |states| < 2 then 0
    else (if states[1].closer != states[0].closer then 1 else 0) + StepsOfClose(states[1..])
  }

  lemma OthersLeaveClose(s: Sys, s': Sys)
    requires Next(s, s')
    ensures s'.closer != s.closer ==> StepsLeft(s'.closer) < StepsLeft(s.closer)
  {
    if s'.closer != s.closer {
      CloserStepsDown(s, s');
    }
  }

  /** Close takes no more than twelve steps, whatever others do between them. */
  lemma {:induction false} CloseIsShort(states: seq<Sys>)
    requires Path(states) && states != []
    ensures StepsOfClose(states) <= StepsLeft(states[0].closer) - StepsLeft(states[|states| - 1].closer) <= 12
    decreases |states|
  {
    hide Next, StepsLeft;
    AtMostTwelve(states[0].closer);
    if |states| > 1 {
      OthersLeaveClose(states[0], states[1]);
      var rest := states[1..];
      forall k | 0 <= k < |rest| - 1 ensures Next(rest[k], rest[k + 1]) {
        assert Next(states[k + 1], states[k + 2]);
      }
      CloseIsShort(rest);
    }
  }

  lemma AtMostTwelve(c: CloserPc)
    ensures StepsLeft(c) <= 12
  {
  }

  /** Until it has finished, Close always has a step of its own to take. */
  lemma CloserStepsOn(s: Sys) returns (s': Sys)
    requires !s.closer.Finished?
    ensures CloserStep(s, s')
  {
    var a, f, h := s.session, s.flags, s.history;
    match s.closer
    case NotClosing => s' := s.(flags := f.(closed := true), closer := Marked);
    case Marked => s' := s.(closer := if f.replyRead then Ending else CloserKills);
    case CheckRead =>
      s' := s.(history := h.(sawReadClosed := f.readClosed), closer := if f.readClosed then Releasing else CheckIdle);
    case CheckCount =>
      s' := s.(history := h.(drainChosen := f.readActionCount <= 0),
               closer := if f.readActionCount > 0 then ToWaiting else DrainIdle);
    case ToWaiting =>
      s' := if a.state.Active? then s.(session := a.(state := Waiting), closer := Recheck)
            else s.(closer := SwapFailed);
    case Recheck =>
      s' := s.(history := h.(sawReadClosed := f.readClosed), closer := if f.readClosed then ToReady else Pooling);
    case ToReady =>
      s' := s.(session := if a.state.Waiting? then a.(state := Ready) else a, closer := Pooling);
    case DrainSwap =>
      s' := if a.state.Active? then s.(session := a.(state := Waiting), closer := DrainPool)
            else s.(closer := SwapFailed);
    case SwapFailed => s' := s.(closer := if a.state.Closed? then Finished else CloserKills);
    case CloserKills => s' := s.(session := CloseSession(a), closer := Finished);
    case _ => s' := s.(closer := CloserKills); // where it may give the session up
  }

  lemma {:induction false} CloseCanEnd(s0: Sys, s: Sys, n: nat) returns (s': Sys, m: nat)
    requires Leads(s0, s, n)
    ensures Leads(s0, s', m) && m <= n + StepsLeft(s.closer) && s'.closer.Finished? && s'.readers == s.readers
    decreases StepsLeft(s.closer)
  {
    hide CloserStep, Leads;
    if s.closer.Finished? {
      s', m := s, n;
    } else {
      var next := CloserStepsOn(s);
      CloserStepsDown(s, next);
      ByCloser(s0, s, n, next);
      LeavesReaders(s, next);
      s', m := CloseCanEnd(s0, next, n + 1);
    }
  }

  lemma LeavesReaders(s: Sys, s': Sys)
    requires CloserStep(s, s')
    ensures s'.readers == s.readers
  {
  }

  /** Left to itself, Close comes to its end from every state, whatever reads are doing. */
  lemma CloseEndsAlone(s: Sys) returns (s': Sys, m: nat)
    ensures Leads(s, s', m) && m <= 12 && s'.closer.Finished? && s'.readers == s.readers
  {
    hide Leads;
    LeadsNowhere(s);
    AtMostTwelve(s.closer);
    s', m := CloseCanEnd(s, s, 0);
  }

  // ------------------------------------------------------------ reads

  /** A read in a call always has a step of its own to take. */
  lemma ReaderStepsOn(s: Sys, t: nat) returns (s': Sys)
    requires t < |s.readers| && !s.readers[t].Outside?
    ensures ReaderStep(s, s', t) && s'.readers[t] != s.readers[t]
  {
    var a, f, h := s.session, s.flags, s.history;
    match s.readers[t]
    case Entering =>
      s' := s.(flags := f.(readActionCount := f.readActionCount + 1), readers := s.readers[t := Counted]);
    case Counted => s' := s.(readers := s.readers[t := if f.closed then Leaving else Replying]);
    case Replying => s' := s.(flags := f.(replyRead := true), readers := s.readers[t := Reading]);
    case Reading => s' := s.(readers := s.readers[t := GotError]);
    case GotData => s' := s.(readers := s.readers[t := if f.closed then Killing else Leaving]);
    case GotEof => s' := s.(readers := s.readers[t := if f.closed then LateEof else EarlyEof]);
    case GotError => s' := s.(readers := s.readers[t := if f.closed then Killing else Leaving]);
    case LateEof => s' := s.(flags := f.(readClosed := true), readers := s.readers[t := LateStored]);
    case LateStored =>
      s' := s.(session := if a.state.Waiting? then a.(state := Ready) else a, history := h.(lateEofDone := true),
               readers := s.readers[t := Leaving]);
    case EarlyEof => s' := s.(flags := f.(readClosed := true), readers := s.readers[t := Leaving]);
    case Killing => s' := s.(session := CloseSession(a), readers := s.readers[t := Leaving]);
    case Leaving => s' := s.(flags := f.(readActionCount := f.readActionCount - 1), readers := s.readers[t := Outside]);
  }

  // ------------------------------------------------------------ the drainer

  /** A drainer that has ended leaves the session Ready or Closed. */
  ghost predicate DrainerLeft(s: Sys) { s.drainer.Drained? ==> s.session.state.Ready? || s.session.state.Closed? }

  lemma NextKeepsDrainerLeft(s: Sys, s': Sys)
    requires Inv(s) && DrainerLeft(s) && Next(s, s')
    ensures DrainerLeft(s')
  {
  }

  lemma {:induction false} LeadsKeepsDrainerLeft(s: Sys, s': Sys, n: nat)
    requires Inv(s) && DrainerLeft(s) && Leads(s, s', n)
    ensures Inv(s') && DrainerLeft(s')
    decreases n
  {
    hide Next, Inv, DrainerLeft;
    if n > 0 {
      var mid :| Leads(s, mid, n - 1) && Next(mid, s');
      LeadsKeepsDrainerLeft(s, mid, n - 1);
      NextKeepsInv(mid, s');
      NextKeepsDrainerLeft(mid, s');
    }
  }

  /** The drainer does not end before it has made the session Ready or closed it. */
  lemma DrainerSettles(s: Sys)
    requires Reachable(s) && s.drainer.Drained?
    ensures s.session.state.Ready? || s.session.state.Closed?
  {
    hide Leads, Inv;
    var s0, n :| Initial(s0) && Leads(s0, s, n);
    InitialInv(s0);
    LeadsKeepsDrainerLeft(s0, s, n);
  }

  /** Anybody may close the session at any time, and that ends every wait for it. */
  lemma AnybodyCloses(s: Sys) returns (s': Sys)
    ensures Next(s, s') && s'.session.state.Closed? && s'.session.pooled == s.session.pooled
  {
    s' := s.(session := CloseSession(s.session));
    assert OutsideStep(s, s');
  }
}
