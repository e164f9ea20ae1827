/**
 The end of one logical connection over a reusable client session (snellv6/reuse.go,
 and snellv4/reuse.go, which runs the same protocol): Close, any number of Read calls
 and the drainer race through atomic variables. Every atomic load, store, add and
 compare-and-swap is one labelled step; a run is any sequence of enabled steps.
 */
module ReuseClosing {
  datatype SessionState = Ready | Active | Waiting | Closed

  /** Where a reading goroutine stands (reuse.go:242-280; the other read entry points are alike). */
  datatype ReaderPc =
    | Outside      // in no call
    | Entering     // saw closed false, not counted yet
    | Counted      // counted, closed not loaded again yet
    | Replying     // saw closed false again; may use the session reader for the reply
    | Reading      // inside the session reader
    | GotData | GotEof | GotError // the read returned, closed not loaded since
    | LateEof      // end of stream, saw closed true; readClosed not stored yet
    | LateStored   // ... stored, compare-and-swap to Ready still to do
    | EarlyEof     // end of stream, saw closed false; readClosed not stored yet
    | Killing      // about to close the session
    | Leaving      // about to be uncounted

  /** Where Close stands (reuse.go:468-512, 139-175). */
  datatype CloserPc =
    | NotClosing
    | Marked       // closed stored, replyRead not loaded yet
    | Ending       // CloseWrite and the deadlines
    | CheckRead    // readClosed not loaded yet
    | Releasing    // Release(true): compare-and-swap Active to Ready to do
    | Returning    // ... done, MoveToPool to do
    | CheckIdle    // closeIdle to evaluate
    | CheckCount   // readActionCount not loaded yet
    | ToWaiting    // a read is in flight: compare-and-swap Active to Waiting to do
    | Recheck      // ... done, readClosed not loaded again yet
    | ToReady      // readClosed was true: compare-and-swap Waiting to Ready to do
    | Pooling      // MoveToPool without a drainer
    | DrainIdle    // startDrain: closeIdle to evaluate
    | DrainSwap    // ... compare-and-swap Active to Waiting to do
    | DrainPool    // ... MoveToPool with a drainer
    | SwapFailed   // a compare-and-swap failed, state not loaded yet
    | CloserKills  // about to close the session
    | Finished

  datatype DrainerPc = NoDrainer | Draining | DrainGotEof | DrainKills | Drained

  datatype Eof = NotTaken | TakenByRead | TakenByDrainer

  /** The session's own variables and its connection. */
  datatype Session = Session(
    state: SessionState,
    connCloses: nat, // calls of Conn.Close
    pooled: bool     // handed to the pool
  )

  /** The variables of the logical connection. */
  datatype Flags = Flags(closed: bool, replyRead: bool, readClosed: bool, readActionCount: int)

  /** History: what has happened to the end-of-stream record of this connection. */
  datatype History = History(
    eof: Eof,
    lateEofDone: bool, // a read that saw closed took it and has finished its compare-and-swap
    drainChosen: bool, // Close loaded a read count of zero
    sawReadClosed: bool // what Close's last load of readClosed gave
  )

  datatype Sys = Sys(session: Session, flags: Flags, readers: seq<ReaderPc>, closer: CloserPc, drainer: DrainerPc,
      history: History)

  /** A session just dialled, any number of goroutines that may read, nothing begun. */
  ghost predicate Initial(s: Sys) {
    && s.session == Session(Active, 0, false)
    && s.flags == Flags(false, false, false, 0)
    && (forall t :: 0 <= t < |s.readers| ==> s.readers[t].Outside?)
    && s.closer == NotClosing && s.drainer == NoDrainer
    && s.history == History(NotTaken, false, false, false)
  }

  /** Session.Close: the state is exchanged for Closed, the connection closed by the first to do so. */
  function CloseSession(a: Session): Session
  {
    if a.state.Closed? then a else a.(state := Closed, connCloses := a.connCloses + 1)
  }

  /** One step of a read. Where the environment decides, several outcomes are allowed. */
  ghost predicate ReaderEffect(pc: ReaderPc, pc': ReaderPc, a: Session, a': Session, f: Flags, f': Flags, h: History,
      h': History) {
    match pc
    case Outside => a' == a && f' == f && h' == h && (if f.closed then pc'.Outside? else pc'.Entering?)
    case Entering => a' == a && f' == f.(readActionCount := f.readActionCount + 1) && h' == h && pc'.Counted?
    case Counted => a' == a && f' == f && h' == h && (if f.closed then pc'.Leaving? else pc'.Replying?)
    case Replying =>
      a' == a && h' == h
      && (if f.replyRead then pc'.Reading? && f' == f
          else (pc'.Reading? && f' == f.(replyRead := true)) || (pc'.Leaving? && f' == f))
    case Reading =>
      a' == a && f' == f
      && (((pc'.GotData? || pc'.GotError?) && h' == h)
          || (pc'.GotEof? && h.eof.NotTaken? && h' == h.(eof := TakenByRead)))
    case GotData =>
      // Killing: the discard limit has been reached
      a' == a && f' == f && h' == h && (if f.closed then pc'.Killing? || pc'.Reading? else pc'.Leaving?)
    case GotEof => a' == a && f' == f && h' == h && (if f.closed then pc'.LateEof? else pc'.EarlyEof?)
    case GotError => a' == a && f' == f && h' == h && (if f.closed then pc'.Killing? else pc'.Leaving?)
    case LateEof => a' == a && f' == f.(readClosed := true) && h' == h && pc'.LateStored?
    case LateStored =>
      a' == (if a.state.Waiting? then a.(state := Ready) else a) && f' == f
      && h' == h.(lateEofDone := true) && pc'.Leaving?
    case EarlyEof => a' == a && f' == f.(readClosed := true) && h' == h && pc'.Leaving?
    case Killing => a' == CloseSession(a) && f' == f && h' == h && pc'.Leaving?
    case Leaving => a' == a && f' == f.(readActionCount := f.readActionCount - 1) && h' == h && pc'.Outside?
  }

  ghost predicate ReaderStep(s: Sys, s': Sys, t: nat) {
    && t < |s.readers| == |s'.readers| && s'.readers == s.readers[t := s'.readers[t]]
    && s'.closer == s.closer && s'.drainer == s.drainer
    && ReaderEffect(s.readers[t], s'.readers[t], s.session, s'.session, s.flags, s'.flags, s.history, s'.history)
  }

  /** One step of Close; d is the drainer it may start. */
  ghost predicate CloserEffect(c: CloserPc, c': CloserPc, d: DrainerPc, d': DrainerPc, a: Session, a': Session,
      f: Flags, f': Flags, h: History, h': History) {
    && (c.CheckRead? || c.Recheck? || c.CheckCount? || h' == h)
    && (c.NotClosing? || f' == f)
    && (c.DrainPool? || d' == d)
    && match c
       case NotClosing => a' == a && f' == f.(closed := true) && c'.Marked?
       case Marked => a' == a && (if f.replyRead then c'.Ending? else c'.CloserKills?)
       case Ending => a' == a && (c'.CheckRead? || c'.CloserKills?) // CloseWrite may fail
       case CheckRead =>
         a' == a && h' == h.(sawReadClosed := f.readClosed) && (if f.readClosed then c'.Releasing? else c'.CheckIdle?)
       case Releasing =>
         || (a' == a && c'.CloserKills?) // closeIdle
         || (if a.state.Active? then a' == a.(state := Ready) && c'.Returning? else a' == a && c'.SwapFailed?)
       // pool full or closed
       case Returning => (a' == a.(pooled := true) && c'.Finished?) || (a' == a && c'.CloserKills?)
       case CheckIdle => a' == a && (c'.CheckCount? || c'.CloserKills?)
       case CheckCount =>
         a' == a && h' == h.(drainChosen := f.readActionCount <= 0)
         && (if f.readActionCount > 0 then c'.ToWaiting? else c'.DrainIdle?)
       case ToWaiting =>
         if a.state.Active? then a' == a.(state := Waiting) && c'.Recheck? else a' == a && c'.SwapFailed?
       case Recheck =>
         a' == a && h' == h.(sawReadClosed := f.readClosed) && (if f.readClosed then c'.ToReady? else c'.Pooling?)
       case ToReady => a' == (if a.state.Waiting? then a.(state := Ready) else a) && c'.Pooling?
       case Pooling => (a' == a.(pooled := true) && c'.Finished?) || (a' == a && c'.CloserKills?)
       case DrainIdle => a' == a && (c'.DrainSwap? || c'.CloserKills?)
       case DrainSwap =>
         if a.state.Active? then a' == a.(state := Waiting) && c'.DrainPool? else a' == a && c'.SwapFailed?
       case DrainPool =>
         || (a' == a.(pooled := true) && d'.Draining? && c'.Finished?)
         || (a' == a && d' == d && c'.CloserKills?)
       case SwapFailed => a' == a && (if a.state.Closed? then c'.Finished? else c'.CloserKills?)
       case CloserKills => a' == CloseSession(a) && c'.Finished?
       case Finished => false
  }

  ghost predicate CloserStep(s: Sys, s': Sys) {
    && s'.readers == s.readers
    && CloserEffect(s.closer, s'.closer, s.drainer, s'.drainer, s.session, s'.session,
                    s.flags, s'.flags, s.history, s'.history)
  }

  /** One step of the drainer (reuse.go:177-199). */
  ghost predicate DrainerEffect(d: DrainerPc, d': DrainerPc, a: Session, a': Session, h: History, h': History) {
    match d
    case NoDrainer => false
    case Draining =>
      a' == a
      && (((d'.Draining? || d'.DrainKills?) && h' == h) // data, discard limit, or an error
          || (d'.DrainGotEof? && h.eof.NotTaken? && h' == h.(eof := TakenByDrainer)))
    case DrainGotEof => a' == (if a.state.Waiting? then a.(state := Ready) else a) && h' == h && d'.Drained?
    case DrainKills => a' == CloseSession(a) && h' == h && d'.Drained?
    case Drained => false
  }

  ghost predicate DrainerStep(s: Sys, s': Sys) {
    && s'.readers == s.readers && s'.flags == s.flags && s'.closer == s.closer
    && DrainerEffect(s.drainer, s'.drainer, s.session, s'.session, s.history, s'.history)
  }

  /** Others close the session, at any time: the pool, or a request that cannot be written (reuse.go:343-376). */
  ghost predicate OutsideStep(s: Sys, s': Sys) {
    && s'.session == CloseSession(s.session)
    && s'.readers == s.readers && s'.flags == s.flags && s'.history == s.history
    && s'.closer == s.closer && s'.drainer == s.drainer
  }

  ghost predicate Next(s: Sys, s': Sys) {
    || (exists t: nat :: ReaderStep(s, s', t))
    || CloserStep(s, s')
    || DrainerStep(s, s')
    || OutsideStep(s, s')
  }

  /** s' is where some interleaving of n steps leads from s. */
  ghost predicate Leads(s: Sys, s': Sys, n: nat)
    decreases n
  {
    if n == 0 then s' == s else exists mid :: Leads(s, mid, n - 1) && Next(mid, s')
  }

  ghost predicate Reachable(s: Sys) {
    exists s0, n :: Initial(s0) && Leads(s0, s, n)
  }

  // ------------------------------------------------------------------- the invariant

  predicate IsCounted(pc: ReaderPc) { !pc.Outside? && !pc.Entering? }

  /** Able to touch the session reader without passing the checks of closed again. */
  predicate InsideReader(pc: ReaderPc) { pc.Replying? || pc.Reading? || pc.GotData? || pc.GotEof? || pc.GotError? }

  function CountedReaders(readers: seq<ReaderPc>): nat
  {
    if readers == [] then 0 else (if IsCounted(readers[0]) then 1 else 0) + CountedReaders(readers[1..])
  }

  predicate TookEof(pc: ReaderPc) { pc.GotEof? || pc.LateEof? || pc.LateStored? || pc.EarlyEof? }

  /** What holds of every single reader. */
  ghost predicate ReaderOk(f: Flags, h: History, pc: ReaderPc) {
    && (TookEof(pc) ==> h.eof.TakenByRead?)
    && (pc.LateEof? || pc.LateStored? || pc.Killing? ==> f.closed)
    && (pc.LateStored? ==> f.readClosed)
    && (h.drainChosen ==> pc.Outside? || pc.Entering? || pc.Counted? || pc.Leaving?)
  }

  ghost predicate AllReadersOk(s: Sys) {
    forall t :: 0 <= t < |s.readers| ==> ReaderOk(s.flags, s.history, s.readers[t])
  }

  /** Close has not yet moved the state away from Active. */
  predicate BeforeSwap(c: CloserPc) {
    || c.NotClosing? || c.Marked? || c.Ending? || c.CheckRead? || c.Releasing?
    || c.CheckIdle? || c.CheckCount? || c.ToWaiting? || c.DrainIdle? || c.DrainSwap?
  }

  predicate OnDrainPath(c: CloserPc) { c.DrainIdle? || c.DrainSwap? || c.DrainPool? }

  /** Close has not loaded a count of zero. */
  predicate OffDrainPath(c: CloserPc) {
    || c.NotClosing? || c.Marked? || c.Ending? || c.CheckRead? || c.Releasing? || c.Returning?
    || c.CheckIdle? || c.CheckCount? || c.ToWaiting? || c.Recheck? || c.ToReady? || c.Pooling?
  }

  /** What holds of the shared variables, whatever the readers are at. */
  ghost predicate Core(a: Session, f: Flags, c: CloserPc, d: DrainerPc, h: History) {
    && a.connCloses == (if a.state.Closed? then 1 else 0)
    && (f.closed <==> !c.NotClosing?)
    && (f.readClosed ==> h.eof.TakenByRead?)
    && (h.lateEofDone ==> f.readClosed)
    && (BeforeSwap(c) ==> a.state.Active? || a.state.Closed?)
    && (a.state.Active? ==> BeforeSwap(c) || c.CloserKills?)
    && (c.Releasing? || c.ToReady? ==> f.readClosed)
    && (a.state.Ready? ==> !h.eof.NotTaken?)
    && (OnDrainPath(c) ==> h.drainChosen)
    && (OffDrainPath(c) ==> !h.drainChosen)
    && (h.drainChosen ==> f.closed)
    && (!d.NoDrainer? ==> h.drainChosen && c.Finished?)
    && (d.DrainGotEof? ==> h.eof.TakenByDrainer?)
    && (h.eof.TakenByDrainer? ==> h.drainChosen)
    && (h.lateEofDone && a.state.Waiting? ==> c.Recheck? || c.ToReady? || h.drainChosen)
    && (h.drainChosen && h.eof.TakenByRead? ==> !a.state.Ready?)
    && (h.sawReadClosed ==>
      c.Releasing? || c.Returning? || c.ToReady? || c.Pooling? || c.SwapFailed? || c.CloserKills? || c.Finished?)
    && (c.Releasing? || c.Returning? || c.ToReady? ==> h.sawReadClosed)
    && (h.sawReadClosed && a.state.Waiting? ==> c.ToReady?)
    && (a.state.Ready? && !h.drainChosen ==> h.sawReadClosed || h.lateEofDone)
    && (h.drainChosen && c.Finished? && !a.state.Closed? ==> !d.NoDrainer?)
    && (c.SwapFailed? ==> a.state.Closed?)
    && (c.Finished? ==> a.pooled || a.state.Closed?)
  }

  ghost predicate Inv(s: Sys) {
    && s.flags.readActionCount == CountedReaders(s.readers)
    && AllReadersOk(s)
    && Core(s.session, s.flags, s.closer, s.drainer, s.history)
  }

  lemma {:induction false} CountedUpdate(readers: seq<ReaderPc>, t: nat, pc: ReaderPc)
    requires t < |readers|
    ensures CountedReaders(readers[t := pc]) ==
            CountedReaders(readers) - (if IsCounted(readers[t]) then 1 else 0) + (if IsCounted(pc) then 1 else 0)
    decreases |readers|
  {
    if t > 0 {
      CountedUpdate(readers[1..], t - 1, pc);
      assert readers[t := pc][1..] == readers[1..][t - 1 := pc];
    } else {
      assert readers[t := pc][1..] == readers[1..];
    }
  }

  lemma {:induction false} CountedPositive(readers: seq<ReaderPc>, t: nat)
    requires t < |readers| && IsCounted(readers[t])
    ensures CountedReaders(readers) > 0
    decreases |readers|
  {
    if t > 0 {
      CountedPositive(readers[1..], t - 1);
    }
  }

  lemma {:induction false} NobodyCounted(readers: seq<ReaderPc>)
    requires forall t :: 0 <= t < |readers| ==> readers[t].Outside?
    ensures CountedReaders(readers) == 0
  {
    if readers != [] {
      NobodyCounted(readers[1..]);
    }
  }

  lemma InitialInv(s: Sys)
    requires Initial(s)
    ensures Inv(s)
  {
    NobodyCounted(s.readers);
  }

  lemma ReaderKeepsCore(s: Sys, s': Sys, t: nat)
    requires ReaderStep(s, s', t) && ReaderOk(s.flags, s.history, s.readers[t])
    requires Core(s.session, s.flags, s.closer, s.drainer, s.history)
    ensures Core(s'.session, s'.flags, s'.closer, s'.drainer, s'.history)
    ensures ReaderOk(s'.flags, s'.history, s'.readers[t])
  {
  }

  lemma ReaderKeepsInv(s: Sys, s': Sys, t: nat)
    requires Inv(s) && ReaderStep(s, s', t)
    ensures Inv(s')
  {
    hide Core;
    ReaderKeepsCore(s, s', t);
    CountedUpdate(s.readers, t, s'.readers[t]);
    forall u | 0 <= u < |s'.readers|
      ensures ReaderOk(s'.flags, s'.history, s'.readers[u])
    {
      assert ReaderOk(s.flags, s.history, s.readers[u]);
    }
  }

  lemma CloserKeepsCore(s: Sys, s': Sys)
    requires CloserStep(s, s') && Core(s.session, s.flags, s.closer, s.drainer, s.history)
    ensures Core(s'.session, s'.flags, s'.closer, s'.drainer, s'.history)
  {
  }

  lemma CloserKeepsInv(s: Sys, s': Sys)
    requires Inv(s) && CloserStep(s, s')
    ensures Inv(s')
  {
    hide Core;
    CloserKeepsCore(s, s');
    forall t | 0 <= t < |s.readers|
      ensures ReaderOk(s'.flags, s'.history, s'.readers[t])
    {
      assert ReaderOk(s.flags, s.history, s.readers[t]);
      if IsCounted(s.readers[t]) {
        CountedPositive(s.readers, t);
      }
    }
  }

  lemma DrainerKeepsInv(s: Sys, s': Sys)
    requires Inv(s) && DrainerStep(s, s')
    ensures Inv(s')
  {
    forall t | 0 <= t < |s.readers|
      ensures ReaderOk(s'.flags, s'.history, s'.readers[t])
    {
      assert ReaderOk(s.flags, s.history, s.readers[t]);
    }
  }

  lemma OutsideKeepsInv(s: Sys, s': Sys)
    requires Inv(s) && OutsideStep(s, s')
    ensures Inv(s')
  {
  }

  /** Every step of every thread keeps the invariant. */
  lemma NextKeepsInv(s: Sys, s': Sys)
    requires Inv(s) && Next(s, s')
    ensures Inv(s')
  {
    hide Inv, CloserStep, DrainerStep, OutsideStep;
    if t: nat :| ReaderStep(s, s', t) {
      ReaderKeepsInv(s, s', t);
    } else if CloserStep(s, s') {
      CloserKeepsInv(s, s');
    } else if DrainerStep(s, s') {
      DrainerKeepsInv(s, s');
    } else {
      OutsideKeepsInv(s, s');
    }
  }

  lemma {:induction false} LeadsKeepsInv(s: Sys, s': Sys, n: nat)
    requires Inv(s) && Leads(s, s', n)
    ensures Inv(s')
    decreases n
  {
    hide Inv, Next;
    if n > 0 {
      var mid :| Leads(s, mid, n - 1) && Next(mid, s');
      LeadsKeepsInv(s, mid, n - 1);
      NextKeepsInv(mid, s');
    }
  }

  lemma ReachableInv(s: Sys)
    requires Reachable(s)
    ensures Inv(s)
  {
    hide Inv, Leads;
    var s0, n :| Initial(s0) && Leads(s0, s, n);
    InitialInv(s0);
    LeadsKeepsInv(s0, s, n);
  }

  // ------------------------------------------------------------------- what follows

  /**
   Once Close has found no read in flight and goes to start a drainer, no read is inside
   the session reader, and none gets in again: drainer and reads never overlap.
   */
  lemma DrainerReadsAlone(s: Sys, t: nat)
    requires Reachable(s) && t < |s.readers| && s.history.drainChosen
    ensures !InsideReader(s.readers[t])
    ensures !s.drainer.NoDrainer? ==> s.history.drainChosen && s.closer.Finished?
  {
    ReachableInv(s);
    assert ReaderOk(s.flags, s.history, s.readers[t]);
  }

  /** The session is Ready only after this connection's end-of-stream record was consumed. */
  lemma ReadyAfterEof(s: Sys)
    requires Reachable(s) && s.session.state.Ready?
    ensures !s.history.eof.NotTaken?
  {
    ReachableInv(s);
  }

  /** The connection is closed exactly once by whoever gets there first, and then stays closed. */
  lemma ClosedExactlyOnce(s: Sys, s': Sys)
    requires Reachable(s) && Next(s, s')
    ensures s.session.connCloses == (if s.session.state.Closed? then 1 else 0)
    ensures s.session.state.Closed? ==> s'.session == s.session || s'.session == s.session.(pooled := true)
  {
    ReachableInv(s);
  }

  /**
   A read that saw the connection closed takes the end-of-stream record, and both it and
   Close have finished. The session is handed back Ready if and only if Close loaded a
   non-zero read count; it is left Waiting if and only if it loaded zero (unless somebody
   closed the session meanwhile).
   */
  lemma LateEofKeptIff(s: Sys)
    requires Reachable(s) && s.history.lateEofDone && s.closer.Finished? && !s.session.state.Closed?
    ensures s.session.state.Ready? <==> !s.history.drainChosen
    ensures s.session.state.Waiting? <==> s.history.drainChosen
  {
    ReachableInv(s);
  }

  /**
   Close has finished and nobody has closed the session. It is left Waiting with no drainer
   if and only if Close loaded a non-zero read count, its last load of readClosed gave false,
   and no read that saw the connection closed has swapped the state back.
   */
  lemma LeftWaitingIff(s: Sys)
    requires Reachable(s) && s.closer.Finished? && !s.session.state.Closed?
    ensures s.session.state.Waiting? && s.drainer.NoDrainer? <==>
            !s.history.drainChosen && !s.history.sawReadClosed && !s.history.lateEofDone
  {
    ReachableInv(s);
  }

  // ------------------------------------------------------------------- what Close looks at

  /** Close has gone past its look at replyRead. */
  predicate PastReply(c: CloserPc) {
    !c.NotClosing? && !c.Marked? && !c.SwapFailed? && !c.CloserKills? && !c.Finished?
  }

  /** The reply has been read wherever Close does more than close the session, and by the time the session is pooled. */
  predicate ReplyFirst(s: Sys) {
    (PastReply(s.closer) ==> s.flags.replyRead) && (s.session.pooled ==> s.flags.replyRead)
  }

  lemma NextKeepsReplyFirst(s: Sys, s': Sys)
    requires ReplyFirst(s) && Next(s, s')
    ensures ReplyFirst(s')
  {
  }

  lemma {:induction false} LeadsKeepsReplyFirst(s: Sys, s': Sys, n: nat)
    requires ReplyFirst(s) && Leads(s, s', n)
    ensures ReplyFirst(s')
    decreases n
  {
    hide Next, ReplyFirst;
    if n > 0 {
      var mid :| Leads(s, mid, n - 1) && Next(mid, s');
      LeadsKeepsReplyFirst(s, mid, n - 1);
      NextKeepsReplyFirst(mid, s');
    }
  }

  /** A session is handed to the pool, for the next connection, only with its reply read. */
  lemma PooledOnlyWithReply(s: Sys)
    requires Reachable(s) && s.session.pooled
    ensures s.flags.replyRead
  {
    hide Leads;
    var s0, n :| Initial(s0) && Leads(s0, s, n);
    LeadsKeepsReplyFirst(s0, s, n);
  }

  /** Close leaves no session behind: it is in the pool, or closed. */
  lemma PooledOrClosed(s: Sys)
    requires Reachable(s) && s.closer.Finished?
    ensures s.session.pooled || s.session.state.Closed?
  {
    ReachableInv(s);
  }

  /** A read that finds the reply read does not read it again, nor stops for it. */
  lemma ReplyReadOnce(s: Sys, s': Sys, t: nat)
    requires ReaderStep(s, s', t) && s.readers[t].Replying? && s.flags.replyRead
    ensures s'.readers[t].Reading? && s'.flags == s.flags
  {
  }

  /** A read is stopped by an error after Close has begun, and has not closed the session for it yet. */
  predicate StoppedLate(s: Sys, t: nat) {
    t < |s.readers| && s.flags.closed
    && (s.session.state.Closed? || s.readers[t].GotError? || s.readers[t].Killing?)
  }

  lemma NextKeepsStopped(s: Sys, s': Sys, t: nat)
    requires StoppedLate(s, t) && Next(s, s')
    ensures StoppedLate(s', t)
  {
  }

  /** An error read after Close has begun closes the session before the read returns. */
  lemma {:induction false} ErrorAfterCloseKills(s: Sys, s': Sys, n: nat, t: nat)
    requires StoppedLate(s, t) && Leads(s, s', n)
    ensures StoppedLate(s', t)
    ensures s'.readers[t].Outside? ==> s'.session.state.Closed?
    decreases n
  {
    hide Next, StoppedLate;
    if n > 0 {
      var mid :| Leads(s, mid, n - 1) && Next(mid, s');
      ErrorAfterCloseKills(s, mid, n - 1, t);
      NextKeepsStopped(mid, s', t);
    }
    StoppedMeans(s', t);
  }

  lemma StoppedMeans(s: Sys, t: nat)
    requires StoppedLate(s, t)
    ensures t < |s.readers| && (s.readers[t].Outside? ==> s.session.state.Closed?)
  {
  }

  /** Close has not looked at readClosed for the first time. */
  predicate BeforeFirstLook(c: CloserPc) { c.NotClosing? || c.Marked? || c.Ending? || c.CheckRead? }

  /** Close has not looked for the last time, unless it finds no read in flight. */
  predicate BeforeLastLook(c: CloserPc) {
    BeforeFirstLook(c) || c.CheckIdle? || c.CheckCount? || c.ToWaiting? || c.Recheck?
  }

  /** Close is on a way out that does not leave the session waiting. */
  predicate OnItsWayOut(c: CloserPc) {
    c.Releasing? || c.Returning? || c.SwapFailed? || c.CloserKills? || c.Finished?
  }

  /** What an end of stream that was stored before a look leaves Close to do. */
  predicate Heeded(s: Sys, first: bool) {
    var c := s.closer;
    && s.flags.readClosed
    && if first then
         (BeforeFirstLook(c) || OnItsWayOut(c)) && !s.session.state.Waiting?
       else
         && (s.history.drainChosen || BeforeLastLook(c) || c.ToReady? || c.Pooling? || OnItsWayOut(c))
         && (s.session.state.Waiting? ==> c.Recheck? || c.ToReady? || s.history.drainChosen)
  }

  lemma NextKeepsHeeded(s: Sys, s': Sys, first: bool)
    requires Core(s.session, s.flags, s.closer, s.drainer, s.history) && Heeded(s, first) && Next(s, s')
    ensures Heeded(s', first)
  {
  }

  lemma {:induction false} LeadsKeepsHeeded(s: Sys, s': Sys, n: nat, first: bool)
    requires Inv(s) && Heeded(s, first) && Leads(s, s', n)
    ensures Inv(s') && Heeded(s', first)
    decreases n
  {
    hide Core, AllReadersOk, Next, CountedReaders, Heeded;
    if n > 0 {
      var mid :| Leads(s, mid, n - 1) && Next(mid, s');
      LeadsKeepsHeeded(s, mid, n - 1, first);
      NextKeepsHeeded(mid, s', first);
      NextKeepsInv(mid, s');
    }
  }

  /**
   An end of stream that a read has stored is heeded: before Close's first look it keeps the
   session from ever waiting, and before its last look from waiting without a drainer.
   */
  lemma StoredEofHeeded(s: Sys, s': Sys, n: nat)
    requires Reachable(s) && s.flags.readClosed && Leads(s, s', n) && s'.closer.Finished? && s'.session.state.Waiting?
    ensures !BeforeFirstLook(s.closer)
    ensures BeforeLastLook(s.closer) ==> !s'.drainer.NoDrainer?
  {
    hide Leads, Reachable;
    ReachableInv(s);
    if BeforeFirstLook(s.closer) {
      LeadsKeepsHeeded(s, s', n, true);
    } else if BeforeLastLook(s.closer) {
      LeadsKeepsHeeded(s, s', n, false);
    }
  }

  ghost predicate NobodyInside(s: Sys) {
    s.flags.closed && forall t :: 0 <= t < |s.readers| ==> s.readers[t].Outside?
  }

  lemma NobodyEnters(s: Sys, s': Sys)
    requires NobodyInside(s) && Next(s, s')
    ensures NobodyInside(s')
  {
    hide CloserEffect, DrainerEffect;
    ClosedStays(s, s');
    if t: nat :| ReaderStep(s, s', t) {
      assert s.readers[t].Outside?;
    }
  }

  lemma ClosedStays(s: Sys, s': Sys)
    requires Next(s, s') && s.flags.closed
    ensures s'.flags.closed
  {
  }

  /** Once Close has begun and no read is in a call, none gets in any more. */
  lemma {:induction false} NoReadBegins(s: Sys, s': Sys, n: nat)
    requires NobodyInside(s) && Leads(s, s', n)
    ensures NobodyInside(s')
    decreases n
  {
    hide NobodyInside, Next;
    if n > 0 {
      var mid :| Leads(s, mid, n - 1) && Next(mid, s');
      NoReadBegins(s, mid, n - 1);
      NobodyEnters(mid, s');
    }
  }

  lemma Further(s0: Sys, s: Sys, s': Sys, n: nat)
    requires Leads(s0, s, n) && Next(s, s')
    ensures Leads(s0, s', n + 1)
  {
  }

  lemma ByReader(s0: Sys, s: Sys, n: nat, s': Sys)
    requires Leads(s0, s, n) && |s.readers| == 1 && ReaderStep(s, s', 0)
    ensures Leads(s0, s', n + 1)
  {
    hide ReaderStep, CloserStep, DrainerStep, OutsideStep, Leads;
    Further(s0, s, s', n);
  }

  lemma ByCloser(s0: Sys, s: Sys, n: nat, s': Sys)
    requires Leads(s0, s, n) && CloserStep(s, s')
    ensures Leads(s0, s', n + 1)
  {
    hide ReaderStep, CloserStep, DrainerStep, OutsideStep, Leads;
    Further(s0, s, s', n);
  }

  /** One read, up to the point where it waits inside the session reader. */
  lemma OneReadInside() returns (s0: Sys, s: Sys)
    ensures Initial(s0) && Leads(s0, s, 4)
    ensures s == Sys(Session(Active, 0, false), Flags(false, true, false, 1), [Reading], NotClosing, NoDrainer,
            History(NotTaken, false, false, false))
  {
    hide Leads;
    s0 := Sys(Session(Active, 0, false), Flags(false, false, false, 0), [Outside], NotClosing, NoDrainer,
      History(NotTaken, false, false, false));
    LeadsNowhere(s0);
    var s1 := s0.(readers := [Entering]);
    ByReader(s0, s0, 0, s1);
    var s2 := s1.(readers := [Counted], flags := s1.flags.(readActionCount := 1));
    ByReader(s0, s1, 1, s2);
    var s3 := s2.(readers := [Replying]);
    ByReader(s0, s2, 2, s3);
    s := s3.(readers := [Reading], flags := s3.flags.(replyRead := true));
    ByReader(s0, s3, 3, s);
  }

  /** Close, undisturbed from its first step to its load of the read count. */
  lemma CloseUpToCount(s0: Sys, s: Sys, n: nat) returns (s': Sys)
    requires Leads(s0, s, n) && s.closer.NotClosing? && s.flags.replyRead && !s.flags.readClosed
    requires !s.history.sawReadClosed
    ensures Leads(s0, s', n + 5) && s' == s.(closer := CheckCount, flags := s.flags.(closed := true))
  {
    hide Leads;
    var b := s.(closer := Marked, flags := s.flags.(closed := true));
    ByCloser(s0, s, n, b);
    var c := b.(closer := Ending);
    ByCloser(s0, b, n + 1, c);
    var d := c.(closer := CheckRead);
    ByCloser(s0, c, n + 2, d);
    var e := d.(closer := CheckIdle);
    ByCloser(s0, d, n + 3, e);
    s' := e.(closer := CheckCount);
    ByCloser(s0, e, n + 4, s');
  }

  /** Close, from a read count of zero to a drainer started. */
  lemma CloseDrains(s0: Sys, s: Sys, n: nat) returns (s': Sys)
    requires Leads(s0, s, n) && s.closer.CheckCount? && s.flags.readActionCount == 0 && s.session.state.Active?
    ensures Leads(s0, s', n + 4)
    ensures s' == Sys(Session(Waiting, s.session.connCloses, true), s.flags, s.readers, Finished, Draining,
            s.history.(drainChosen := true))
  {
    hide Leads;
    var b := s.(closer := DrainIdle, history := s.history.(drainChosen := true));
    ByCloser(s0, s, n, b);
    var c := b.(closer := DrainSwap);
    ByCloser(s0, b, n + 1, c);
    var d := c.(closer := DrainPool, session := c.session.(state := Waiting));
    ByCloser(s0, c, n + 2, d);
    s' := d.(closer := Finished, drainer := Draining, session := d.session.(pooled := true));
    ByCloser(s0, d, n + 3, s');
  }

  /** Close, from a read in flight to a session pooled without a drainer. */
  lemma ClosePoolsWaiting(s0: Sys, s: Sys, n: nat) returns (s': Sys)
    requires Leads(s0, s, n) && s.closer.CheckCount? && s.session.state.Active?
    requires s.flags.readActionCount > 0 && !s.flags.readClosed && !s.history.drainChosen && !s.history.sawReadClosed
    ensures Leads(s0, s', n + 4)
    ensures s' == s.(closer := Finished, session := Session(Waiting, s.session.connCloses, true))
  {
    hide Leads;
    var b := s.(closer := ToWaiting);
    ByCloser(s0, s, n, b);
    var c := b.(closer := Recheck, session := b.session.(state := Waiting));
    ByCloser(s0, b, n + 1, c);
    var d := c.(closer := Pooling);
    ByCloser(s0, c, n + 2, d);
    s' := d.(closer := Finished, session := d.session.(pooled := true));
    ByCloser(s0, d, n + 3, s');
  }

  /** A read inside the session reader takes the end of the stream after Close has begun, and returns. */
  lemma ReadTakesLateEof(s0: Sys, f: Sys, n: nat) returns (k: Sys)
    requires Leads(s0, f, n) && f.readers == [Reading] && f.flags.closed && f.session.state.Active?
             && f.history.eof.NotTaken?
    ensures Leads(s0, k, n + 5)
    ensures k == f.(readers := [Outside],
                    flags := f.flags.(readClosed := true, readActionCount := f.flags.readActionCount - 1),
                    history := f.history.(eof := TakenByRead, lateEofDone := true))
  {
    hide Leads;
    var g := f.(readers := [GotEof], history := f.history.(eof := TakenByRead));
    ByReader(s0, f, n, g);
    var h := g.(readers := [LateEof]);
    ByReader(s0, g, n + 1, h);
    var i := h.(readers := [LateStored], flags := h.flags.(readClosed := true));
    ByReader(s0, h, n + 2, i);
    var j := i.(readers := [Leaving], history := i.history.(lateEofDone := true));
    ByReader(s0, i, n + 3, j);
    k := j.(readers := [Outside], flags := j.flags.(readActionCount := j.flags.readActionCount - 1));
    ByReader(s0, j, n + 4, k);
  }

  /** The same before Close has begun, up to the point where readClosed is still to be stored. */
  lemma ReadTakesEarlyEof(s0: Sys, a: Sys, n: nat) returns (c: Sys)
    requires Leads(s0, a, n) && a.readers == [Reading] && !a.flags.closed && a.history.eof.NotTaken?
    ensures Leads(s0, c, n + 2)
    ensures c == a.(readers := [EarlyEof], history := a.history.(eof := TakenByRead))
  {
    hide Leads;
    var b := a.(readers := [GotEof], history := a.history.(eof := TakenByRead));
    ByReader(s0, a, n, b);
    c := b.(readers := [EarlyEof]);
    ByReader(s0, b, n + 1, c);
  }

  lemma LeadsNowhere(s: Sys)
    ensures Leads(s, s, 0)
  {
  }

  /**
   The window is real: a read takes the end-of-stream record, seeing closed, between
   Close's load of readClosed (reuse.go:482) and its load of readActionCount (:492). Its
   compare-and-swap finds the session still Active, Close then finds no read in flight
   and starts a drainer for a record that is gone.
   */
  lemma LateEofLost() returns (s: Sys)
    ensures Reachable(s) && s.history.lateEofDone && s.closer.Finished? && s.readers == [Outside]
    ensures s.session.state.Waiting? && s.drainer.Draining? && s.history.eof.TakenByRead?
  {
    hide Leads;
    var s0, a := OneReadInside();
    var f := CloseUpToCount(s0, a, 4);
    var k := ReadTakesLateEof(s0, f, 9);
    s := CloseDrains(s0, k, 14);
  }

  lemma LossOneStep(s: Sys, s': Sys)
    requires Core(s.session, s.flags, s.closer, s.drainer, s.history) && Next(s, s')
    requires s.history.drainChosen && s.history.eof.TakenByRead?
    ensures s'.history.drainChosen && s'.history.eof.TakenByRead?
  {
  }

  lemma {:induction false} LossIsStable(s: Sys, s': Sys, n: nat)
    requires Inv(s) && Leads(s, s', n) && s.history.drainChosen && s.history.eof.TakenByRead?
    ensures s'.history.drainChosen && s'.history.eof.TakenByRead? && Inv(s')
    decreases n
  {
    hide Core, AllReadersOk, Next, CountedReaders;
    if n > 0 {
      var mid :| Leads(s, mid, n - 1) && Next(mid, s');
      LossIsStable(s, mid, n - 1);
      LossOneStep(mid, s');
      NextKeepsInv(mid, s');
    }
  }

  /** And it is final: from there no step of anybody makes the session Ready again. */
  lemma LostForGood(s: Sys, s': Sys, n: nat)
    requires Reachable(s) && s.history.drainChosen && s.history.eof.TakenByRead? && Leads(s, s', n)
    ensures !s'.session.state.Ready?
  {
    ReachableInv(s);
    LossIsStable(s, s', n);
  }

  /** A read that has taken the end of stream, and saw or will see the connection closed. */
  predicate AboutToSwap(pc: ReaderPc) { pc.GotEof? || pc.LateEof? || pc.LateStored? }

  ghost predicate SomeoneSwaps(readers: seq<ReaderPc>) {
    exists t :: 0 <= t < |readers| && AboutToSwap(readers[t])
  }

  /** A read that may still take the end of stream: it is inside the session reader, or about to go there. */
  predicate MayTakeEof(pc: ReaderPc) { pc.Replying? || pc.Reading? || pc.GotData? }

  ghost predicate SomeoneReads(readers: seq<ReaderPc>) {
    exists t :: 0 <= t < |readers| && MayTakeEof(readers[t])
  }

  /** Somebody who has the end of stream is about to swap the state, or somebody may still come to have it. */
  ghost predicate Hope(s: Sys) {
    || s.drainer.DrainGotEof?
    || SomeoneSwaps(s.readers)
    || (s.history.eof.NotTaken? && (s.drainer.Draining? || SomeoneReads(s.readers)))
  }

  /** Close is over, and the session is closed or beyond hope. */
  ghost predicate NeverReady(s: Sys) {
    s.closer.Finished? && !s.session.state.Ready? && (s.session.state.Closed? || !Hope(s))
  }

  lemma NeverReadyOneStep(s: Sys, s': Sys)
    requires Core(s.session, s.flags, s.closer, s.drainer, s.history) && Next(s, s') && NeverReady(s)
    ensures NeverReady(s')
  {
  }

  lemma {:induction false} NeverReadyIsStable(s: Sys, s': Sys, n: nat)
    requires Inv(s) && Leads(s, s', n) && NeverReady(s)
    ensures NeverReady(s') && Inv(s')
    decreases n
  {
    hide Core, AllReadersOk, Next, CountedReaders, NeverReady;
    if n > 0 {
      var mid :| Leads(s, mid, n - 1) && Next(mid, s');
      NeverReadyIsStable(s, mid, n - 1);
      NeverReadyOneStep(mid, s');
      NextKeepsInv(mid, s');
    }
  }

  lemma OneStepOfReader(s: Sys, a: Sys, n: nat, s': Sys, t: nat)
    requires Leads(s, a, n) && ReaderStep(a, s', t)
    ensures Leads(s, s', n + 1)
  {
    hide ReaderStep, CloserStep, DrainerStep, OutsideStep, Leads;
    Further(s, a, s', n);
  }

  lemma OneStepOfDrainer(s: Sys, a: Sys, n: nat, s': Sys)
    requires Leads(s, a, n) && DrainerStep(a, s')
    ensures Leads(s, s', n + 1)
  {
    hide ReaderStep, CloserStep, DrainerStep, OutsideStep, Leads;
    Further(s, a, s', n);
  }

  /** Left to run alone, a read that has the end of stream makes a Waiting session Ready. */
  lemma SwapsAlone(s0: Sys, s: Sys, m: nat, t: nat) returns (s': Sys, n: nat)
    requires Leads(s0, s, m) && s.flags.closed && s.session.state.Waiting?
    requires t < |s.readers| && AboutToSwap(s.readers[t])
    ensures Leads(s0, s', n) && s'.session.state.Ready?
  {
    hide Leads;
    s', n := s, m;
    if s'.readers[t].GotEof? {
      var a := s'.(readers := s'.readers[t := LateEof]);
      OneStepOfReader(s0, s', n, a, t);
      s', n := a, n + 1;
    }
    if s'.readers[t].LateEof? {
      var a := s'.(readers := s'.readers[t := LateStored], flags := s'.flags.(readClosed := true));
      OneStepOfReader(s0, s', n, a, t);
      s', n := a, n + 1;
    }
    var a := s'.(readers := s'.readers[t := Leaving], session := s'.session.(state := Ready),
                 history := s'.history.(lateEofDone := true));
    OneStepOfReader(s0, s', n, a, t);
    s', n := a, n + 1;
  }

  /** So does one that is still to read it. */
  lemma ReadsAlone(s: Sys, t: nat) returns (s': Sys, n: nat)
    requires s.flags.closed && s.session.state.Waiting? && s.history.eof.NotTaken?
    requires t < |s.readers| && MayTakeEof(s.readers[t])
    ensures Leads(s, s', n) && s'.session.state.Ready?
  {
    hide Leads;
    s', n := s, 0;
    LeadsNowhere(s);
    if !s'.readers[t].Reading? {
      var replyRead := s'.flags.replyRead || s'.readers[t].Replying?;
      var a := s'.(readers := s'.readers[t := Reading], flags := s'.flags.(replyRead := replyRead));
      OneStepOfReader(s, s', n, a, t);
      s', n := a, n + 1;
    }
    var a := s'.(readers := s'.readers[t := GotEof], history := s'.history.(eof := TakenByRead));
    OneStepOfReader(s, s', n, a, t);
    s', n := SwapsAlone(s, a, n + 1, t);
  }

  lemma DrainsAlone(s: Sys) returns (s': Sys, n: nat)
    requires s.session.state.Waiting?
    requires s.drainer.DrainGotEof? || (s.drainer.Draining? && s.history.eof.NotTaken?)
    ensures Leads(s, s', n) && s'.session.state.Ready?
  {
    hide Leads;
    s', n := s, 0;
    LeadsNowhere(s);
    if s'.drainer.Draining? {
      var a := s'.(drainer := DrainGotEof, history := s'.history.(eof := TakenByDrainer));
      OneStepOfDrainer(s, s', n, a);
      s', n := a, n + 1;
    }
    var a := s'.(drainer := Drained, session := s'.session.(state := Ready));
    OneStepOfDrainer(s, s', n, a);
    s', n := a, n + 1;
  }

  /**
   A session that is Waiting after Close can still become Ready, in some interleaving, if and
   only if the drainer or a read has the end of stream and is about to swap the state, or the
   end of stream has not been taken and a drainer or a read is there to take it.
   */
  lemma CanBecomeReadyIff(s: Sys)
    requires Reachable(s) && s.closer.Finished? && s.session.state.Waiting?
    ensures (exists s', n :: Leads(s, s', n) && s'.session.state.Ready?) <==> Hope(s)
  {
    hide Leads, Reachable;
    ReachableInv(s);
    if Hope(s) {
      var s', n;
      if t :| 0 <= t < |s.readers| && AboutToSwap(s.readers[t]) {
        LeadsNowhere(s);
        s', n := SwapsAlone(s, s, 0, t);
      } else if s.drainer.DrainGotEof? || s.drainer.Draining? {
        s', n := DrainsAlone(s);
      } else {
        var t :| 0 <= t < |s.readers| && MayTakeEof(s.readers[t]);
        s', n := ReadsAlone(s, t);
      }
    } else {
      forall s', n | Leads(s, s', n) ensures !s'.session.state.Ready? {
        NeverReadyIsStable(s, s', n);
      }
    }
  }

  lemma ReadStoresReadClosed(s0: Sys, l: Sys, n: nat) returns (s: Sys)
    requires Leads(s0, l, n) && l.readers == [EarlyEof] && l.flags.readActionCount == 1
    ensures Leads(s0, s, n + 2)
    ensures s == l.(readers := [Outside], flags := l.flags.(readClosed := true, readActionCount := 0))
  {
    hide Leads;
    var m := l.(readers := [Leaving], flags := l.flags.(readClosed := true));
    ByReader(s0, l, n, m);
    s := m.(readers := [Outside], flags := m.flags.(readActionCount := 0));
    ByReader(s0, m, n + 1, s);
  }

  /**
   A read that did not see the connection closed may leave it Waiting with no drainer: it
   stores readClosed only after Close has looked a second time and pooled the session.
   */
  lemma EarlyEofLeavesNoDrainer() returns (s: Sys)
    ensures Reachable(s) && s.closer.Finished? && s.readers == [Outside]
    ensures s.session.state.Waiting? && s.drainer.NoDrainer? && s.flags.readClosed && !s.history.lateEofDone
    ensures s.history.eof.TakenByRead? && !Hope(s)
  {
    hide Leads;
    var s0, a := OneReadInside();
    var c := ReadTakesEarlyEof(s0, a, 4);
    var h := CloseUpToCount(s0, c, 6);
    var l := ClosePoolsWaiting(s0, h, 11);
    s := ReadStoresReadClosed(s0, l, 15);
  }

  /** A read that did not see the connection closed takes data, and is about to be uncounted. */
  lemma ReadTakesEarlyData(s0: Sys, a: Sys, n: nat) returns (c: Sys)
    requires Leads(s0, a, n) && a.readers == [Reading] && !a.flags.closed
    ensures Leads(s0, c, n + 2) && c == a.(readers := [Leaving])
  {
    hide Leads;
    var b := a.(readers := [GotData]);
    ByReader(s0, a, n, b);
    c := b.(readers := [Leaving]);
    ByReader(s0, b, n + 1, c);
  }

  /**
   Nor need anybody have taken the end of stream: a read still counted when Close looks, but
   already on its way out with data, leaves the session Waiting for a record that no read and
   no drainer is there to take.
   */
  lemma DataLeavesNoDrainer() returns (s: Sys)
    ensures Reachable(s) && s.closer.Finished? && s.readers == [Outside]
    ensures s.session.state.Waiting? && s.drainer.NoDrainer? && s.history.eof.NotTaken? && !Hope(s)
  {
    hide Leads;
    var s0, a := OneReadInside();
    var c := ReadTakesEarlyData(s0, a, 4);
    var h := CloseUpToCount(s0, c, 6);
    var l := ClosePoolsWaiting(s0, h, 11);
    s := l.(readers := [Outside], flags := l.flags.(readActionCount := 0));
    ByReader(s0, l, 15, s);
  }
}
