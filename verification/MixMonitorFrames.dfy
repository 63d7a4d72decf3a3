// What becomes of the frames that the recording thread reads (apps/app_mixmonitor.c:294-347), and of
// the file when StopMixMonitor has closed it (554-582).
module MixMonitorFrames {
  import opened Prelude
  import opened MixMonitorDatastore
  import opened MixMonitorProtocol
  import opened MixMonitorTheorems

  // A frame is taken from the audiohook; and the section that stores it ends.
  predicate Reads(s: State, s': State) { s.t != THaveFrame && s'.t == THaveFrame }

  predicate Stores(s: State, s': State) { s.t == TStore && s'.t != TStore }

  predicate InHand(t: TPc) { t == THaveFrame || t == TStore }

  // ------------------------------------------------------------------------ one section

  // Without option b, or while the channel is there and bridged.
  predicate Wanted(s: State) {
    !s.rec.bridgedOnly || (s.ds.chan.Some? && s.chans.bridged)
  }

  // A frame that is wanted is written whenever the stream is open; if the stream is not open and may
  // still be opened, it is opened for the frame or found unopenable. No other frame has any effect.
  lemma StoredFrame(s: State, s': State)
    requires LocksOk(s) && Step(s, s') && Stores(s, s')
    ensures Wanted(s) && s.ds.fsOpen ==>
      s'.rec.log == s.rec.log + [Written] && s'.ds.fsOpen && s'.rec.errflag == s.rec.errflag
    ensures Wanted(s) && !s.ds.fsOpen && !s.rec.errflag && !s.ds.fsQuit ==>
      if s'.rec.errflag then s'.rec.log == s.rec.log && !s'.ds.fsOpen
      else s'.rec.log == s.rec.log + [Opened, Written] && s'.ds.fsOpen
    ensures !Wanted(s) || (!s.ds.fsOpen && (s.rec.errflag || s.ds.fsQuit)) ==> s'.rec == s.rec && s'.ds == s.ds
  {
  }

  // No other step writes or opens, and a step that finds the stream open and leaves it closed is
  // the one event it has.
  lemma OtherEvents(s: State, s': State)
    requires LocksOk(s) && Step(s, s') && !Stores(s, s')
    ensures s'.rec == if s.ds.fsOpen && !s'.ds.fsOpen then Logged(s.rec, [ClosedIt]) else s.rec
    ensures s'.ds.fsOpen ==> s.ds.fsOpen
  {
    if TStep(s, s') {
      ThreadEvents(s, s');
    }
  }

  lemma ThreadEvents(s: State, s': State)
    requires LocksOk(s) && TStep(s, s') && !Stores(s, s')
    ensures s'.rec == if s.ds.fsOpen && !s'.ds.fsOpen then Logged(s.rec, [ClosedIt]) else s.rec
    ensures s'.ds.fsOpen ==> s.ds.fsOpen
  {
  }

  // What follows is a frame in hand until it is stored, and a stopped thread takes no frame.
  lemma FrameKept(s: State, s': State)
    requires LocksOk(s) && Step(s, s')
    ensures InHand(s'.t) <==> Reads(s, s') || (InHand(s.t) && !Stores(s, s'))
    ensures Reads(s, s') ==> s.t == TAwake && s.hook.status == Running && !InHand(s.t)
    ensures s.t == TAwake && s'.t != TAwake && s.hook.status != Running ==> s'.t == TLeave
  {
  }

  // ------------------------------------------------------------------------- over a run

  function Writes(log: seq<StreamEvent>): nat {
    if log == [] then 0 else Writes(log[..|log| - 1]) + if log[|log| - 1] == Written then 1 else 0
  }

  lemma {:induction false} WritesAppend(log: seq<StreamEvent>, more: seq<StreamEvent>)
    ensures Writes(log + more) == Writes(log) + Writes(more)
  {
    if more == [] {
      assert log + more == log;
    } else {
      var n := |more| - 1;
      assert (log + more)[..|log + more| - 1] == log + more[..n];
      WritesAppend(log, more[..n]);
    }
  }

  // How many of the first n steps are of a kind.
  ghost function Steps(kind: (State, State) -> bool, run: seq<State>, n: nat): nat
    requires n < |run|
  {
    if n == 0 then 0 else Steps(kind, run, n - 1) + if kind(run[n - 1], run[n]) then 1 else 0
  }

  // The section ended with the stream open, and the frame was wanted.
  predicate Reaches(s: State, s': State) { Stores(s, s') && Wanted(s) && s'.ds.fsOpen }

  lemma WritesNext(s: State, s': State)
    requires LocksOk(s) && Step(s, s')
    ensures Writes(s'.rec.log) == Writes(s.rec.log) + if Reaches(s, s') then 1 else 0
  {
    assert [Opened, Written][..1] == [Opened] && [Opened][..0] == [] && [Written][..0] == [] && [ClosedIt][..0] == [];
    assert Writes([Opened, Written]) == 1 && Writes([Written]) == 1 && Writes([ClosedIt]) == 0;
    if Stores(s, s') {
      StoredFrame(s, s');
      WritesAppend(s.rec.log, [Written]);
      WritesAppend(s.rec.log, [Opened, Written]);
    } else {
      OtherEvents(s, s');
      WritesAppend(s.rec.log, [ClosedIt]);
    }
  }

  lemma FrameAt(run: Run, n: nat)
    requires 0 < n < |run|
    ensures var s, s' := run[n - 1], run[n];
      && Writes(s'.rec.log) == Writes(s.rec.log) + (if Reaches(s, s') then 1 else 0)
      && (InHand(s'.t) <==> Reads(s, s') || (InHand(s.t) && !Stores(s, s')))
      && (Reads(s, s') ==> !InHand(s.t))
  {
    RunInv(run, n - 1);
    assert StepAt(run, n - 1);
    WritesNext(run[n - 1], run[n]);
    FrameKept(run[n - 1], run[n]);
  }

  // The file holds as many frames as there were sections that ended with the stream open, less
  // those whose frame was not wanted.
  lemma {:induction false} FramesWritten(run: Run, n: nat)
    requires n < |run|
    ensures Writes(run[n].rec.log) == Steps(Reaches, run, n)
  {
    if n > 0 {
      FramesWritten(run, n - 1);
      FrameAt(run, n);
    }
  }

  // Every frame that was read is stored once, but for the one in hand.
  lemma {:induction false} FramesStored(run: Run, n: nat)
    requires n < |run|
    ensures Steps(Reads, run, n) == Steps(Stores, run, n) + if InHand(run[n].t) then 1 else 0
  {
    if n > 0 {
      FramesStored(run, n - 1);
      FrameAt(run, n);
    }
  }

  // ------------------------------------------------------------------------- StopMixMonitor

  // The section of StopMixMonitor that closes the stream.
  predicate StopCloses(s: State, s': State) { s.d == DClosing && s'.d != DClosing }

  lemma StopSection(s: State, s': State)
    requires LocksOk(s) && Step(s, s') && StopCloses(s, s')
    ensures !s'.ds.fsOpen && (s.ds.fsOpen ==> s'.ds.fsQuit && s'.rec.log == s.rec.log + [ClosedIt])
  {
  }

  // A file that was open when StopMixMonitor got to it is closed there and then, and never touched
  // again.
  lemma StopMakesAvailable(run: Run, i: nat, j: nat)
    requires i < j < |run| && StopCloses(run[i], run[i + 1]) && run[i].ds.fsOpen
    ensures run[j].rec.log == run[i].rec.log + [ClosedIt] && OnceClosed(run[j].rec.log) && !run[j].ds.fsOpen
  {
    RunInv(run, i);
    assert StepAt(run, i);
    StopSection(run[i], run[i + 1]);
    QuitIsFinal(run, i + 1, j);
    RunInv(run, j);
  }

  // -------------------------------------------------------------------- the audiohook's status

  function Phase(status: Status): nat {
    match status case New => 0 case Running => 1 case Shutdown => 2 case Done => 3
  }

  predicate Marks(s: State, s': State) {
    (s.d == DMarking && s'.d != DMarking) || (s.h == HMarking && s'.h != HMarking)
  }

  // The status only moves on. Marking an audiohook leaves it shut down, or done if it was;
  // the end of its list leaves it done.
  lemma StatusMovesOn(s: State, s': State)
    requires LocksOk(s) && HookOk(s) && Step(s, s')
    ensures Phase(s.hook.status) <= Phase(s'.hook.status)
    ensures Marks(s, s') ==> s'.hook.status == if s.hook.status == Done then Done else Shutdown
    ensures s.h == HHanging && s'.h != HHanging ==> s'.hook.status == Done
    ensures s.h == HServing && s'.h != HServing && s.hook.status != Running ==> s'.hook.status == Done && !s'.hook.inList
    ensures s.hook.status != s'.hook.status ==>
      Marks(s, s') || s.h == HHanging || s.h == HServing || s.t == TDetach
  {
    if HStep(s, s') {
      HookSideStatus(s, s');
    } else if TStep(s, s') {
      ThreadStatus(s, s');
    }
  }

  lemma HookSideStatus(s: State, s': State)
    requires LocksOk(s) && HookOk(s) && HStep(s, s')
    ensures Phase(s.hook.status) <= Phase(s'.hook.status) && s'.d == s.d
    ensures Marks(s, s') ==> s'.hook.status == if s.hook.status == Done then Done else Shutdown
    ensures s.h == HHanging && s'.h != HHanging ==> s'.hook.status == Done
    ensures s.h == HServing && s'.h != HServing && s.hook.status != Running ==> s'.hook.status == Done && !s'.hook.inList
    ensures s.hook.status != s'.hook.status ==> Marks(s, s') || s.h == HHanging || s.h == HServing
  {
  }

  lemma ThreadStatus(s: State, s': State)
    requires LocksOk(s) && HookOk(s) && TStep(s, s')
    ensures s'.h == s.h && s'.d == s.d && Phase(s.hook.status) <= Phase(s'.hook.status)
    ensures s.hook.status != s'.hook.status ==> s.t == TDetach
  {
  }

  // A frame that has been fed wakes a thread asleep on the trigger.
  lemma FedFrameWakes(s: State, s': State)
    requires LocksOk(s) && HStep(s, s') && s.h == HServing && s.hook.inList && s'.hook.inList && s.t == TAsleep
    ensures s'.hook.woken && s'.h == HIdle && s'.hookLock == Nobody
  {
  }

  // The thread has forgotten its audiohook before it detaches it.
  lemma ForgottenFirst(s: State, s': State)
    requires LocksOk(s) && Step(s, s') && s'.t == TDetachLock && s.t != TDetachLock
    ensures !s'.ds.audiohook
  {
  }

  // A channel that has been destroyed is gone, and nobody pokes through a datastore that was.
  lemma DestroyedChannel(s: State, s': State)
    requires Step(s, s') && s.d == DFreeChan && s'.d != DFreeChan
    ensures s.chans.ds in s'.chans.freed
  {
  }

  lemma {:induction false} DestroyedNotPoked(run: Run, n: nat)
    requires n < |run|
    ensures run[n].ds.destructionOk ==> !run[n].ds.audiohook
  {
    if n > 0 {
      DestroyedNotPoked(run, n - 1);
      RunInv(run, n - 1);
      assert StepAt(run, n - 1);
      NotPokedNext(run[n - 1], run[n]);
    }
  }

  lemma NotPokedNext(s: State, s': State)
    requires LocksOk(s) && Step(s, s') && (s.ds.destructionOk ==> !s.ds.audiohook)
    ensures s'.ds.destructionOk ==> !s'.ds.audiohook
  {
  }
}
