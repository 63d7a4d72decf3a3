// What StopMixMonitor promises about the recording file, and what it does not.
//
// apps/app_mixmonitor.c:561-562 says that closing the stream in StopMixMonitor makes the file
// available to the dialplan afterwards. When the stream has not been opened yet there is nothing
// to close, fs_quit stays 0, and the recording thread may open the file after StopMixMonitor has
// returned: with a frame it already holds, or, when a masquerade has parted the datastore from the
// audiohook (main/channel.c:4692-4703), with any later frame.
module MixMonitorStop {
  import opened Prelude
  import opened MixMonitorDatastore
  import opened MixMonitorProtocol
  import opened MixMonitorFinish

  // The datastore is gone from its channel and whoever removed it has returned.
  predicate Stopped(s: State) {
    s.ds.destructionOk && s.d == DIdle
  }

  ghost predicate OpensLater(s: State) {
    exists path: seq<State> :: IsPath(path) && path[0] == s && s.rec.log == [] && path[|path| - 1].rec.log != []
  }

  // A frame is in hand, or being stored.
  predicate FrameInHand(t: TPc) { t == THaveFrame || t == TStore }

  predicate InLoop(t: TPc) {
    t == TEnter || t == TCheck || t == TPause || t == TAsleep || t == TAwake || t == TRelock
  }

  // The thread has not tried to open the file, and has a frame or can still get one: its audiohook
  // is running and nobody is in the middle of changing that.
  predicate MayOpen(s: State) {
    && s.rec.log == [] && !s.rec.errflag && !s.rec.bridgedOnly
    && (FrameInHand(s.t) || (InLoop(s.t) && s.hook.status == Running && s.h != HHanging && s.h != HMarking))
  }

  // ----------------------------------------------------------------------- otherwise: never

  ghost predicate CannotOpen(s: State) {
    Stopped(s) && s.rec.log == [] && !MayOpen(s)
  }

  lemma ThreadCannotOpen(s: State, s': State)
    requires LocksOk(s) && DatastoreOk(s) && StreamOk(s) && CannotOpen(s) && TStep(s, s')
    ensures CannotOpen(s')
  {
  }

  lemma SidesCannotOpen(s: State, s': State)
    requires LocksOk(s) && DatastoreOk(s) && CannotOpen(s) && (HStep(s, s') || DStep(s, s') || EnvStep(s, s'))
    ensures CannotOpen(s')
  {
  }

  lemma CannotOpenStep(s: State, s': State)
    requires LocksOk(s) && DatastoreOk(s) && StreamOk(s) && CannotOpen(s) && Step(s, s')
    ensures CannotOpen(s')
  {
    if TStep(s, s') {
      ThreadCannotOpen(s, s');
    } else {
      SidesCannotOpen(s, s');
    }
  }

  lemma {:induction false} CannotOpenForever(path: seq<State>, i: nat)
    requires IsPath(path) && Inv(path[0]) && CannotOpen(path[0]) && i < |path|
    ensures Inv(path[i]) && CannotOpen(path[i])
  {
    if i > 0 {
      CannotOpenForever(path, i - 1);
      assert StepAt(path, i - 1);
      CannotOpenStep(path[i - 1], path[i]);
      StepKeepsInv(path[i - 1], path[i]);
    }
  }

  // ------------------------------------------------------------------- a path that opens it

  function OpenedAndLeft(s: State): State {
    s.(t := TRelock, dsLock := Nobody, ds := s.ds.(fsOpen := true), rec := Logged(s.rec, [Opened, Written]))
  }

  // The step that brings the thread nearer to opening the file; a frame that is passing through
  // the audiohook goes first.
  function TowardsOpen(s: State): State {
    if s.hookLock == HookSide && !FrameInHand(s.t) then Triggered(s).(h := HIdle, hookLock := Nobody)
    else if s.t == TStore then OpenedAndLeft(s)
    else ThreadNext(s)
  }

  function StepsToOpen(s: State): nat {
    (if s.hookLock == HookSide && !FrameInHand(s.t) then 1 else 0) +
    match s.t
    case TRelock => 14 case TEnter => 14 case TCheck => 12 case TPause => 10 case TAsleep => 8 case TAwake => 6
    case THaveFrame => 4 case TStore => 2 case _ => 0
  }

  lemma HookSideLetsGo(s: State)
    requires LocksOk(s) && MayOpen(s) && s.hookLock == HookSide && !FrameInHand(s.t)
    ensures var s' := TowardsOpen(s);
      HStep(s, s') && MayOpen(s') && StepsToOpen(s') < StepsToOpen(s) && (Stopped(s) ==> Stopped(s'))
  {
  }

  lemma ThreadTowardsOpen(s: State)
    requires LocksOk(s) && StreamOk(s) && Stopped(s) && MayOpen(s) && s.t != TStore
    requires s.hookLock != HookSide || FrameInHand(s.t)
    ensures var s' := TowardsOpen(s);
      TStep(s, s') && MayOpen(s') && StepsToOpen(s') < StepsToOpen(s) && Stopped(s')
  {
  }

  lemma StoringOpens(s: State)
    requires LocksOk(s) && StreamOk(s) && MayOpen(s) && s.t == TStore
    ensures TStep(s, OpenedAndLeft(s)) && OpenedAndLeft(s).rec.log != []
  {
  }

  lemma {:induction false} OpeningPath(s: State) returns (path: seq<State>)
    requires Inv(s) && Stopped(s) && MayOpen(s)
    ensures IsPath(path) && path[0] == s && path[|path| - 1].rec.log != []
    decreases StepsToOpen(s)
  {
    var s' := TowardsOpen(s);
    if s.t == TStore {
      StoringOpens(s);
      path := [s, s'];
      assert StepAt(path, 0);
    } else {
      if s.hookLock == HookSide && !FrameInHand(s.t) {
        HookSideLetsGo(s);
      } else {
        ThreadTowardsOpen(s);
      }
      StepKeepsInv(s, s');
      var rest := OpeningPath(s');
      path := [s] + rest;
      Prepended(s, rest);
    }
  }

  // After StopMixMonitor the file is opened later in some run exactly when the thread has not tried
  // to open it and has a frame, or can still get one because the stop did not reach its audiohook.
  lemma OpensAfterStopIff(s: State)
    requires Inv(s) && Stopped(s)
    ensures OpensLater(s) <==> MayOpen(s)
  {
    if MayOpen(s) {
      var path := OpeningPath(s);
    } else if s.rec.log == [] {
      forall path: seq<State> | IsPath(path) && path[0] == s
        ensures path[|path| - 1].rec.log == []
      {
        CannotOpenForever(path, |path| - 1);
      }
    }
  }

  // ---------------------------------------------- runs in which the comment does not hold

  lemma ThreadExtends(path: seq<State>, s: State)
    requires IsPath(path) && TStep(path[|path| - 1], s)
    ensures IsPath(path + [s])
  {
    Extended(path, s);
  }

  lemma DsSideExtends(path: seq<State>, s: State)
    requires IsPath(path) && DStep(path[|path| - 1], s)
    ensures IsPath(path + [s])
  {
    Extended(path, s);
  }

  const Holding: State := Launched.(t := THaveFrame)

  lemma ReachesFrame() returns (path: seq<State>)
    ensures IsPath(path) && path[0] == Launched && path[|path| - 1] == Holding
  {
    path := [Launched];
    var checking := Launched.(t := TCheck, hookLock := Thread);
    ThreadExtends(path, checking);
    path := path + [checking];
    var pausing := checking.(t := TPause);
    ThreadExtends(path, pausing);
    path := path + [pausing];
    var asleep := Launched.(t := TAsleep);
    ThreadExtends(path, asleep);
    path := path + [asleep];
    var awake := checking.(t := TAwake);
    ThreadExtends(path, awake);
    path := path + [awake];
    ThreadExtends(path, Holding);
    path := path + [Holding];
  }

  const Halted: State := Holding.(hook := Holding.hook.(status := Shutdown), d := DClose)

  lemma ReachesHalt() returns (path: seq<State>)
    ensures IsPath(path) && path[0] == Launched && path[|path| - 1] == Halted
  {
    path := ReachesFrame();
    var marking := Holding.(d := DMark);
    DsSideExtends(path, marking);
    path := path + [marking];
    var marked := Holding.(d := DMarking, hookLock := DsSide);
    DsSideExtends(path, marked);
    path := path + [marked];
    DsSideExtends(path, Halted);
    path := path + [Halted];
  }

  const Poked: State :=
    Halted.(d := DDestroy(false), ds := HookForgotten(Halted.ds), store := Halted.store.(attached := false))

  lemma ReachesPoke() returns (path: seq<State>)
    ensures IsPath(path) && path[0] == Launched && path[|path| - 1] == Poked
  {
    path := ReachesHalt();
    var closing := Halted.(d := DClosing, dsLock := DsSide);
    DsSideExtends(path, closing);
    path := path + [closing];
    var poking := closing.(d := DPoke);
    DsSideExtends(path, poking);
    path := path + [poking];
    var poked := closing.(d := DPoking, hookLock := DsSide);
    DsSideExtends(path, poked);
    path := path + [poked];
    DsSideExtends(path, Poked);
    path := path + [Poked];
  }

  // The stop reaches the audiohook, and the thread opens the file for the frame it holds.
  lemma StopThenOpens() returns (run: Run)
    ensures var s := run[|run| - 1]; Stopped(s) && s.hook.status == Shutdown && OpensLater(s)
  {
    var path := ReachesPoke();
    var destroying := Poked.(d := DDestroying(false), dsLock := DsSide);
    DsSideExtends(path, destroying);
    path := path + [destroying];
    var stopped := Poked.(d := DIdle, ds := Destroyed(Poked.ds));
    DsSideExtends(path, stopped);
    path := path + [stopped];
    run := path;
    RunInv(run, |run| - 1);
    OpensAfterStopIff(stopped);
  }

  const Asleep: State := Launched.(t := TAsleep)

  const Moved: State := Asleep.(ds := FixedUp(Asleep.ds, 1), chans := Asleep.chans.(ds := 1))

  lemma ReachesMoved() returns (path: seq<State>)
    ensures IsPath(path) && path[0] == Launched && path[|path| - 1] == Moved
  {
    path := [Launched];
    var checking := Launched.(t := TCheck, hookLock := Thread);
    ThreadExtends(path, checking);
    path := path + [checking];
    var pausing := checking.(t := TPause);
    ThreadExtends(path, pausing);
    path := path + [pausing];
    ThreadExtends(path, Asleep);
    path := path + [Asleep];
    var fixup := Asleep.(d := DFixup(1));
    DsSideExtends(path, fixup);
    path := path + [fixup];
    var fixing := Asleep.(d := DFixing(1), dsLock := DsSide);
    DsSideExtends(path, fixing);
    path := path + [fixing];
    DsSideExtends(path, Moved);
    path := path + [Moved];
  }

  const MovedPoked: State :=
    Moved.(d := DDestroy(false), ds := HookForgotten(Moved.ds), store := Moved.store.(attached := false),
           hook := Moved.hook.(woken := true))

  lemma ReachesMovedPoke() returns (path: seq<State>)
    ensures IsPath(path) && path[0] == Launched && path[|path| - 1] == MovedPoked
  {
    path := ReachesMoved();
    var close := Moved.(d := DClose);
    DsSideExtends(path, close);
    path := path + [close];
    var closing := Moved.(d := DClosing, dsLock := DsSide);
    DsSideExtends(path, closing);
    path := path + [closing];
    var poke := closing.(d := DPoke);
    DsSideExtends(path, poke);
    path := path + [poke];
    var poking := closing.(d := DPoking, hookLock := DsSide);
    DsSideExtends(path, poking);
    path := path + [poking];
    DsSideExtends(path, MovedPoked);
    path := path + [MovedPoked];
  }

  // A masquerade has moved the datastore: the stop pokes the thread but leaves its audiohook
  // running, and the thread records on without a frame in hand.
  lemma StopMissesAudiohook() returns (run: Run)
    ensures var s := run[|run| - 1];
      Stopped(s) && s.hook.status == Running && !FrameInHand(s.t) && OpensLater(s)
  {
    var path := ReachesMovedPoke();
    var destroying := MovedPoked.(d := DDestroying(false), dsLock := DsSide);
    DsSideExtends(path, destroying);
    path := path + [destroying];
    var stopped := MovedPoked.(d := DIdle, ds := Destroyed(MovedPoked.ds));
    DsSideExtends(path, stopped);
    path := path + [stopped];
    run := path;
    RunInv(run, |run| - 1);
    OpensAfterStopIff(stopped);
  }
}
