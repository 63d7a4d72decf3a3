// When the recording thread can come to its end.
//
// main/audiohook.c:616-620 takes an audiohook off its channel's list without setting its status
// when a frame cannot be fed to it. Nothing sets the status of such an audiohook to DONE any
// more, and tris_audiohook_detach waits for exactly that. Apart from this case the thread can
// always finish. AudiohookFeed says which frames cannot be fed.
module MixMonitorFinish {
  import opened Prelude
  import opened MixMonitorDatastore
  import opened MixMonitorProtocol

  // Off the list, with nobody left who will mark it done.
  predicate Orphaned(s: State) {
    && !s.hook.inList && s.h != HHang && s.h != HHanging
    && (s.hook.status == Running || s.hook.status == Shutdown)
  }

  ghost predicate IsPath(path: seq<State>) {
    path != [] && forall i :: 0 <= i < |path| - 1 ==> StepAt(path, i)
  }

  ghost predicate EndsDone(path: seq<State>, s: State) {
    IsPath(path) && path[0] == s && path[|path| - 1].t == TDone
  }

  lemma Extended(path: seq<State>, s: State)
    requires IsPath(path) && Step(path[|path| - 1], s)
    ensures IsPath(path + [s])
  {
    var longer := path + [s];
    forall i | 0 <= i < |longer| - 1
      ensures StepAt(longer, i)
    {
      assert longer[i] == path[i];
      if i + 1 < |path| {
        assert longer[i + 1] == path[i + 1] && StepAt(path, i);
      }
    }
  }

  // ------------------------------------------------------- an orphaned audiohook: never

  lemma OrphanedStep(s: State, s': State)
    requires HookOk(s) && Orphaned(s) && Step(s, s')
    ensures Orphaned(s')
  {
  }

  // A frame cannot be fed to a running audiohook.
  ghost predicate FeedFails(s: State, s': State) {
    s.h == HServing && s.hook.status == Running && s' == Unlisted(s).(h := HIdle, hookLock := Nobody)
  }

  // Nothing else orphans it.
  lemma OrphanedBy(s: State, s': State)
    requires LocksOk(s) && HookOk(s) && !Orphaned(s) && Step(s, s')
    ensures Orphaned(s') <==> FeedFails(s, s')
  {
  }

  lemma FeedFailureOrphans() returns (run: Run)
    ensures Orphaned(run[|run| - 1])
  {
    var serve := Launched.(h := HServe);
    var serving := Launched.(h := HServing, hookLock := HookSide);
    var orphaned := Unlisted(Launched);
    var path := [Launched];
    assert HStep(Launched, serve);
    Extended(path, serve);
    path := path + [serve];
    assert HStep(serve, serving);
    Extended(path, serving);
    path := path + [serving];
    assert HStep(serving, orphaned);
    Extended(path, orphaned);
    run := path + [orphaned];
  }

  lemma LaunchedNotOrphaned(s: State)
    requires Init(s)
    ensures !Orphaned(s)
  {
  }

  ghost predicate FeedFailedBefore(run: seq<State>, n: nat)
    requires n < |run|
  {
    exists i :: 0 <= i < n && FeedFails(run[i], run[i + 1])
  }

  lemma NextOrphaned(run: Run, n: nat)
    requires 0 < n < |run|
    ensures Orphaned(run[n]) <==> Orphaned(run[n - 1]) || FeedFails(run[n - 1], run[n])
  {
    RunInv(run, n - 1);
    assert StepAt(run, n - 1);
    if Orphaned(run[n - 1]) {
      OrphanedStep(run[n - 1], run[n]);
    } else {
      OrphanedBy(run[n - 1], run[n]);
    }
  }

  // Over every run: the audiohook is orphaned exactly when some frame before could not be fed.
  lemma {:induction false} OrphanedIff(run: Run, n: nat)
    requires n < |run|
    ensures Orphaned(run[n]) <==> FeedFailedBefore(run, n)
  {
    if n == 0 {
      LaunchedNotOrphaned(run[0]);
    } else {
      OrphanedIff(run, n - 1);
      NextOrphaned(run, n);
      if FeedFails(run[n - 1], run[n - 1 + 1]) {
        assert FeedFailedBefore(run, n);
      }
      if FeedFailedBefore(run, n - 1) {
        var i :| 0 <= i < n - 1 && FeedFails(run[i], run[i + 1]);
        assert FeedFailedBefore(run, n);
      }
    }
  }

  lemma {:induction false} OrphanedForever(path: seq<State>, i: nat)
    requires IsPath(path) && Inv(path[0]) && Orphaned(path[0]) && i < |path|
    ensures Inv(path[i]) && Orphaned(path[i])
  {
    if i > 0 {
      OrphanedForever(path, i - 1);
      assert StepAt(path, i - 1);
      OrphanedStep(path[i - 1], path[i]);
      StepKeepsInv(path[i - 1], path[i]);
    }
  }

  // ------------------------------------------------------------- otherwise: a finishing path

  // Steps until the thread lets go of the lock it holds.
  function UntilRelease(t: TPc): nat {
    match t
    case TCheck => 2 case TPause => 1 case TAwake => 2 case TLeave => 1
    case TStore => 1 case TClosing => 1 case TDestroyed => 1 case TForgetting => 1
    case TDetach => 3 case TDetaching => 2 case TDetached => 1
    case _ => 0
  }

  // Steps left for the thread when the audiohook is detached and the datastore destroyed.
  function StepsLeft(t: TPc): nat {
    match t
    case THaveFrame => 26 case TStore => 25 case TRelock => 24
    case TPause => 23 case TAsleep => 22 case TAwake => 21
    case TEnter => 21 case TCheck => 20 case TLeave => 19 case TFinish => 18 case TClosing => 17
    case TAwaitDestroy => 16 case TDestroyed => 15 case TForget => 14 case TForgetting => 13
    case TDetachLock => 12 case TDetach => 11 case TDetachSleep => 10 case TDetaching => 9
    case TDetached => 4 case TDestroyHook => 3 case TFreeDs => 2 case TDone => 0
  }

  function HookSideWork(h: HPc): nat {
    match h
    case HIdle => 0
    case HServe => 2 case HHang => 2 case HMark => 2
    case _ => 1
  }

  function DsSideWork(d: DPc): nat {
    match d
    case DIdle => 0
    case DMark => 9 case DMarking => 8 case DClose => 7 case DClosing => 6 case DPoke => 5 case DPoking => 4
    case DDestroy(_) => 3 case DDestroying(_) => 2 case DFreeChan => 1
    case DFixup(_) => 2 case DFixing(_) => 1
  }

  // What the channel side still has to do: hang up, and destroy the datastore.
  function SideWork(s: State): nat {
    (if s.store.attached then 20 else 0) + (if s.hook.inList then 10 else 0)
    + HookSideWork(s.h) + DsSideWork(s.d)
  }

  function Distance(s: State): nat {
    100 * SideWork(s) + if SideWork(s) > 0 then UntilRelease(s.t) else StepsLeft(s.t)
  }

  // One step each actor could take next; the file cannot be opened, every frame is fed, the channel
  // side hangs up and destroys the datastore.
  function Stored(s: State): State {
    if Skips(s) then s
    else if s.ds.fsOpen then s.(rec := Logged(s.rec, [Written]))
    else if s.rec.errflag || s.ds.fsQuit then s
    else s.(rec := s.rec.(errflag := true))
  }

  function Locking(s: State, t: TPc, hook: bool): State {
    if hook then s.(t := t, hookLock := Thread) else s.(t := t, dsLock := Thread)
  }

  function ThreadNext(s: State): State {
    match s.t
    case TEnter => Locking(s, TCheck, true)
    case TCheck => s.(t := if s.hook.status == Running && !s.ds.fsQuit then TPause else TLeave)
    case TPause => s.(t := TAsleep, hookLock := Nobody, hook := s.hook.(woken := false))
    case TAsleep => Locking(s, TAwake, true)
    case TAwake => if s.hook.status != Running then s.(t := TLeave) else s.(t := THaveFrame, hookLock := Nobody)
    case THaveFrame => Locking(s, TStore, false)
    case TStore => Stored(s).(t := TRelock, dsLock := Nobody)
    case TRelock => Locking(s, TCheck, true)
    case TLeave => s.(t := TFinish, hookLock := Nobody)
    case TFinish => Locking(s, TClosing, false)
    case TClosing =>
      var r := ThreadClosed(s).(dsLock := Nobody);
      if s.ds.destructionOk then r.(t := TForget)
      else r.(t := TAwaitDestroy, store := s.store.(woken := false))
    case TAwaitDestroy => Locking(s, TDestroyed, false)
    case TDestroyed => s.(t := TForget, dsLock := Nobody)
    case TForget => Locking(s, TForgetting, false)
    case TForgetting => s.(t := TDetachLock, dsLock := Nobody, ds := HookForgotten(s.ds))
    case TDetachLock => Locking(s, TDetach, true)
    case TDetach =>
      if s.hook.status == New || s.hook.status == Done then s.(t := TDetached)
      else StatusSet(s, Shutdown).(t := TDetaching)
    case TDetaching =>
      if s.hook.status == Done then s.(t := TDetached)
      else s.(t := TDetachSleep, hookLock := Nobody, hook := s.hook.(woken := false))
    case TDetachSleep => Locking(s, TDetaching, true)
    case TDetached => s.(t := TDestroyHook, hookLock := Nobody)
    case TDestroyHook => s.(t := TFreeDs, hook := s.hook.(destroys := s.hook.destroys + 1))
    case TFreeDs => s.(t := TDone, store := s.store.(frees := s.store.frees + 1))
    case TDone => s
  }

  predicate ThreadWantsHook(t: TPc) {
    t == TEnter || t == TAsleep || t == TRelock || t == TDetachLock || t == TDetachSleep
  }

  predicate ThreadWantsDs(t: TPc) {
    t == THaveFrame || t == TFinish || t == TAwaitDestroy || t == TForget
  }

  lemma ThreadCanStep(s: State)
    requires s.t != TDone && (s.t == TStore ==> s.dsLock == Thread)
    requires ThreadWantsHook(s.t) ==> s.hookLock == Nobody
    requires ThreadWantsDs(s.t) ==> s.dsLock == Nobody
    requires s.t == TAwaitDestroy ==> s.store.woken
    ensures TStep(s, ThreadNext(s))
  {
  }

  lemma ThreadLetsGo(s: State)
    requires !Orphaned(s) && SideWork(s) > 0 && (THoldsHook(s.t) || THoldsDs(s.t))
    ensures Distance(ThreadNext(s)) < Distance(s) && !Orphaned(ThreadNext(s))
  {
  }

  lemma ThreadAdvances(s: State)
    requires SideWork(s) == 0 && s.t != TDone
    requires s.ds.destructionOk && (s.hook.status == New || s.hook.status == Done)
    requires s.t == TDetaching ==> s.hook.status == Done
    ensures Distance(ThreadNext(s)) < Distance(s) && !Orphaned(ThreadNext(s))
  {
  }

  function HNext(s: State): State {
    match s.h
    case HIdle => Unlisted(s).(h := HHang)
    case HServe => s.(h := HServing, hookLock := HookSide)
    case HServing =>
      if s.hook.status != Running then Unlisted(StatusSet(s, Done)).(h := HIdle, hookLock := Nobody)
      else Triggered(s).(h := HIdle, hookLock := Nobody)
    case HHang => s.(h := HHanging, hookLock := HookSide)
    case HHanging => StatusSet(s, Done).(h := HIdle, hookLock := Nobody)
    case HMark => s.(h := HMarking, hookLock := HookSide)
    case HMarking => StatusSet(s, Shutdown).(h := HIdle, hookLock := Nobody)
  }

  lemma HAdvances(s: State)
    requires LocksOk(s) && HookOk(s) && !Orphaned(s) && (if s.h == HIdle then s.hook.inList && s.d == DIdle else true)
    requires s.hookLock == Nobody || s.hookLock == HookSide
    ensures HStep(s, HNext(s)) && Distance(HNext(s)) < Distance(s) && !Orphaned(HNext(s))
  {
  }

  function DNext(s: State): State {
    match s.d
    case DIdle => s.(d := DDestroy(true), store := s.store.(attached := false))
    case DMark => s.(d := DMarking, hookLock := DsSide)
    case DMarking => StatusSet(s, Shutdown).(d := DClose, hookLock := Nobody)
    case DClose => s.(d := DClosing, dsLock := DsSide)
    case DClosing =>
      var r := ThreadClosed(s);
      if s.ds.audiohook then r.(d := DPoke)
      else r.(d := DDestroy(false), dsLock := Nobody, store := s.store.(attached := false))
    case DPoke => s.(d := DPoking, hookLock := DsSide)
    case DPoking =>
      Triggered(s).(d := DDestroy(false), ds := HookForgotten(s.ds),
                    hookLock := Nobody, dsLock := Nobody, store := s.store.(attached := false))
    case DDestroy(free) => s.(d := DDestroying(free), dsLock := DsSide)
    case DDestroying(free) =>
      s.(d := if free then DFreeChan else DIdle, ds := Destroyed(s.ds), dsLock := Nobody,
         store := s.store.(woken := s.store.woken || s.t == TAwaitDestroy))
    case DFreeChan => s.(d := DIdle, chans := s.chans.(freed := s.chans.freed + {s.chans.ds}))
    case DFixup(to) => s.(d := DFixing(to), dsLock := DsSide)
    case DFixing(to) => s.(d := DIdle, ds := FixedUp(s.ds, to), chans := s.chans.(ds := to), dsLock := Nobody)
  }

  lemma DAdvances(s: State)
    requires HookOk(s) && LocksOk(s) && !Orphaned(s) && (s.d == DIdle ==> s.store.attached && s.h == HIdle)
    requires (s.dsLock == Nobody || s.dsLock == DsSide) && (s.hookLock == Nobody || s.hookLock == DsSide)
    ensures DStep(s, DNext(s)) && Distance(DNext(s)) < Distance(s) && !Orphaned(DNext(s))
  {
  }

  lemma ThreadNextState(s: State)
    requires Inv(s) && !Orphaned(s) && s.t != TDone
    requires SideWork(s) == 0 || THoldsHook(s.t) || THoldsDs(s.t)
    ensures Step(s, ThreadNext(s)) && Distance(ThreadNext(s)) < Distance(s) && !Orphaned(ThreadNext(s))
  {
    ThreadCanStep(s);
    if SideWork(s) == 0 {
      ThreadAdvances(s);
    } else {
      ThreadLetsGo(s);
    }
  }

  // The holder of the audiohook's channel moves first, unless the other side has the audiohook.
  predicate DsSideFirst(s: State) {
    s.hookLock == DsSide || (s.h == HIdle && (s.d != DIdle || !s.hook.inList))
  }

  lemma SideNextState(s: State)
    requires Inv(s) && !Orphaned(s) && SideWork(s) > 0 && !THoldsHook(s.t) && !THoldsDs(s.t)
    ensures var s' := if DsSideFirst(s) then DNext(s) else HNext(s);
      Step(s, s') && Distance(s') < Distance(s) && !Orphaned(s')
  {
    if DsSideFirst(s) {
      DAdvances(s);
    } else {
      HAdvances(s);
    }
  }

  lemma NextState(s: State) returns (s': State)
    requires Inv(s) && !Orphaned(s) && s.t != TDone
    ensures Step(s, s') && Inv(s') && Distance(s') < Distance(s) && !Orphaned(s')
  {
    if SideWork(s) == 0 || THoldsHook(s.t) || THoldsDs(s.t) {
      s' := ThreadNext(s);
      ThreadNextState(s);
    } else {
      s' := if DsSideFirst(s) then DNext(s) else HNext(s);
      SideNextState(s);
    }
    StepKeepsInv(s, s');
  }

  lemma Prepended(s: State, rest: seq<State>)
    requires IsPath(rest) && Step(s, rest[0])
    ensures IsPath([s] + rest)
  {
    var path := [s] + rest;
    forall i | 0 <= i < |path| - 1
      ensures StepAt(path, i)
    {
      if i > 0 {
        assert path[i] == rest[i - 1] && path[i + 1] == rest[i - 1 + 1];
        assert StepAt(rest, i - 1);
      }
    }
  }

  lemma {:induction false} FinishingPath(s: State) returns (path: seq<State>)
    requires Inv(s) && !Orphaned(s)
    ensures EndsDone(path, s)
    decreases Distance(s)
  {
    if s.t == TDone {
      path := [s];
    } else {
      var s' := NextState(s);
      var rest := FinishingPath(s');
      path := [s] + rest;
      Prepended(s, rest);
    }
  }

  lemma CanFinishIff(s: State)
    requires Inv(s)
    ensures (exists path :: EndsDone(path, s)) <==> !Orphaned(s)
  {
    if Orphaned(s) {
      forall path | EndsDone(path, s)
        ensures false
      {
        OrphanedForever(path, |path| - 1);
      }
    } else {
      var path := FinishingPath(s);
    }
  }

  // At any point of any run the thread can still end exactly when no frame has failed to be fed.
  lemma CanFinishInRun(run: Run, n: nat)
    requires n < |run|
    ensures (exists path :: EndsDone(path, run[n])) <==> !FeedFailedBefore(run, n)
  {
    RunInv(run, n);
    OrphanedIff(run, n);
    CanFinishIff(run[n]);
  }
}
