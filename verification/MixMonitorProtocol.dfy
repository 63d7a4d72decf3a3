// The protocol between the recording thread and the channel side (apps/app_mixmonitor.c, with
// the audiohook and channel calls it makes in main/audiohook.c and main/channel.c).
//
// Three actors move in any order. The recording thread is `t`. A masquerade can leave the
// audiohook on one channel and the datastore on another, so whoever holds the lock of the
// audiohook's channel is `h` and whoever holds the lock of the datastore's channel is `d`; while
// the two are one channel, at most one of them is busy. Every step is one lock acquisition or
// one lock-delimited section.
module MixMonitorProtocol {
  import opened Prelude
  import opened MixMonitorDatastore

  datatype Status = New | Running | Shutdown | Done

  datatype StreamEvent = Opened | Written | ClosedIt

  // Where the recording thread is.
  datatype TPc =
    | TEnter         // wants the audiohook
    | TCheck         // holds the audiohook: the loop condition
    | TPause         // holds the audiohook: condition seen true, not yet waiting
    | TAsleep        // inside the trigger wait, the audiohook released
    | TAwake         // holds the audiohook: second status check, then the read
    | THaveFrame     // holds a frame, wants the datastore
    | TStore         // holds the datastore: open and write
    | TRelock        // wants the audiohook again
    | TLeave         // holds the audiohook: left the loop
    | TFinish        // wants the datastore
    | TClosing       // holds the datastore: close, test destruction_ok
    | TAwaitDestroy  // waits on destruction_condition
    | TDestroyed     // woken there, holds the datastore
    | TForget        // wants the datastore
    | TForgetting    // holds the datastore
    | TDetachLock    // wants the audiohook
    | TDetach        // holds the audiohook: start of the detach
    | TDetaching     // holds the audiohook: detach loop condition
    | TDetachSleep   // inside the trigger wait of the detach loop
    | TDetached      // holds the audiohook, detached
    | TDestroyHook   // destroys the audiohook
    | TFreeDs        // frees the datastore
    | TDone

  // Where the holder of the audiohook's channel is.
  datatype HPc = HIdle | HServe | HServing | HHang | HHanging | HMark | HMarking

  // Where the holder of the datastore's channel is.
  datatype DPc =
    | DIdle
    | DMark | DMarking                    // StopMixMonitor: shut the audiohook down
    | DClose | DClosing                   // StopMixMonitor: close the stream
    | DPoke | DPoking                     // StopMixMonitor: poke the trigger, datastore still held
    | DDestroy(free: bool) | DDestroying(free: bool) | DFreeChan
    | DFixup(to: nat) | DFixing(to: nat)

  datatype Owner = Nobody | Thread | HookSide | DsSide

  datatype Hook = Hook(
    status: Status,
    inList: bool,       // on its channel's list of audiohooks
    woken: bool,        // the sleeper on the trigger has been signalled
    destroys: nat)

  datatype Store = Store(
    attached: bool,     // on its channel's list of datastores
    woken: bool,        // the sleeper on destruction_condition has been signalled
    frees: nat)

  // The channel of the audiohook, the channel of the datastore, the channels that are gone, and
  // whether the datastore's channel has a bridge peer.
  datatype Channels = Channels(hook: nat, ds: nat, freed: set<nat>, bridged: bool)

  // Everything done to the recording stream, in order; the thread's error flag and option b.
  datatype Recording = Recording(log: seq<StreamEvent>, errflag: bool, bridgedOnly: bool)

  datatype State = State(
    t: TPc, h: HPc, d: DPc,
    hookLock: Owner, dsLock: Owner,
    hook: Hook, ds: Fields, store: Store, chans: Channels, rec: Recording)

  ghost predicate Init(s: State) {
    && s.t == TEnter && s.h == HIdle && s.d == DIdle
    && s.hookLock == Nobody && s.dsLock == Nobody
    && (s.hook == Hook(Running, true, false, 0) || s.hook == Hook(New, false, false, 0))
    && s.ds == Fields(Some(s.chans.ds), false, false, false, true)
    && s.store == Store(true, false, 0)
    && s.chans.hook == s.chans.ds && s.chans.freed == {}
    && s.rec.log == [] && !s.rec.errflag
  }

  // tris_cond_signal reaches only a thread that is already waiting.
  function Triggered(s: State): State {
    if s.t == TAsleep || s.t == TDetachSleep then s.(hook := s.hook.(woken := true)) else s
  }

  // tris_audiohook_update_status: Done is final.
  function StatusSet(s: State, status: Status): State {
    if s.hook.status == Done then s else Triggered(s.(hook := s.hook.(status := status)))
  }

  function Unlisted(s: State): State {
    s.(hook := s.hook.(inList := false))
  }

  // ---------------------------------------------------------------- the recording thread

  ghost predicate TakesHook(s: State, s': State, next: TPc) {
    s.hookLock == Nobody && s' == s.(t := next, hookLock := Thread)
  }

  ghost predicate TakesDs(s: State, s': State, next: TPc) {
    s.dsLock == Nobody && s' == s.(t := next, dsLock := Thread)
  }

  function Logged(r: Recording, events: seq<StreamEvent>): Recording {
    r.(log := r.log + events)
  }

  // Option b asks for a bridge peer, which a channel that is gone from the datastore cannot have.
  predicate Skips(s: State) {
    s.rec.bridgedOnly && !(s.ds.chan.Some? && s.chans.bridged)
  }

  // The body of the section that opens the file and writes the frame.
  ghost predicate Recorded(s: State, s': State) {
    if Skips(s) then s' == s
    else if s.ds.fsOpen then s' == s.(rec := Logged(s.rec, [Written]))
    else if s.rec.errflag || s.ds.fsQuit then s' == s
    else
      || s' == s.(rec := s.rec.(errflag := true))
      || s' == s.(ds := s.ds.(fsOpen := true), rec := Logged(s.rec, [Opened, Written]))
  }

  function ThreadClosed(s: State): State {
    s.(ds := Closed(s.ds), rec := if s.ds.fsOpen then Logged(s.rec, [ClosedIt]) else s.rec)
  }

  // The recording loop.
  ghost predicate LoopStep(s: State, s': State) {
    match s.t
    case TEnter => TakesHook(s, s', TCheck)
    case TCheck =>
      s' == s.(t := if s.hook.status == Running && !s.ds.fsQuit then TPause else TLeave)
    case TPause => s' == s.(t := TAsleep, hookLock := Nobody, hook := s.hook.(woken := false))
    case TAsleep => TakesHook(s, s', TAwake)   // signalled, or the 50 second timeout
    case TAwake =>
      if s.hook.status != Running then s' == s.(t := TLeave)
      else s' == s.(t := TCheck) || s' == s.(t := THaveFrame, hookLock := Nobody)
    case TRelock => TakesHook(s, s', TCheck)
    case _ => false
  }

  // The section of the loop that stores a frame.
  ghost predicate StoreStep(s: State, s': State) {
    match s.t
    case THaveFrame => TakesDs(s, s', TStore)
    case TStore =>
      s'.t == TRelock && s'.dsLock == Nobody && Recorded(s, s'.(t := TStore, dsLock := Thread))
    case _ => false
  }

  // From the loop to the destruction of the datastore.
  ghost predicate CloseStep(s: State, s': State) {
    match s.t
    case TLeave => s' == s.(t := TFinish, hookLock := Nobody)
    case TFinish => TakesDs(s, s', TClosing)
    case TClosing =>
      var r := ThreadClosed(s).(dsLock := Nobody);
      s' == if s.ds.destructionOk then r.(t := TForget) else r.(t := TAwaitDestroy, store := s.store.(woken := false))
    case TAwaitDestroy => s.store.woken && TakesDs(s, s', TDestroyed)   // no spurious wakeup
    case TDestroyed => s' == s.(t := TForget, dsLock := Nobody)
    case _ => false
  }

  // destroy_monitor_audiohook and mixmonitor_free.
  ghost predicate ReleaseStep(s: State, s': State) {
    match s.t
    case TForget => TakesDs(s, s', TForgetting)
    case TForgetting => s' == s.(t := TDetachLock, dsLock := Nobody, ds := HookForgotten(s.ds))
    case TDetachLock => TakesHook(s, s', TDetach)
    case TDetach =>
      s' == if s.hook.status == New || s.hook.status == Done then s.(t := TDetached)
            else StatusSet(s, Shutdown).(t := TDetaching)
    case TDetaching =>
      s' == if s.hook.status == Done then s.(t := TDetached)
            else s.(t := TDetachSleep, hookLock := Nobody, hook := s.hook.(woken := false))
    case TDetachSleep => TakesHook(s, s', TDetaching)
    case TDetached => s' == s.(t := TDestroyHook, hookLock := Nobody)
    case TDestroyHook => s' == s.(t := TFreeDs, hook := s.hook.(destroys := s.hook.destroys + 1))
    case TFreeDs => s' == s.(t := TDone, store := s.store.(frees := s.store.frees + 1))
    case _ => false
  }

  ghost predicate TStep(s: State, s': State) {
    LoopStep(s, s') || StoreStep(s, s') || CloseStep(s, s') || ReleaseStep(s, s')
  }

  // ------------------------------------------------------------ the audiohook's channel side

  // The audiohook's channel is not held by whoever is busy with the datastore.
  predicate HookChanFree(s: State) {
    s.d == DIdle || (s.chans.ds != s.chans.hook &&
      match s.d case DFixup(to) => to != s.chans.hook case DFixing(to) => to != s.chans.hook case _ => true)
  }

  ghost predicate HTakesHook(s: State, s': State, next: HPc) {
    s.hookLock == Nobody && s' == s.(h := next, hookLock := HookSide)
  }

  ghost predicate HStep(s: State, s': State) {
    match s.h
    case HIdle =>
      && s.hook.inList && HookChanFree(s)
      && (|| s' == s.(h := HServe)                    // a frame passes through the channel
          || s' == Unlisted(s).(h := HHang)    // hangup empties the list first
          || s' == s.(h := HMark))                    // detach by source
    case HServe => HTakesHook(s, s', HServing)
    case HServing =>
      if s.hook.status != Running then
        s' == Unlisted(StatusSet(s, Done)).(h := HIdle, hookLock := Nobody)
      else
        || s' == Triggered(s).(h := HIdle, hookLock := Nobody)
        || s' == Unlisted(s).(h := HIdle, hookLock := Nobody)   // the frame could not be fed
    case HHang => HTakesHook(s, s', HHanging)
    case HHanging => s' == StatusSet(s, Done).(h := HIdle, hookLock := Nobody)
    case HMark => HTakesHook(s, s', HMarking)
    case HMarking => s' == StatusSet(s, Shutdown).(h := HIdle, hookLock := Nobody)
  }

  // ------------------------------------------------------------ the datastore's channel side

  ghost predicate DTakesDs(s: State, s': State, next: DPc) {
    s.dsLock == Nobody && s' == s.(d := next, dsLock := DsSide)
  }

  ghost predicate DTakesHook(s: State, s': State, next: DPc) {
    s.hookLock == Nobody && s' == s.(d := next, hookLock := DsSide)
  }

  ghost predicate DStarts(s: State, s': State) {
    && s.store.attached && (s.chans.hook == s.chans.ds ==> s.h == HIdle)
    && (|| s' == s.(d := if s.chans.hook == s.chans.ds && s.hook.inList then DMark else DClose)   // StopMixMonitor
        || s' == s.(d := DDestroy(true), store := s.store.(attached := false))   // channel destruction
        || (exists to :: to !in s.chans.freed && (s.chans.hook == to ==> s.h == HIdle) && s' == s.(d := DFixup(to))))
  }

  ghost predicate DStep(s: State, s': State) {
    match s.d
    case DIdle => DStarts(s, s')
    case DMark => DTakesHook(s, s', DMarking)
    case DMarking => s' == StatusSet(s, Shutdown).(d := DClose, hookLock := Nobody)
    case DClose => DTakesDs(s, s', DClosing)
    case DClosing =>
      var r := ThreadClosed(s);
      s' == if s.ds.audiohook then r.(d := DPoke)
            else r.(d := DDestroy(false), dsLock := Nobody, store := s.store.(attached := false))
    case DPoke => DTakesHook(s, s', DPoking)
    case DPoking =>
      s' == Triggered(s).(d := DDestroy(false), ds := HookForgotten(s.ds),
                          hookLock := Nobody, dsLock := Nobody, store := s.store.(attached := false))
    case DDestroy(free) => DTakesDs(s, s', DDestroying(free))
    case DDestroying(free) =>
      s' == s.(d := if free then DFreeChan else DIdle, ds := Destroyed(s.ds), dsLock := Nobody,
               store := s.store.(woken := s.store.woken || s.t == TAwaitDestroy))
    case DFreeChan => s' == s.(d := DIdle, chans := s.chans.(freed := s.chans.freed + {s.chans.ds}))
    case DFixup(to) => DTakesDs(s, s', DFixing(to))
    case DFixing(to) => s' == s.(d := DIdle, ds := FixedUp(s.ds, to), chans := s.chans.(ds := to), dsLock := Nobody)
  }

  // Any other channel can go away, and bridges come and go, at any time.
  ghost predicate EnvStep(s: State, s': State) {
    || (exists c :: (s.store.attached || s.d != DIdle ==> c != s.chans.ds) && s.d != DFixup(c) && s.d != DFixing(c)
                    && s' == s.(chans := s.chans.(freed := s.chans.freed + {c})))
    || s' == s.(chans := s.chans.(bridged := !s.chans.bridged))
  }

  ghost predicate Step(s: State, s': State) {
    TStep(s, s') || HStep(s, s') || DStep(s, s') || EnvStep(s, s')
  }

  ghost predicate StepAt(run: seq<State>, i: nat)
    requires i + 1 < |run|
  {
    Step(run[i], run[i + 1])
  }

  ghost predicate IsRun(run: seq<State>) {
    run != [] && forall i :: 0 <= i < |run| - 1 ==> StepAt(run, i)
  }

  const Launched: State :=
    State(TEnter, HIdle, DIdle, Nobody, Nobody, Hook(Running, true, false, 0),
          Fields(Some(0), false, false, false, true), Store(true, false, 0), Channels(0, 0, {}, false),
          Recording([], false, false))

  // A run from the launch of the recording thread.
  type Run = r: seq<State> | IsRun(r) && Init(r[0]) ghost witness [Launched]

  // ------------------------------------------------------------------------- the invariant

  predicate THoldsHook(t: TPc) {
    (t.TCheck? || t.TPause? || t.TAwake? || t.TLeave? || t.TDetach? || t.TDetaching? || t.TDetached?)
  }

  predicate THoldsDs(t: TPc) {
    (t.TStore? || t.TClosing? || t.TDestroyed? || t.TForgetting?)
  }

  predicate DHoldsHook(d: DPc) { d == DMarking || d == DPoking }

  predicate DHoldsDs(d: DPc) {
    d == DClosing || d == DPoke || d == DPoking || d.DDestroying? || d.DFixing?
  }

  predicate HHoldsHook(h: HPc) { h == HServing || h == HHanging || h == HMarking }

  ghost predicate LocksOk(s: State) {
    && (s.hookLock == Thread <==> THoldsHook(s.t))
    && (s.hookLock == HookSide <==> HHoldsHook(s.h))
    && (s.hookLock == DsSide <==> DHoldsHook(s.d))
    && (s.dsLock == Thread <==> THoldsDs(s.t))
    && (s.dsLock == DsSide <==> DHoldsDs(s.d))
    && s.dsLock != HookSide
  }

  // The recording thread has seen destruction_ok.
  predicate Released(t: TPc) {
    t.TDestroyed? || t.TForget? || t.TForgetting? || t.TDetachLock? || t.TDetach? || t.TDetaching? || t.TDetachSleep?
    || t.TDetached? || t.TDestroyHook? || t.TFreeDs? || t.TDone?
  }

  predicate PastDetach(t: TPc) {
    (t.TDetached? || t.TDestroyHook? || t.TFreeDs? || t.TDone?)
  }

  predicate PastClose(t: TPc) { t == TAwaitDestroy || Released(t) }

  predicate Destroying(d: DPc) { d.DDestroy? || d.DDestroying? }

  ghost predicate DatastoreOk(s: State) {
    && (s.store.attached ==> !s.ds.destructionOk)
    && (Destroying(s.d) ==> !s.store.attached && !s.ds.destructionOk)
    && (!s.store.attached && !Destroying(s.d) ==> s.ds.destructionOk)
    && (s.d == DFreeChan ==> !s.store.attached)
    && (s.d != DIdle && !Destroying(s.d) && s.d != DFreeChan ==> s.store.attached)
    && (Released(s.t) ==> s.ds.destructionOk)
    && (s.store.woken ==> s.ds.destructionOk)
    && (s.t == TAwaitDestroy && s.ds.destructionOk ==> s.store.woken)
    && s.ds.chan == (if s.ds.destructionOk then None else Some(s.chans.ds))
    && (s.store.attached || s.d != DIdle ==> s.chans.ds !in s.chans.freed)
    && (s.d.DFixup? || s.d.DFixing? ==> s.d.to !in s.chans.freed)
  }

  ghost predicate HookOk(s: State) {
    && (s.hook.inList ==> s.hook.status == Running || s.hook.status == Shutdown)
    && ((s.h.HServe? || s.h.HServing? || s.h.HMark? || s.h.HMarking?) ==> s.hook.inList)
    && ((s.h.HHang? || s.h.HHanging?) ==> !s.hook.inList && (s.hook.status == Running || s.hook.status == Shutdown))
    && (s.d == DMark || s.d == DMarking ==> s.hook.inList && s.chans.hook == s.chans.ds)
    && (s.h != HIdle && s.chans.hook == s.chans.ds ==> s.d == DIdle)
    && (s.h != HIdle && (s.d.DFixup? || s.d.DFixing?) ==> s.d.to != s.chans.hook)
    && (PastDetach(s.t) ==> s.hook.status == New || s.hook.status == Done)
    && (s.t == TDetaching || s.t == TDetachSleep ==> s.hook.status == Shutdown || s.hook.status == Done)
    && (s.d == DPoke || s.d == DPoking ==> s.ds.audiohook)
  }

  ghost predicate CountsOk(s: State) {
    && s.hook.destroys == (if s.t == TFreeDs || s.t == TDone then 1 else 0)
    && s.store.frees == (if s.t == TDone then 1 else 0)
  }

  predicate AllWrites(log: seq<StreamEvent>) {
    forall i :: 0 <= i < |log| ==> log[i] == Written
  }

  // The only histories a recording stream can have while it is open, and once it is closed.
  predicate WhileOpen(log: seq<StreamEvent>) {
    |log| > 0 && log[0] == Opened && AllWrites(log[1..])
  }

  predicate OnceClosed(log: seq<StreamEvent>) {
    |log| > 0 && log[|log| - 1] == ClosedIt && WhileOpen(log[..|log| - 1])
  }

  ghost predicate StreamOk(s: State) {
    && (s.ds.fsOpen ==> WhileOpen(s.rec.log) && !s.ds.fsQuit)
    && (s.ds.fsQuit ==> OnceClosed(s.rec.log))
    && (!s.ds.fsOpen && !s.ds.fsQuit ==> s.rec.log == [])
    && (PastClose(s.t) ==> !s.ds.fsOpen)
  }

  // A thread asleep on the trigger although its loop should end is going to be woken.
  ghost predicate NoLostPoke(s: State) {
    && (s.t == TAsleep && (s.hook.status != Running || s.ds.fsQuit) ==> s.hook.woken || s.d == DPoke || s.d == DPoking)
    && (s.t == TPause ==> s.hook.status == Running && (s.ds.fsQuit ==> s.d == DPoke))
  }

  ghost predicate HookKnown(s: State) {
    s.store.attached ==> s.ds.audiohook
  }

  ghost predicate SyncOk(s: State) {
    LocksOk(s) && NoLostPoke(s) && CountsOk(s)
  }

  ghost predicate DataOk(s: State) {
    DatastoreOk(s) && HookKnown(s)
  }

  ghost predicate ResourceOk(s: State) {
    HookOk(s) && StreamOk(s)
  }

  ghost predicate Inv(s: State) {
    SyncOk(s) && DataOk(s) && ResourceOk(s)
  }

  lemma InitInv(s: State)
    requires Init(s)
    ensures Inv(s)
  {
  }

  lemma LoopKeepsSync(s: State, s': State)
    requires Inv(s) && LoopStep(s, s')
    ensures SyncOk(s')
  {
  }

  lemma LoopKeepsData(s: State, s': State)
    requires Inv(s) && LoopStep(s, s')
    ensures DataOk(s')
  {
  }

  lemma LoopKeepsResource(s: State, s': State)
    requires Inv(s) && LoopStep(s, s')
    ensures ResourceOk(s')
  {
  }

  lemma StoreKeepsSync(s: State, s': State)
    requires Inv(s) && StoreStep(s, s')
    ensures SyncOk(s')
  {
  }

  lemma StoreKeepsData(s: State, s': State)
    requires Inv(s) && StoreStep(s, s')
    ensures DataOk(s')
  {
  }

  lemma StoreKeepsStream(s: State, s': State)
    requires StreamOk(s) && StoreStep(s, s')
    ensures StreamOk(s')
  {
  }

  lemma StoreKeepsResource(s: State, s': State)
    requires Inv(s) && StoreStep(s, s')
    ensures ResourceOk(s')
  {
    StoreKeepsStream(s, s');
  }

  lemma CloseKeepsSync(s: State, s': State)
    requires Inv(s) && CloseStep(s, s')
    ensures SyncOk(s')
  {
  }

  lemma CloseKeepsData(s: State, s': State)
    requires Inv(s) && CloseStep(s, s')
    ensures DataOk(s')
  {
  }

  lemma CloseKeepsResource(s: State, s': State)
    requires Inv(s) && CloseStep(s, s')
    ensures ResourceOk(s')
  {
  }

  lemma ReleaseKeepsSync(s: State, s': State)
    requires Inv(s) && ReleaseStep(s, s')
    ensures SyncOk(s')
  {
  }

  lemma ReleaseKeepsData(s: State, s': State)
    requires Inv(s) && ReleaseStep(s, s')
    ensures DataOk(s')
  {
  }

  lemma ReleaseKeepsStream(s: State, s': State)
    requires StreamOk(s) && ReleaseStep(s, s')
    ensures StreamOk(s')
  {
  }

  lemma ReleaseKeepsHook(s: State, s': State)
    requires LocksOk(s) && HookOk(s) && HookKnown(s) && DatastoreOk(s) && ReleaseStep(s, s')
    ensures HookOk(s')
  {
  }

  lemma ReleaseKeepsResource(s: State, s': State)
    requires Inv(s) && ReleaseStep(s, s')
    ensures ResourceOk(s')
  {
    ReleaseKeepsStream(s, s');
    ReleaseKeepsHook(s, s');
  }

  lemma HKeepsSync(s: State, s': State)
    requires Inv(s) && HStep(s, s')
    ensures SyncOk(s')
  {
  }

  lemma HKeepsData(s: State, s': State)
    requires Inv(s) && HStep(s, s')
    ensures DataOk(s')
  {
  }

  lemma HKeepsStream(s: State, s': State)
    requires StreamOk(s) && HStep(s, s')
    ensures StreamOk(s')
  {
  }

  lemma HKeepsHook(s: State, s': State)
    requires LocksOk(s) && HookOk(s) && HStep(s, s')
    ensures HookOk(s')
  {
  }

  lemma HKeepsResource(s: State, s': State)
    requires Inv(s) && HStep(s, s')
    ensures ResourceOk(s')
  {
    HKeepsStream(s, s');
    HKeepsHook(s, s');
  }

  lemma DKeepsLocks(s: State, s': State)
    requires LocksOk(s) && CountsOk(s) && DStep(s, s')
    ensures LocksOk(s') && CountsOk(s')
  {
  }

  lemma DKeepsSync(s: State, s': State)
    requires Inv(s) && DStep(s, s')
    ensures SyncOk(s')
  {
    DKeepsLocks(s, s');
  }

  lemma DKeepsData(s: State, s': State)
    requires Inv(s) && DStep(s, s')
    ensures DataOk(s')
  {
  }

  lemma DKeepsStream(s: State, s': State)
    requires StreamOk(s) && DStep(s, s')
    ensures StreamOk(s')
  {
  }

  lemma DKeepsHook(s: State, s': State)
    requires LocksOk(s) && HookOk(s) && HookKnown(s) && DatastoreOk(s) && DStep(s, s')
    ensures HookOk(s')
  {
  }

  lemma DKeepsResource(s: State, s': State)
    requires Inv(s) && DStep(s, s')
    ensures ResourceOk(s')
  {
    DKeepsStream(s, s');
    DKeepsHook(s, s');
  }

  lemma EnvKeepsInv(s: State, s': State)
    requires Inv(s) && EnvStep(s, s')
    ensures Inv(s')
  {
  }

  lemma StepKeepsInv(s: State, s': State)
    requires Inv(s) && Step(s, s')
    ensures Inv(s')
  {
    if LoopStep(s, s') {
      LoopKeepsSync(s, s'); LoopKeepsData(s, s'); LoopKeepsResource(s, s');
    } else if StoreStep(s, s') {
      StoreKeepsSync(s, s'); StoreKeepsData(s, s'); StoreKeepsResource(s, s');
    } else if CloseStep(s, s') {
      CloseKeepsSync(s, s'); CloseKeepsData(s, s'); CloseKeepsResource(s, s');
    } else if ReleaseStep(s, s') {
      ReleaseKeepsSync(s, s'); ReleaseKeepsData(s, s'); ReleaseKeepsResource(s, s');
    } else if HStep(s, s') {
      HKeepsSync(s, s'); HKeepsData(s, s'); HKeepsResource(s, s');
    } else if DStep(s, s') {
      DKeepsSync(s, s'); DKeepsData(s, s'); DKeepsResource(s, s');
    } else {
      EnvKeepsInv(s, s');
    }
  }

  lemma RunStart(run: Run)
    ensures Inv(run[0])
  {
    InitInv(run[0]);
  }

  lemma RunStepKeepsInv(run: Run, i: nat)
    requires 0 < i < |run|
    ensures Inv(run[i - 1]) ==> Inv(run[i])
  {
    assert StepAt(run, i - 1);
    if Inv(run[i - 1]) {
      StepKeepsInv(run[i - 1], run[i]);
    }
  }

  lemma {:induction false} RunInv(run: Run, i: nat)
    requires i < |run|
    ensures Inv(run[i])
  {
    if i == 0 {
      RunStart(run);
    } else {
      RunInv(run, i - 1);
      RunStepKeepsInv(run, i);
    }
  }
}
