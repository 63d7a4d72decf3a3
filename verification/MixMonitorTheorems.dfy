// What every run of the MixMonitor protocol guarantees.
module MixMonitorTheorems {
  import opened Prelude
  import opened MixMonitorDatastore
  import opened MixMonitorProtocol

  // ------------------------------------------------------------------------------ lifetimes

  // The thread is about to touch, or is using, the audiohook (the datastore).
  predicate ThreadUsesHook(t: TPc) {
    match t
    case THaveFrame => false case TStore => false case TFinish => false case TClosing => false
    case TAwaitDestroy => false case TDestroyed => false case TForget => false case TForgetting => false
    case TFreeDs => false case TDone => false
    case _ => true
  }

  predicate ThreadUsesDs(t: TPc) {
    t == TCheck || t == THaveFrame || t == TFinish || t == TAwaitDestroy || t == TForget
    || THoldsDs(t) || t == TFreeDs
  }

  predicate SideUsesHook(s: State) {
    s.hook.inList || s.h != HIdle || s.d == DMark || s.d == DMarking || s.d == DPoke || s.d == DPoking
  }

  predicate SideUsesDs(s: State) {
    s.store.attached || (s.d != DIdle && s.d != DFreeChan && s.d != DMark && s.d != DMarking)
  }

  lemma Lifetimes(run: Run, i: nat)
    requires i < |run|
    ensures var s := run[i];
      && (ThreadUsesHook(s.t) || SideUsesHook(s) ==> s.hook.destroys == 0)
      && (ThreadUsesDs(s.t) || SideUsesDs(s) ==> s.store.frees == 0)
      && s.hook.destroys <= 1 && s.store.frees <= 1
      && (s.hook.destroys + s.store.frees > 0 ==> s.ds.destructionOk)
      && (s.t == TDone ==> s.hook.destroys == 1 && s.store.frees == 1)
  {
    RunInv(run, i);
  }

  // The datastore's channel pointer, which the thread follows while it holds the datastore, is
  // never a channel that has gone.
  lemma ChannelPointerValid(run: Run, i: nat)
    requires i < |run|
    ensures run[i].ds.chan.Some? ==> run[i].ds.chan.value !in run[i].chans.freed
  {
    RunInv(run, i);
  }

  // ------------------------------------------------------------- locks, deadlock and wakeups

  datatype Lock = ChannelLock | DatastoreLock | HookLock

  function Rank(l: Lock): nat {
    match l case ChannelLock => 0 case DatastoreLock => 1 case HookLock => 2
  }

  function HeldByThread(t: TPc): set<Lock> {
    (if THoldsDs(t) then {DatastoreLock} else {}) + (if THoldsHook(t) then {HookLock} else {})
  }

  function HeldByHookSide(h: HPc): set<Lock> {
    (if h != HIdle then {ChannelLock} else {}) + (if HHoldsHook(h) then {HookLock} else {})
  }

  function HeldByDsSide(d: DPc): set<Lock> {
    (if d != DIdle then {ChannelLock} else {}) + (if DHoldsDs(d) then {DatastoreLock} else {})
    + (if DHoldsHook(d) then {HookLock} else {})
  }

  // The lock a step takes is above every lock its actor already holds.
  predicate InOrder(before: set<Lock>, after: set<Lock>) {
    forall held, taken :: held in before && taken in after - before ==> Rank(held) < Rank(taken)
  }

  // The thread takes a lock only while it holds none.
  lemma ThreadHoldsOneLock(s: State, s': State)
    requires TStep(s, s')
    ensures THoldsHook(s.t) ==> !THoldsDs(s'.t)
    ensures THoldsDs(s.t) ==> !THoldsHook(s'.t)
    ensures s'.h == s.h && s'.d == s.d
  {
  }

  lemma LockOrderThread(s: State, s': State)
    requires TStep(s, s')
    ensures InOrder(HeldByThread(s.t), HeldByThread(s'.t)) && s'.h == s.h && s'.d == s.d
  {
    ThreadHoldsOneLock(s, s');
  }

  lemma LockOrderHookSide(s: State, s': State)
    requires HStep(s, s')
    ensures InOrder(HeldByHookSide(s.h), HeldByHookSide(s'.h)) && s'.t == s.t && s'.d == s.d
  {
  }

  lemma LockOrderDsSide(s: State, s': State)
    requires DStep(s, s')
    ensures InOrder(HeldByDsSide(s.d), HeldByDsSide(s'.d)) && s'.t == s.t && s'.h == s.h
  {
  }

  lemma NoLostWakeup(run: Run, i: nat)
    requires i < |run|
    ensures var s := run[i];
      // destruction_ok set while the thread waits for it: the signal has reached the thread
      && (s.t == TAwaitDestroy && s.ds.destructionOk ==> s.store.woken)
      // the loop must end but the thread is asleep: signalled, or StopMixMonitor is on its way
      && (s.t == TAsleep && (s.hook.status != Running || s.ds.fsQuit)
          ==> s.hook.woken || s.d == DPoke || s.d == DPoking)
      // no poke and no status change while the thread is between its check and its wait
      && (s.d == DPoking || s.d == DMarking || HHoldsHook(s.h) ==> s.t != TCheck && s.t != TPause)
  {
    RunInv(run, i);
  }

  // -------------------------------------------------------------------- the recording stream

  ghost predicate StreamGrows(s: State, s': State) {
    && s.rec.log <= s'.rec.log
    && (s.ds.fsQuit ==> s'.ds.fsQuit && s'.rec.log == s.rec.log)
  }

  lemma ThreadStreamGrows(s: State, s': State)
    requires StreamOk(s) && TStep(s, s')
    ensures StreamGrows(s, s')
  {
  }

  lemma SidesStreamGrows(s: State, s': State)
    requires StreamOk(s) && (HStep(s, s') || DStep(s, s') || EnvStep(s, s'))
    ensures StreamGrows(s, s')
  {
  }

  lemma AnyStreamGrows(s: State, s': State)
    requires StreamOk(s) && Step(s, s')
    ensures StreamGrows(s, s')
  {
    if TStep(s, s') {
      ThreadStreamGrows(s, s');
    } else {
      SidesStreamGrows(s, s');
    }
  }

  lemma StreamStep(run: Run, i: nat)
    requires 0 < i < |run|
    ensures StreamGrows(run[i - 1], run[i])
  {
    RunInv(run, i - 1);
    assert StepAt(run, i - 1);
    AnyStreamGrows(run[i - 1], run[i]);
  }

  lemma {:induction false} QuitIsFinal(run: Run, i: nat, j: nat)
    requires i <= j < |run| && run[i].ds.fsQuit
    ensures run[j].ds.fsQuit && run[j].rec.log == run[i].rec.log
    decreases j - i
  {
    if i < j {
      QuitIsFinal(run, i, j - 1);
      StreamStep(run, j);
    }
  }

  lemma StreamHistory(run: Run, i: nat, j: nat)
    requires i <= j < |run|
    ensures var log := run[i].rec.log; log == [] || WhileOpen(log) || OnceClosed(log)
    ensures run[i].ds.fsQuit ==> run[j].rec.log == run[i].rec.log
    ensures run[i].t == TDone ==> run[i].rec.log == [] || OnceClosed(run[i].rec.log)
  {
    RunInv(run, i);
    if run[i].ds.fsQuit {
      QuitIsFinal(run, i, j);
    }
  }
}
