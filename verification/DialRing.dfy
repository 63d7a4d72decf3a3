// Ringing several destinations at once (apps/app_dial.c): what one run of wait_for_answer and the
// hanguptree after it do to the outgoing list, the failure counters and the channels.
module DialRing {
  import opened Prelude

  // include/trismedia/causes.h
  const CAUSE_NO_ROUTE_DESTINATION := 3
  const CAUSE_CHANNEL_UNACCEPTABLE := 6
  const CAUSE_NORMAL_CLEARING := 16
  const CAUSE_BUSY := 17
  const CAUSE_NO_ANSWER := 19
  const CAUSE_UNREGISTERED := 20
  const CAUSE_CALL_REJECTED := 21
  const CAUSE_DESTINATION_OUT_OF_ORDER := 27
  const CAUSE_FACILITY_REJECTED := 29
  const CAUSE_NORMAL_UNSPECIFIED := 31
  const CAUSE_CONGESTION := 34

  // The members of struct cause_args; a normal clearing counts for nothing.
  datatype Counter = Busy | Congestion | RouteFail | Rejected | Timeout | TempUnavail | NoChan | Uncounted

  datatype Num = Num(busy: nat, congestion: nat, routefail: nat, rejected: nat, timeout: nat, tempunavail: nat,
                     nochan: nat)
  {
    function Get(k: Counter): nat {
      match k
      case Busy => busy
      case Congestion => congestion
      case RouteFail => routefail
      case Rejected => rejected
      case Timeout => timeout
      case TempUnavail => tempunavail
      case NoChan => nochan
      case Uncounted => 0
    }
  }

  function CounterFor(cause: int): Counter {
    if cause == CAUSE_BUSY then Busy
    else if cause == CAUSE_CONGESTION then Congestion
    else if cause == CAUSE_NO_ROUTE_DESTINATION then RouteFail
    else if cause == CAUSE_UNREGISTERED || cause == CAUSE_CALL_REJECTED then NoChan
    else if cause == CAUSE_NO_ANSWER then Timeout
    else if cause == CAUSE_NORMAL_CLEARING then Uncounted
    else if cause == CAUSE_FACILITY_REJECTED then Rejected
    else if cause == CAUSE_NORMAL_UNSPECIFIED then TempUnavail
    else NoChan
  }

  // An entry of the outgoing list: its channel, or what it was counted under when it lost it.
  datatype Leg = Live(chan: nat) | Ended(how: Counter)

  datatype Status =
    | NOANSWER | CANCEL | BUSY | CONGESTION | ROUTEFAIL | REJECTED | TEMPUNAVAIL | FORBIDDEN
    | OFFHOOK | TAKEOFFHOOK | CHANUNAVAIL

  // Every channel that was put in the list or made by a forward, and how often each was hung up.
  datatype Pool = Pool(entered: set<nat>, next: nat, hungup: multiset<nat>) {
    function Hangup(c: nat): Pool { this.(hungup := hungup + multiset{c}) }

    function Request(): Pool { this.(entered := entered + {next}, next := next + 1) }
  }

  datatype Call = Call(to: int, status: Status, cause: int)

  datatype State = State(legs: seq<Leg>, num: Num, pool: Pool, peer: Option<nat>, call: Call)

  // ------------------------------------------------------------------------ what can happen

  datatype Forwarding = Ignored | NoChannel(cause: int) | CallFailed | Forwarded

  datatype Failure =
    | IsBusy | IsCongested | IsRouteFail | IsRejected | IsUnavailable | IsForbidden | IsOffhook
    | IsTakeOffhook | IsTimeout

  // What the channel that woke the loop has to say.
  datatype LegEvent = Forward(f: Forwarding) | Eof | Answer | Fail(why: Failure) | OtherFrame

  datatype CallerInput = HangsUp(cause: int) | ExitDigit | HangupDigit | OtherInput

  datatype Winner = Nobody | Caller(input: CallerInput) | Callee(chan: nat, event: LegEvent, cause: int)

  // One turn of the loop: which channels are up, which one woke it, and the time left.
  datatype Round = Round(up: set<nat>, winner: Winner, to: int)

  function FailureCause(f: Failure): int {
    match f
    case IsBusy => CAUSE_BUSY
    case IsCongested => CAUSE_CONGESTION
    case IsRouteFail => CAUSE_DESTINATION_OUT_OF_ORDER
    case IsRejected => CAUSE_FACILITY_REJECTED
    case IsUnavailable => CAUSE_NORMAL_UNSPECIFIED
    case IsForbidden => CAUSE_CALL_REJECTED
    case IsOffhook => CAUSE_NO_ROUTE_DESTINATION
    case IsTakeOffhook => CAUSE_UNREGISTERED
    case IsTimeout => CAUSE_NO_ANSWER
  }

  function FailureStatus(f: Failure): Status {
    match f
    case IsBusy => BUSY
    case IsCongested => CONGESTION
    case IsRouteFail => ROUTEFAIL
    case IsRejected => REJECTED
    case IsUnavailable => TEMPUNAVAIL
    case IsForbidden => FORBIDDEN
    case IsOffhook => OFFHOOK
    case IsTakeOffhook => TAKEOFFHOOK
    case IsTimeout => NOANSWER
  }

  function Counted(num: Num, k: Counter): (n: Num)
    ensures forall c :: n.Get(c) == num.Get(c) + if c == k != Uncounted then 1 else 0
  {
    match k
    case Busy => num.(busy := num.busy + 1)
    case Congestion => num.(congestion := num.congestion + 1)
    case RouteFail => num.(routefail := num.routefail + 1)
    case Rejected => num.(rejected := num.rejected + 1)
    case Timeout => num.(timeout := num.timeout + 1)
    case TempUnavail => num.(tempunavail := num.tempunavail + 1)
    case NoChan => num.(nochan := num.nochan + 1)
    case Uncounted => num
  }

  // Entry i loses its channel c.
  function Ends(s: State, i: nat, c: nat, k: Counter): State
    requires i < |s.legs|
  {
    s.(legs := s.legs[i := Ended(k)], num := Counted(s.num, k), pool := s.pool.Hangup(c))
  }

  function DoForward(s: State, i: nat, c: nat, f: Forwarding): State
    requires i < |s.legs|
  {
    match f
    case Ignored => Ends(s, i, c, Busy)
    case NoChannel(cause) => Ends(s, i, c, CounterFor(cause))
    case CallFailed =>
      var made := s.pool.next;
      Ends(s.(pool := s.pool.Request().Hangup(made)), i, c, NoChan)
    case Forwarded =>
      s.(legs := s.legs[i := Live(s.pool.next)], pool := s.pool.Request().Hangup(c))
  }

  function Act(s: State, i: nat, c: nat, e: LegEvent, cause: int): State
    requires i < |s.legs|
  {
    match e
    case Forward(f) => DoForward(s, i, c, f)
    case Eof => Ends(s, i, c, CounterFor(cause)).(call := s.call.(cause := cause))
    case Answer => s.(peer := if s.peer == None then Some(c) else s.peer, call := s.call.(cause := CAUSE_NORMAL_CLEARING))
    case Fail(why) =>
      Ends(s, i, c, CounterFor(FailureCause(why))).(call := s.call.(cause := cause, status := FailureStatus(why)))
    case OtherFrame => s
  }

  // The turn of entry i in the loop over the list.
  function LegStep(s: State, i: nat, r: Round): (after: State)
    requires i < |s.legs|
    ensures |after.legs| == |s.legs|
  {
    match s.legs[i]
    case Ended(_) => s
    case Live(c) =>
      if c in r.up then if s.peer == None then s.(peer := Some(c)) else s
      else if r.winner.Callee? && r.winner.chan == c then Act(s, i, c, r.winner.event, r.winner.cause)
      else s
  }

  function LegSteps(s: State, n: nat, r: Round): (after: State)
    requires n <= |s.legs|
    ensures |after.legs| == |s.legs|
  {
    if n == 0 then s else LegStep(LegSteps(s, n - 1, r), n - 1, r)
  }

  // A round up to the input of the caller.
  function AfterRound(s: State, r: Round): (after: State)
    ensures |after.legs| == |s.legs|
  {
    LegSteps(s.(call := s.call.(to := r.to)), |s.legs|, r)
  }

  predicate AllEnded(legs: seq<Leg>) {
    forall i :: 0 <= i < |legs| ==> legs[i].Ended?
  }

  function Failures(num: Num): nat {
    num.busy + num.congestion + num.nochan
  }

  function StatusByCause(cause: int): Status {
    if cause == CAUSE_CHANNEL_UNACCEPTABLE then ROUTEFAIL
    else if cause == CAUSE_FACILITY_REJECTED then REJECTED
    else if cause == CAUSE_NORMAL_UNSPECIFIED then TEMPUNAVAIL
    else if cause == CAUSE_CALL_REJECTED then FORBIDDEN
    else CHANUNAVAIL
  }

  function BusyStatus(num: Num, call: Call): Status {
    if num.busy > 0 then BUSY
    else if num.congestion > 0 then CONGESTION
    else if num.rejected > 0 then REJECTED
    else if num.tempunavail > 0 then TEMPUNAVAIL
    else if num.timeout > 0 then NOANSWER
    else if num.routefail > 0 then ROUTEFAIL
    else if num.nochan == 0 then call.status
    else StatusByCause(call.cause)
  }

  // "Everyone is busy/congested at this time": no channel is left, and all are accounted for.
  predicate EveryoneBusy(prestart: nat, s: State) {
    prestart + |s.legs| == Failures(s.num)
  }

  function NobodyLeft(prestart: nat, s: State): State {
    var status := if EveryoneBusy(prestart, s) then BusyStatus(s.num, s.call) else s.call.status;
    s.(call := s.call.(to := 0, status := status))
  }

  datatype Result = Waiting(state: State) | Returned(state: State, peer: Option<nat>)

  function CallerStep(s: State, input: CallerInput): Option<State> {
    match input
    case HangsUp(cause) => Some(s.(call := Call(-1, CANCEL, if cause == 0 then s.call.cause else cause)))
    case ExitDigit => Some(s.(call := s.call.(to := 0, status := CANCEL)))
    case HangupDigit => Some(s.(call := s.call.(to := 0, status := CANCEL)))
    case OtherInput => None
  }

  function WaitLoop(prestart: nat, s: State, rounds: seq<Round>): Result
    decreases |rounds|
  {
    if s.call.to == 0 || s.peer.Some? then Returned(s, s.peer)
    else if AllEnded(s.legs) then Returned(NobodyLeft(prestart, s), None)
    else if rounds == [] then Waiting(s)
    else
      var r := rounds[0];
      var s1 := AfterRound(s, r);
      var left := if r.winner.Caller? then CallerStep(s1, r.winner.input) else None;
      if left.Some? then Returned(left.value, None) else WaitLoop(prestart, s1, rounds[1..])
  }

  // wait_for_answer; a caller that is gone already cancels the call.
  function WaitForAnswer(callerGone: bool, s: State, rounds: seq<Round>): Result {
    if callerGone then Returned(s.(call := s.call.(to := -1, status := CANCEL)), None)
    else WaitLoop(Failures(s.num), s, rounds)
  }

  // hanguptree: the channels it hangs up.
  function HangupTree(legs: seq<Leg>, exception: Option<nat>): multiset<nat> {
    if legs == [] then multiset{}
    else
      var rest := HangupTree(legs[1..], exception);
      if legs[0].Live? && Some(legs[0].chan) != exception then multiset{legs[0].chan} + rest else rest
  }

  // -------------------------------------------------------------------------- the invariant

  // Each channel is in the list or hung up, once; a channel nobody made is neither.
  ghost predicate Owned(s: State) {
    && (forall c: nat :: s.pool.hungup[c] + multiset(s.legs)[Live(c)] == if c in s.pool.entered then 1 else 0)
    && (forall c: nat :: c in s.pool.entered ==> c < s.pool.next)
  }

  // Every counter is what it was plus the number of entries that ended in it.
  ghost predicate Accounted(num0: Num, s: State) {
    forall k: Counter :: k != Uncounted ==> s.num.Get(k) == num0.Get(k) + multiset(s.legs)[Ended(k)]
  }

  // The peer is one of the first n entries.
  ghost predicate PeerIn(s: State, n: nat)
    requires n <= |s.legs|
  {
    s.peer.Some? ==> exists j :: 0 <= j < n && s.legs[j] == Live(s.peer.value)
  }

  ghost predicate Inv(num0: Num, s: State) { Owned(s) && Accounted(num0, s) }

  // Before the wait: all entries have channels, all different, and none is hung up.
  ghost predicate Started(s: State) {
    && Owned(s) && s.pool.hungup == multiset{} && s.peer == None
    && forall i :: 0 <= i < |s.legs| ==> s.legs[i].Live?
  }

  lemma EndsOk(num0: Num, s: State, i: nat, c: nat, k: Counter)
    requires Inv(num0, s) && i < |s.legs| && s.legs[i] == Live(c)
    ensures Inv(num0, Ends(s, i, c, k))
  {
    assert multiset(s.legs[i := Ended(k)]) == multiset(s.legs) - multiset{Live(c)} + multiset{Ended(k)};
  }

  lemma MoveOk(num0: Num, s: State, i: nat, c: nat)
    requires Inv(num0, s) && i < |s.legs| && s.legs[i] == Live(c)
    ensures Inv(num0, DoForward(s, i, c, Forwarded))
  {
    var made := s.pool.next;
    var m, after := multiset(s.legs), multiset(s.legs[i := Live(made)]);
    assert made !in s.pool.entered;
    assert after == m - multiset{Live(c)} + multiset{Live(made)};
    assert forall x: nat :: after[Live(x)] == m[Live(x)] - (if x == c then 1 else 0) + (if x == made then 1 else 0);
  }

  lemma ForwardOk(num0: Num, s: State, i: nat, c: nat, f: Forwarding)
    requires Inv(num0, s) && i < |s.legs| && s.legs[i] == Live(c)
    ensures Inv(num0, DoForward(s, i, c, f))
  {
    match f
    case Ignored => EndsOk(num0, s, i, c, Busy);
    case NoChannel(cause) => EndsOk(num0, s, i, c, CounterFor(cause));
    case CallFailed =>
      var made := s.pool.next;
      assert made !in s.pool.entered;
      EndsOk(num0, s.(pool := s.pool.Request().Hangup(made)), i, c, NoChan);
    case Forwarded => MoveOk(num0, s, i, c);
  }

  lemma ActOk(num0: Num, s: State, i: nat, c: nat, e: LegEvent, cause: int)
    requires Inv(num0, s) && i < |s.legs| && s.legs[i] == Live(c)
    ensures Inv(num0, Act(s, i, c, e, cause))
  {
    match e
    case Forward(f) => ForwardOk(num0, s, i, c, f);
    case Eof => EndsOk(num0, s, i, c, CounterFor(cause));
    case Fail(why) => EndsOk(num0, s, i, c, CounterFor(FailureCause(why)));
    case Answer =>
    case OtherFrame =>
  }

  lemma LegStepOk(num0: Num, s: State, i: nat, r: Round)
    requires Inv(num0, s) && i < |s.legs|
    ensures Inv(num0, LegStep(s, i, r))
  {
    if s.legs[i].Live? {
      var c := s.legs[i].chan;
      if c !in r.up && r.winner.Callee? && r.winner.chan == c {
        ActOk(num0, s, i, c, r.winner.event, r.winner.cause);
      }
    }
  }

  lemma LegStepPeer(s: State, i: nat, r: Round)
    requires i < |s.legs| && PeerIn(s, i)
    ensures PeerIn(LegStep(s, i, r), i + 1)
    ensures s.pool.entered <= LegStep(s, i, r).pool.entered
  {
    var after := LegStep(s, i, r);
    assert forall j :: 0 <= j < i ==> after.legs[j] == s.legs[j];
    if s.peer == None && after.peer.Some? {
      assert after.legs[i] == Live(after.peer.value);
    }
  }

  // What every turn keeps, the loop over the list keeps.
  lemma {:induction false} LegStepsKeep(p: State -> bool, s: State, n: nat, r: Round)
    requires n <= |s.legs| && p(s)
    requires forall t: State, i: nat :: i < |t.legs| && p(t) ==> p(LegStep(t, i, r))
    ensures p(LegSteps(s, n, r))
  {
    if n > 0 {
      LegStepsKeep(p, s, n - 1, r);
    }
  }

  lemma LegStepsOk(num0: Num, s: State, n: nat, r: Round)
    requires Inv(num0, s) && n <= |s.legs|
    ensures Inv(num0, LegSteps(s, n, r))
  {
    var p := (t: State) => Inv(num0, t);
    forall t: State, i: nat | i < |t.legs| && p(t)
      ensures p(LegStep(t, i, r))
    {
      LegStepOk(num0, t, i, r);
    }
    LegStepsKeep(p, s, n, r);
  }

  lemma {:induction false} LegStepsPeer(s: State, n: nat, r: Round)
    requires n <= |s.legs| && s.peer == None
    ensures PeerIn(LegSteps(s, n, r), n) && s.pool.entered <= LegSteps(s, n, r).pool.entered
  {
    if n > 0 {
      LegStepsPeer(s, n - 1, r);
      LegStepPeer(LegSteps(s, n - 1, r), n - 1, r);
    }
  }

  // The parts of the state the invariant speaks of.
  predicate SameButCall(a: State, b: State) {
    a.legs == b.legs && a.num == b.num && a.pool == b.pool && a.peer == b.peer
  }

  ghost predicate ResultOk(num0: Num, s: State, result: Result) {
    && Inv(num0, result.state) && s.pool.entered <= result.state.pool.entered
    && |result.state.legs| == |s.legs|
    && (result.Returned? && result.peer.Some? ==> Live(result.peer.value) in result.state.legs)
  }

  lemma RoundOk(num0: Num, s: State, r: Round)
    requires Inv(num0, s) && s.peer == None
    ensures Inv(num0, AfterRound(s, r)) && PeerIn(AfterRound(s, r), |s.legs|)
    ensures s.pool.entered <= AfterRound(s, r).pool.entered
  {
    var s0 := s.(call := s.call.(to := r.to));
    LegStepsOk(num0, s0, |s.legs|, r);
    LegStepsPeer(s0, |s.legs|, r);
  }

  lemma SameInv(num0: Num, a: State, b: State)
    requires Inv(num0, a) && SameButCall(a, b)
    ensures Inv(num0, b)
  {
  }

  // The invariant holds whenever the loop waits and when it returns; a peer has a live entry.
  lemma {:induction false} WaitLoopOk(num0: Num, prestart: nat, s: State, rounds: seq<Round>)
    requires Inv(num0, s) && PeerIn(s, |s.legs|)
    ensures ResultOk(num0, s, WaitLoop(prestart, s, rounds))
    decreases |rounds|
  {
    if s.call.to == 0 || s.peer.Some? {
    } else if AllEnded(s.legs) {
      SameInv(num0, s, NobodyLeft(prestart, s));
    } else if rounds != [] {
      var r := rounds[0];
      var s1 := AfterRound(s, r);
      RoundOk(num0, s, r);
      var left := if r.winner.Caller? then CallerStep(s1, r.winner.input) else None;
      if left.Some? {
        SameInv(num0, s1, left.value);
      } else {
        WaitLoopOk(num0, prestart, s1, rounds[1..]);
      }
    }
  }

  lemma {:induction false} HangupTreeCount(legs: seq<Leg>, exception: Option<nat>, c: nat)
    ensures HangupTree(legs, exception)[c] == if Some(c) == exception then 0 else multiset(legs)[Live(c)]
  {
    if legs != [] {
      HangupTreeCount(legs[1..], exception, c);
      assert legs == [legs[0]] + legs[1..];
    }
  }

  lemma SplitLast(legs: seq<Leg>)
    requires legs != []
    ensures multiset(legs) == multiset(legs[..|legs| - 1]) + multiset{legs[|legs| - 1]}
  {
    assert legs == legs[..|legs| - 1] + [legs[|legs| - 1]];
  }

  // -------------------------------------------------------------------------- main results

  // Every channel that entered the list or was made by a forward is hung up exactly once, by the
  // wait or by the hanguptree after it, except the peer, which nobody hangs up.
  lemma HungUpOnce(callerGone: bool, s: State, rounds: seq<Round>)
    requires Started(s)
    ensures var result := WaitForAnswer(callerGone, s, rounds);
      result.Returned? ==>
        var after := result.state;
        var all := after.pool.hungup + HangupTree(after.legs, result.peer);
        && s.pool.entered <= after.pool.entered
        && (result.peer.Some? ==> result.peer.value in after.pool.entered)
        && forall c: nat :: all[c] == if c in after.pool.entered && Some(c) != result.peer then 1 else 0
  {
    var result := WaitForAnswer(callerGone, s, rounds);
    StartedAccounted(s);
    if !callerGone {
      WaitLoopOk(s.num, Failures(s.num), s, rounds);
    }
    if result.Returned? {
      var after := result.state;
      forall c: nat
        ensures (after.pool.hungup + HangupTree(after.legs, result.peer))[c]
          == if c in after.pool.entered && Some(c) != result.peer then 1 else 0
      {
        HangupTreeCount(after.legs, result.peer, c);
      }
      if result.peer.Some? {
        assert multiset(after.legs)[Live(result.peer.value)] > 0;
      }
    }
  }

  lemma StartedAccounted(s: State)
    requires Started(s)
    ensures Accounted(s.num, s)
  {
    forall k: Counter
      ensures multiset(s.legs)[Ended(k)] == 0
    {
      assert Ended(k) !in s.legs;
    }
  }

  predicate EndedBusy(legs: seq<Leg>) {
    forall i :: 0 <= i < |legs| ==> legs[i] == Ended(Busy) || legs[i] == Ended(Congestion) || legs[i] == Ended(NoChan)
  }

  function EndedIn(legs: seq<Leg>): nat {
    In(legs, Busy) + In(legs, Congestion) + In(legs, NoChan)
  }

  lemma {:induction false} EndedInAll(legs: seq<Leg>)
    ensures EndedIn(legs) <= |legs|
    ensures EndedIn(legs) == |legs| <==> EndedBusy(legs)
  {
    if legs != [] {
      var n := |legs| - 1;
      EndedInAll(legs[..n]);
      SplitLast(legs);
      if EndedBusy(legs) {
        assert EndedBusy(legs[..n]);
      }
      if EndedIn(legs) == |legs| {
        assert EndedBusy(legs[..n]);
      }
    }
  }

  lemma FailuresGrow(num0: Num, s: State)
    requires Accounted(num0, s)
    ensures Failures(s.num) == Failures(num0) + EndedIn(s.legs)
  {
    assert s.num.busy == s.num.Get(Busy) && s.num.congestion == s.num.Get(Congestion) && s.num.nochan == s.num.Get(NoChan);
  }

  function AllFailures(num: Num): nat {
    Failures(num) + num.routefail + num.rejected + num.timeout + num.tempunavail
  }

  function EndedCounted(legs: seq<Leg>): nat {
    if legs == [] then 0
    else
      var last := legs[|legs| - 1];
      EndedCounted(legs[..|legs| - 1]) + if last.Ended? && last != Ended(Uncounted) then 1 else 0
  }

  function In(legs: seq<Leg>, k: Counter): nat { multiset(legs)[Ended(k)] }

  lemma InLast(legs: seq<Leg>, k: Counter)
    requires legs != []
    ensures In(legs, k) == In(legs[..|legs| - 1], k) + if legs[|legs| - 1] == Ended(k) then 1 else 0
  {
    SplitLast(legs);
  }

  lemma {:induction false} EndedCountedAll(legs: seq<Leg>)
    ensures EndedCounted(legs) == EndedIn(legs)
      + (In(legs, RouteFail) + In(legs, Rejected) + In(legs, Timeout) + In(legs, TempUnavail))
    ensures EndedCounted(legs) <= |legs|
  {
    if legs != [] {
      EndedCountedAll(legs[..|legs| - 1]);
      InLast(legs, Busy);
      InLast(legs, Congestion);
      InLast(legs, NoChan);
      InLast(legs, RouteFail);
      InLast(legs, Rejected);
      InLast(legs, Timeout);
      InLast(legs, TempUnavail);
      EndedHow(legs[|legs| - 1]);
    }
  }

  lemma EndedHow(x: Leg)
    ensures x.Live? || x == Ended(Busy) || x == Ended(Congestion) || x == Ended(NoChan) || x == Ended(RouteFail)
      || x == Ended(Rejected) || x == Ended(Timeout) || x == Ended(TempUnavail) || x == Ended(Uncounted)
  {
    match x
    case Live(_) =>
    case Ended(how) =>
      assert how.Busy? || how.Congestion? || how.NoChan? || how.RouteFail? || how.Rejected? || how.Timeout?
        || how.TempUnavail? || how.Uncounted?;
  }

  // All counters together grow by one for each entry that lost its channel otherwise than by a
  // normal clearing, so by no more than the number of entries.
  lemma CountedOnce(s: State, rounds: seq<Round>)
    requires Started(s)
    ensures var after := WaitForAnswer(false, s, rounds).state;
      AllFailures(after.num) == AllFailures(s.num) + EndedCounted(after.legs) <= AllFailures(s.num) + |s.legs|
  {
    StartedAccounted(s);
    WaitLoopOk(s.num, Failures(s.num), s, rounds);
    var after := WaitForAnswer(false, s, rounds).state;
    EndedCountedAll(after.legs);
    assert after.num.routefail == after.num.Get(RouteFail) && after.num.rejected == after.num.Get(Rejected);
    assert after.num.timeout == after.num.Get(Timeout) && after.num.tempunavail == after.num.Get(TempUnavail);
    FailuresGrow(s.num, after);
  }

  // The test for "everyone busy" is passed exactly when every dialled entry ended as busy, as
  // congested or without a channel.
  lemma EveryoneBusyIff(s: State, rounds: seq<Round>)
    requires Started(s)
    ensures var after := WaitForAnswer(false, s, rounds).state;
      && Accounted(s.num, after) && |after.legs| == |s.legs|
      && (EveryoneBusy(Failures(s.num), after) <==> EndedBusy(after.legs))
  {
    StartedAccounted(s);
    WaitLoopOk(s.num, Failures(s.num), s, rounds);
    var after := WaitForAnswer(false, s, rounds).state;
    EndedInAll(after.legs);
    FailuresGrow(s.num, after);
  }

  // ------------------------------------------------------- the status when nobody is left

  // The wait ends because no entry has a channel any more.
  predicate RunsOut(s: State, rounds: seq<Round>)
    decreases |rounds|
  {
    if s.call.to == 0 || s.peer.Some? then false
    else if AllEnded(s.legs) then true
    else if rounds == [] then false
    else
      var r, s1 := rounds[0], AfterRound(s, rounds[0]);
      !(r.winner.Caller? && CallerStep(s1, r.winner.input).Some?) && RunsOut(s1, rounds[1..])
  }

  // The state in which it does.
  function LastState(s: State, rounds: seq<Round>): State
    requires RunsOut(s, rounds)
    decreases |rounds|
  {
    if AllEnded(s.legs) then s else LastState(AfterRound(s, rounds[0]), rounds[1..])
  }

  lemma {:induction false} RunsOutReturns(prestart: nat, s: State, rounds: seq<Round>)
    requires RunsOut(s, rounds)
    ensures AllEnded(LastState(s, rounds).legs)
    ensures WaitLoop(prestart, s, rounds) == Returned(NobodyLeft(prestart, LastState(s, rounds)), None)
    decreases |rounds|
  {
    if !AllEnded(s.legs) {
      RunsOutReturns(prestart, AfterRound(s, rounds[0]), rounds[1..]);
    }
  }

  // What the status must be, from the failures before the wait and the ways the entries ended.
  function StatusByEndings(num0: Num, legs: seq<Leg>, call: Call): Status {
    if !EndedBusy(legs) then call.status
    else if num0.busy > 0 || Ended(Busy) in legs then BUSY
    else if num0.congestion > 0 || Ended(Congestion) in legs then CONGESTION
    else if num0.rejected > 0 then REJECTED
    else if num0.tempunavail > 0 then TEMPUNAVAIL
    else if num0.timeout > 0 then NOANSWER
    else if num0.routefail > 0 then ROUTEFAIL
    else if num0.nochan == 0 && legs == [] then call.status
    else
      // the last cause, by its number in Q.850
      match call.cause
      case 6 => ROUTEFAIL
      case 21 => FORBIDDEN
      case 29 => REJECTED
      case 31 => TEMPUNAVAIL
      case _ => CHANUNAVAIL
  }

  lemma CountsOfBusy(num0: Num, s: State)
    requires Accounted(num0, s) && EndedBusy(s.legs)
    ensures s.num.busy > 0 <==> num0.busy > 0 || Ended(Busy) in s.legs
    ensures s.num.congestion > 0 <==> num0.congestion > 0 || Ended(Congestion) in s.legs
    ensures s.num.nochan > 0 <==> num0.nochan > 0 || Ended(NoChan) in s.legs
    ensures s.num.rejected == num0.rejected && s.num.tempunavail == num0.tempunavail
    ensures s.num.timeout == num0.timeout && s.num.routefail == num0.routefail
  {
    forall k: Counter
      ensures In(s.legs, k) > 0 <==> Ended(k) in s.legs
    {
    }
    assert forall k: Counter :: k != Uncounted ==> s.num.Get(k) == num0.Get(k) + In(s.legs, k);
    assert s.num.busy == s.num.Get(Busy) && s.num.congestion == s.num.Get(Congestion) && s.num.nochan == s.num.Get(NoChan);
    assert s.num.rejected == s.num.Get(Rejected) && s.num.tempunavail == s.num.Get(TempUnavail);
    assert s.num.timeout == s.num.Get(Timeout) && s.num.routefail == s.num.Get(RouteFail);
  }

  lemma NobodyLeftStatus(num0: Num, s: State)
    requires Accounted(num0, s) && AllEnded(s.legs)
    ensures NobodyLeft(Failures(num0), s).call.status == StatusByEndings(num0, s.legs, s.call)
  {
    EndedInAll(s.legs);
    FailuresGrow(num0, s);
    if EndedBusy(s.legs) {
      CountsOfBusy(num0, s);
      assert s.legs != [] ==> s.legs[0] in s.legs;
    }
  }

  // What a wait that runs out returns: no peer, no time left, every entry ended, and the status
  // that the endings call for.
  lemma RunsOutStatus(s: State, rounds: seq<Round>)
    requires Started(s) && RunsOut(s, rounds)
    ensures var last := LastState(s, rounds);
      var result := WaitForAnswer(false, s, rounds);
      && result.Returned? && result.peer == None && result.state.call.to == 0
      && result.state.legs == last.legs && AllEnded(last.legs) && |last.legs| == |s.legs|
      && result.state.call.status == StatusByEndings(s.num, last.legs, last.call)
  {
    var last := LastState(s, rounds);
    StartedAccounted(s);
    RunsOutReturns(Failures(s.num), s, rounds);
    WaitLoopOk(s.num, Failures(s.num), s, rounds);
    assert Accounted(s.num, last) by {
      assert Inv(s.num, NobodyLeft(Failures(s.num), last));
    }
    NobodyLeftStatus(s.num, last);
  }
}
