// Who answers a call that rings several destinations, and what each round of the wait does to every
// entry (apps/app_dial.c:840-1358), said of the entries as they stand before the round.
module DialAnswer {
  import opened Prelude
  import opened DialRing

  // Its channel is up, or brings an answer.
  predicate Answers(l: Leg, r: Round) {
    l.Live? && (l.chan in r.up || (r.winner.Callee? && r.winner.chan == l.chan && r.winner.event.Answer?))
  }

  // Its channel woke the loop and is heard.
  predicate Speaks(l: Leg, r: Round) {
    l.Live? && l.chan !in r.up && r.winner.Callee? && r.winner.chan == l.chan
  }

  // What a failure counts as and what status it leaves; no route and no permission count as no
  // channel, a phone off the hook as no route.
  function FailureCounter(why: Failure): Counter {
    match why
    case IsBusy => Busy
    case IsCongested => Congestion
    case IsRouteFail => NoChan
    case IsRejected => Rejected
    case IsUnavailable => TempUnavail
    case IsForbidden => NoChan
    case IsOffhook => RouteFail
    case IsTakeOffhook => NoChan
    case IsTimeout => Timeout
  }

  // And a hangup cause, by its number in Q.850.
  function CauseCounter(cause: int): Counter {
    match cause
    case 3 => RouteFail
    case 16 => Uncounted
    case 17 => Busy
    case 19 => Timeout
    case 29 => Rejected
    case 31 => TempUnavail
    case 34 => Congestion
    case _ => NoChan
  }

  lemma CausesCount(cause: int, why: Failure)
    ensures CounterFor(cause) == CauseCounter(cause)
    ensures CounterFor(FailureCause(why)) == FailureCounter(why)
    ensures FailureStatus(why) == match why
      case IsBusy => BUSY case IsCongested => CONGESTION case IsRouteFail => ROUTEFAIL case IsRejected => REJECTED
      case IsUnavailable => TEMPUNAVAIL case IsForbidden => FORBIDDEN case IsOffhook => OFFHOOK
      case IsTakeOffhook => TAKEOFFHOOK case IsTimeout => NOANSWER
  {
  }

  // An entry after a round; `next` is the channel a forward makes.
  function LegAfter(l: Leg, r: Round, next: nat): Leg {
    if !Speaks(l, r) then l
    else
      match r.winner.event
      case Forward(f) =>
        (match f
         case Ignored => Ended(Busy)
         case NoChannel(cause) => Ended(CauseCounter(cause))
         case CallFailed => Ended(NoChan)
         case Forwarded => Live(next))
      case Eof => Ended(CauseCounter(r.winner.cause))
      case Answer => l
      case Fail(why) => Ended(FailureCounter(why))
      case OtherFrame => l
  }

  function LegsAfter(legs: seq<Leg>, r: Round, next: nat): (after: seq<Leg>)
    ensures |after| == |legs|
  {
    seq(|legs|, i requires 0 <= i < |legs| => LegAfter(legs[i], r, next))
  }

  predicate SomeSpeaks(legs: seq<Leg>, n: nat, r: Round)
    requires n <= |legs|
  {
    exists i :: 0 <= i < n && Speaks(legs[i], r)
  }

  // What the channel that is heard does to the call.
  function CallBy(call: Call, r: Round): Call
    requires r.winner.Callee?
  {
    match r.winner.event
    case Eof => call.(cause := r.winner.cause)
    case Answer => call.(cause := CAUSE_NORMAL_CLEARING)
    case Fail(why) => call.(cause := r.winner.cause, status := FailureStatus(why))
    case _ => call
  }

  predicate MakesChannel(r: Round) {
    r.winner.Callee? && r.winner.event.Forward? && (r.winner.event.f.CallFailed? || r.winner.event.f.Forwarded?)
  }

  // The first of the first n entries that answers.
  function FirstAnswer(legs: seq<Leg>, n: nat, r: Round): (c: Option<nat>)
    requires n <= |legs|
    ensures c.Some? <==> exists i :: 0 <= i < n && Answers(legs[i], r)
    ensures c.Some? ==> exists i :: 0 <= i < n && Answers(legs[i], r) && c == Some(legs[i].chan)
                                    && forall j :: 0 <= j < i ==> !Answers(legs[j], r)
  {
    if n == 0 then None
    else
      var before := FirstAnswer(legs, n - 1, r);
      if before.Some? then before else if Answers(legs[n - 1], r) then Some(legs[n - 1].chan) else None
  }

  predicate Unique(legs: seq<Leg>) {
    forall i, j :: 0 <= i < j < |legs| && legs[i].Live? && legs[j].Live? ==> legs[i].chan != legs[j].chan
  }

  // ---------------------------------------------------------------------------- one round

  // Where the loop over the list stands after n entries.
  predicate HeardTo(s: State, n: nat, r: Round, after: State)
    requires n <= |s.legs|
  {
    && |after.legs| == |s.legs|
    && (forall j :: 0 <= j < n ==> after.legs[j] == LegAfter(s.legs[j], r, s.pool.next))
    && (forall j :: n <= j < |s.legs| ==> after.legs[j] == s.legs[j])
    && after.peer == FirstAnswer(s.legs, n, r)
    && after.pool.next == s.pool.next + (if SomeSpeaks(s.legs, n, r) && MakesChannel(r) then 1 else 0)
    && after.call == if SomeSpeaks(s.legs, n, r) then CallBy(s.call, r) else s.call
  }

  // What the entry whose channel is heard becomes.
  lemma ActHeard(s: State, n: nat, r: Round)
    requires n < |s.legs| && Speaks(s.legs[n], r)
    ensures var after := Act(s, n, s.legs[n].chan, r.winner.event, r.winner.cause);
      && after == LegStep(s, n, r) && after.legs == s.legs[n := LegAfter(s.legs[n], r, s.pool.next)]
      && after.peer == (if s.peer == None && Answers(s.legs[n], r) then Some(s.legs[n].chan) else s.peer)
      && after.pool.next == s.pool.next + (if MakesChannel(r) then 1 else 0) && after.call == CallBy(s.call, r)
  {
    match r.winner.event
    case Fail(why) => CausesCount(0, why);
    case Eof => CausesCount(r.winner.cause, IsBusy);
    case Forward(f) => if f.NoChannel? { CausesCount(f.cause, IsBusy); }
    case _ =>
  }

  lemma TurnHeard(s: State, n: nat, r: Round, mid: State)
    requires Unique(s.legs) && n < |s.legs| && HeardTo(s, n, r, mid)
    ensures HeardTo(s, n + 1, r, LegStep(mid, n, r))
  {
    var l := s.legs[n];
    assert mid.legs[n] == l;
    if Speaks(l, r) {
      forall j | 0 <= j < n
        ensures !Speaks(s.legs[j], r)
      {
      }
      assert !SomeSpeaks(s.legs, n, r);
      assert SomeSpeaks(s.legs, n + 1, r);
      ActHeard(mid, n, r);
    } else {
      assert SomeSpeaks(s.legs, n + 1, r) <==> SomeSpeaks(s.legs, n, r);
    }
  }

  lemma {:induction false} TurnsHeard(s: State, n: nat, r: Round)
    requires Unique(s.legs) && s.peer == None && n <= |s.legs|
    ensures HeardTo(s, n, r, LegSteps(s, n, r))
  {
    if n > 0 {
      TurnsHeard(s, n - 1, r);
      TurnHeard(s, n - 1, r, LegSteps(s, n - 1, r));
    }
  }

  // A round changes the one entry whose channel is heard, and finds the first that answers.
  lemma RoundHeard(s: State, r: Round)
    requires Unique(s.legs) && s.peer == None
    ensures var after := AfterRound(s, r);
      && after.legs == LegsAfter(s.legs, r, s.pool.next)
      && after.peer == FirstAnswer(s.legs, |s.legs|, r)
      && after.pool.next == s.pool.next + (if SomeSpeaks(s.legs, |s.legs|, r) && MakesChannel(r) then 1 else 0)
      && var call := s.call.(to := r.to);
        after.call == if SomeSpeaks(s.legs, |s.legs|, r) then CallBy(call, r) else call
  {
    var s0 := s.(call := s.call.(to := r.to));
    TurnsHeard(s0, |s.legs|, r);
  }

  lemma OwnedUnique(s: State)
    requires Owned(s)
    ensures Unique(s.legs)
  {
    forall i, j | 0 <= i < j < |s.legs| && s.legs[i].Live? && s.legs[j].Live?
      ensures s.legs[i].chan != s.legs[j].chan
    {
      if s.legs[i] == s.legs[j] {
        TwiceIn(s.legs, i, j);
      }
    }
  }

  lemma TwiceIn(legs: seq<Leg>, i: nat, j: nat)
    requires i < j < |legs| && legs[i] == legs[j]
    ensures multiset(legs)[legs[i]] >= 2
  {
    assert legs == legs[..j] + legs[j..];
    assert legs[..j][i] in multiset(legs[..j]) && legs[j..][0] in multiset(legs[j..]);
  }

  // ------------------------------------------------------------------------- the whole wait

  predicate CallerLeaves(r: Round) {
    r.winner.Caller? && !r.winner.input.OtherInput?
  }

  // Who answers: in the first round in which an entry does, if there is still time and an entry left
  // at each round until then and the caller has not left by the end of it.
  function AnsweredBy(to: int, legs: seq<Leg>, next: nat, rounds: seq<Round>): Option<nat>
    decreases |rounds|
  {
    if to == 0 || AllEnded(legs) || rounds == [] || CallerLeaves(rounds[0]) then None
    else
      var r := rounds[0];
      if FirstAnswer(legs, |legs|, r).Some? then FirstAnswer(legs, |legs|, r)
      else
        AnsweredBy(r.to, LegsAfter(legs, r, next),
                   next + (if SomeSpeaks(legs, |legs|, r) && MakesChannel(r) then 1 else 0), rounds[1..])
  }

  lemma RoundThen(num0: Num, s: State, r: Round)
    requires Inv(num0, s) && s.peer == None
    ensures var s1 := AfterRound(s, r);
      && Inv(num0, s1) && s1.peer == FirstAnswer(s.legs, |s.legs|, r) && s1.call.to == r.to
      && s1.legs == LegsAfter(s.legs, r, s.pool.next)
      && s1.pool.next == s.pool.next + (if SomeSpeaks(s.legs, |s.legs|, r) && MakesChannel(r) then 1 else 0)
  {
    OwnedUnique(s);
    RoundHeard(s, r);
    RoundOk(num0, s, r);
  }

  lemma {:induction false} LoopAnswers(num0: Num, prestart: nat, s: State, rounds: seq<Round>)
    requires Inv(num0, s) && s.peer == None
    ensures var result, c := WaitLoop(prestart, s, rounds), AnsweredBy(s.call.to, s.legs, s.pool.next, rounds);
      if result.Returned? then result.peer == c else c == None
    decreases |rounds|
  {
    if s.call.to != 0 && !AllEnded(s.legs) && rounds != [] {
      var r := rounds[0];
      var s1 := AfterRound(s, r);
      RoundThen(num0, s, r);
      CallerLeft(s1, r);
      if !CallerLeaves(r) && s1.peer == None {
        LoopAnswers(num0, prestart, s1, rounds[1..]);
      }
    }
  }

  // A caller who leaves cancels the call, and keeps everything else as it is.
  lemma CallerLeft(s: State, r: Round)
    ensures CallerLeaves(r) <==> r.winner.Caller? && CallerStep(s, r.winner.input).Some?
    ensures CallerLeaves(r) ==> CallerStep(s, r.winner.input) == Some(s.(call :=
      match r.winner.input
      case HangsUp(cause) => Call(-1, CANCEL, if cause == 0 then s.call.cause else cause)
      case _ => Call(0, CANCEL, s.call.cause)))
  {
  }

  // The wait returns the channel that answered, and no channel if none did; as long as it waits
  // nobody has answered.
  lemma WaitAnswers(s: State, rounds: seq<Round>)
    requires Started(s)
    ensures var result := WaitForAnswer(false, s, rounds);
      var c := AnsweredBy(s.call.to, s.legs, s.pool.next, rounds);
      if result.Returned? then result.peer == c else c == None
  {
    StartedAccounted(s);
    LoopAnswers(s.num, Failures(s.num), s, rounds);
  }

  // So if an entry's channel is up or brings an answer in the first round, and the caller stays, the
  // first such channel is returned.
  lemma AnswerAtOnce(s: State, r: Round, rest: seq<Round>, i: nat)
    requires Started(s) && s.call.to != 0 && i < |s.legs| && !CallerLeaves(r)
    requires Answers(s.legs[i], r) && forall j :: 0 <= j < i ==> !Answers(s.legs[j], r)
    ensures var result := WaitForAnswer(false, s, [r] + rest);
      result.Returned? && result.peer == Some(s.legs[i].chan) && Answers(s.legs[i], r)
  {
    WaitAnswers(s, [r] + rest);
    assert ([r] + rest)[0] == r;
    assert !AllEnded(s.legs);
  }

  // Nobody is rung for a caller that is gone.
  lemma CallerGone(s: State, rounds: seq<Round>)
    ensures WaitForAnswer(true, s, rounds) == Returned(s.(call := s.call.(to := -1, status := CANCEL)), None)
  {
  }
}
