// wait_for_answer and its helpers as they change the outgoing list and the counters in place
// (apps/app_dial.c), proved against the functions of DialRing.
module DialRingCode {
  import opened Prelude
  import opened DialRing

  // struct chanlist without its link; DIAL_STILLGOING is the only flag that matters here.
  datatype Outgoing = Outgoing(chan: Option<nat>, stillGoing: bool)

  // struct cause_args
  class CauseArgs {
    var busy: nat
    var congestion: nat
    var routefail: nat
    var rejected: nat
    var timeout: nat
    var tempunavail: nat
    var nochan: nat

    ghost function View(): Num
      reads this
    {
      Num(busy, congestion, routefail, rejected, timeout, tempunavail, nochan)
    }

    method HandleCause(cause: int)
      modifies this
      ensures View() == Counted(old(View()), CounterFor(cause))
    {
      if cause == CAUSE_BUSY {
        busy := busy + 1;
      } else if cause == CAUSE_CONGESTION {
        congestion := congestion + 1;
      } else if cause == CAUSE_NO_ROUTE_DESTINATION {
        routefail := routefail + 1;
      } else if cause == CAUSE_UNREGISTERED || cause == CAUSE_CALL_REJECTED {
        nochan := nochan + 1;
      } else if cause == CAUSE_NO_ANSWER {
        timeout := timeout + 1;
      } else if cause == CAUSE_NORMAL_CLEARING {
      } else if cause == CAUSE_FACILITY_REJECTED {
        rejected := rejected + 1;
      } else if cause == CAUSE_NORMAL_UNSPECIFIED {
        tempunavail := tempunavail + 1;
      } else {
        nochan := nochan + 1;
      }
    }

    method CountNoChan()
      modifies this
      ensures View() == Counted(old(View()), NoChan)
    {
      nochan := nochan + 1;
    }
  }

  class Dialing {
    var outgoing: seq<Outgoing>
    const num: CauseArgs
    var pool: Pool
    var peer: Option<nat>
    var call: Call
    // what became of each entry
    ghost var legs: seq<Leg>

    constructor (channels: seq<nat>, num: CauseArgs, pool: Pool, call: Call)
      ensures Valid() && this.num == num
      ensures View() ==
        State(seq(|channels|, i requires 0 <= i < |channels| => Live(channels[i])), num.View(), pool, None, call)
    {
      outgoing := seq(|channels|, i requires 0 <= i < |channels| => Outgoing(Some(channels[i]), true));
      legs := seq(|channels|, i requires 0 <= i < |channels| => Live(channels[i]));
      this.num, this.pool, this.call, peer := num, pool, call, None;
    }

    // An entry is still going exactly when it has a channel.
    ghost predicate Valid()
      reads this
    {
      |legs| == |outgoing| && forall i :: 0 <= i < |legs| ==> Shows(outgoing[i], legs[i])
    }

    static predicate Shows(o: Outgoing, l: Leg) {
      o.stillGoing == o.chan.Some? && o.chan == if l.Live? then Some(l.chan) else None
    }

    ghost function View(): State
      reads this, num
    {
      State(legs, num.View(), pool, peer, call)
    }

    // The entry loses its channel; its counter is counted by the caller.
    method DropChannel(i: nat, ghost k: Counter)
      requires Valid() && i < |legs| && legs[i].Live?
      modifies this`outgoing, this`pool, this`legs
      ensures Valid() && legs == old(legs)[i := Ended(k)] && pool == old(pool).Hangup(old(legs)[i].chan)
    {
      assert Shows(outgoing[i], legs[i]);
      pool := pool.Hangup(outgoing[i].chan.value);
      outgoing := outgoing[i := Outgoing(None, false)];
      legs := legs[i := Ended(k)];
    }

    // do_forward
    method Forward(i: nat, f: Forwarding)
      requires Valid() && i < |legs| && legs[i].Live?
      modifies this`outgoing, this`pool, this`legs, num
      ensures Valid() && View() == DoForward(old(View()), i, old(legs)[i].chan, f)
    {
      match f
      case Ignored =>
        num.HandleCause(CAUSE_BUSY);
        DropChannel(i, Busy);
      case NoChannel(cause) =>
        num.HandleCause(cause);
        DropChannel(i, CounterFor(cause));
      case CallFailed =>
        var made := pool.next;
        pool := pool.Request().Hangup(made);
        DropChannel(i, NoChan);
        num.CountNoChan();
      case Forwarded =>
        assert Shows(outgoing[i], legs[i]);
        var original, made := outgoing[i].chan.value, pool.next;
        pool := pool.Request();
        outgoing := outgoing[i := Outgoing(Some(made), true)];
        legs := legs[i := Live(made)];
        pool := pool.Hangup(original);
    }

    // What the channel that woke the loop brings.
    method HandleEvent(i: nat, e: LegEvent, cause: int)
      requires Valid() && i < |legs| && legs[i].Live?
      modifies this, num
      ensures Valid() && View() == Act(old(View()), i, old(legs)[i].chan, e, cause)
    {
      match e
      case Forward(f) =>
        Forward(i, f);
      case Eof =>
        call := call.(cause := cause);
        DropChannel(i, CounterFor(cause));
        num.HandleCause(call.cause);
      case Answer =>
        assert Shows(outgoing[i], legs[i]);
        if peer == None {
          peer := outgoing[i].chan;
        }
        call := call.(cause := CAUSE_NORMAL_CLEARING);
      case Fail(why) =>
        call := call.(cause := cause);
        DropChannel(i, CounterFor(FailureCause(why)));
        num.HandleCause(FailureCause(why));
        call := call.(status := FailureStatus(why));
      case OtherFrame =>
    }

    method Turn(i: nat, r: Round)
      requires Valid() && i < |legs|
      modifies this, num
      ensures Valid() && View() == LegStep(old(View()), i, r)
    {
      assert Shows(outgoing[i], legs[i]);
      var c := outgoing[i].chan;
      if c == None {
        return;
      }
      if outgoing[i].stillGoing && c.value in r.up {
        if peer == None {
          peer := c;
        }
        return;
      }
      if r.winner.Callee? && c.value == r.winner.chan {
        HandleEvent(i, r.winner.event, r.winner.cause);
      }
    }

    // The inner loop over the list.
    method Turns(r: Round)
      requires Valid()
      modifies this, num
      ensures Valid() && View() == LegSteps(old(View()), |old(legs)|, r)
    {
      ghost var before := View();
      for i := 0 to |outgoing|
        invariant Valid() && |legs| == |before.legs|
        invariant View() == LegSteps(before, i, r)
      {
        Turn(i, r);
      }
    }

    // How many channels there are to watch, the caller's included, and how many entries.
    method CountLines(prestart: nat) returns (pos: nat, numlines: nat)
      requires Valid()
      ensures pos == 1 <==> AllEnded(legs)
      ensures numlines == prestart + |legs|
    {
      pos, numlines := 1, prestart;
      for i := 0 to |outgoing|
        invariant pos >= 1 && numlines == prestart + i
        invariant pos == 1 <==> forall j :: 0 <= j < i ==> legs[j].Ended?
      {
        assert Shows(outgoing[i], legs[i]);
        if outgoing[i].stillGoing && outgoing[i].chan.Some? {
          pos := pos + 1;
        }
        numlines := numlines + 1;
      }
    }

    method ReportNobody(prestart: nat, numlines: nat)
      requires numlines == prestart + |legs|
      modifies this`call
      ensures View() == NobodyLeft(prestart, old(View()))
    {
      if numlines == num.busy + num.congestion + num.nochan {
        var status := call.status;
        if num.busy > 0 {
          status := BUSY;
        } else if num.congestion > 0 {
          status := CONGESTION;
        } else if num.rejected > 0 {
          status := REJECTED;
        } else if num.tempunavail > 0 {
          status := TEMPUNAVAIL;
        } else if num.timeout > 0 {
          status := NOANSWER;
        } else if num.routefail > 0 {
          status := ROUTEFAIL;
        } else if num.nochan > 0 {
          if call.cause == CAUSE_CHANNEL_UNACCEPTABLE {
            status := ROUTEFAIL;
          } else if call.cause == CAUSE_FACILITY_REJECTED {
            status := REJECTED;
          } else if call.cause == CAUSE_NORMAL_UNSPECIFIED {
            status := TEMPUNAVAIL;
          } else if call.cause == CAUSE_CALL_REJECTED {
            status := FORBIDDEN;
          } else {
            status := CHANUNAVAIL;
          }
        }
        call := call.(status := status);
      }
      call := call.(to := 0);
    }

    // Reading from the caller; true if the wait is over.
    method HearCaller(input: CallerInput) returns (left: bool)
      modifies this`call
      ensures left <==> CallerStep(old(View()), input).Some?
      ensures View() == if left then CallerStep(old(View()), input).value else old(View())
    {
      match input
      case HangsUp(cause) =>
        call := call.(to := -1, status := CANCEL);
        if cause != 0 {
          call := call.(cause := cause);
        }
        left := true;
      case ExitDigit =>
        call := call.(to := 0, status := CANCEL);
        left := true;
      case HangupDigit =>
        call := call.(to := 0, status := CANCEL);
        left := true;
      case OtherInput =>
        left := false;
    }

    // One turn of the outer loop once it has something to watch.
    method OneRound(r: Round) returns (left: bool)
      requires Valid()
      modifies this, num
      ensures Valid()
      ensures var s1 := AfterRound(old(View()), r);
        var stop := if r.winner.Caller? then CallerStep(s1, r.winner.input) else None;
        left == stop.Some? && View() == if left then stop.value else s1
    {
      call := call.(to := r.to);
      Turns(r);
      left := false;
      if r.winner.Caller? {
        left := HearCaller(r.winner.input);
      }
    }

    // wait_for_answer; it is still waiting if the rounds end before it returns.
    method WaitForAnswer(callerGone: bool, rounds: seq<Round>) returns (answered: Option<nat>, waiting: bool)
      requires Valid()
      modifies this, num
      ensures Valid()
      ensures DialRing.WaitForAnswer(callerGone, old(View()), rounds) ==
        if waiting then Waiting(View()) else Returned(View(), answered)
    {
      ghost var result := DialRing.WaitForAnswer(callerGone, View(), rounds);
      var prestart := num.busy + num.congestion + num.nochan;
      if callerGone {
        call := call.(to := -1, status := CANCEL);
        return None, false;
      }
      var i := 0;
      while call.to != 0 && peer == None
        invariant Valid() && i <= |rounds|
        invariant WaitLoop(prestart, View(), rounds[i..]) == result
        decreases |rounds| - i
      {
        var pos, numlines := CountLines(prestart);
        if pos == 1 {
          ReportNobody(prestart, numlines);
          return None, false;
        }
        if i == |rounds| {
          return None, true;
        }
        assert rounds[i..][0] == rounds[i] && rounds[i..][1..] == rounds[i + 1..];
        var left := OneRound(rounds[i]);
        if left {
          return None, false;
        }
        i := i + 1;
      }
      return peer, false;
    }

    // One entry of the list is hung up and freed.
    method HangupFirst(exception: Option<nat>)
      requires Valid() && outgoing != []
      modifies this`outgoing, this`pool, this`legs
      ensures Valid() && legs == old(legs)[1..]
      ensures var l := old(legs)[0];
        pool == if l.Live? && Some(l.chan) != exception then old(pool).Hangup(l.chan) else old(pool)
    {
      assert Shows(outgoing[0], legs[0]);
      var chan := outgoing[0].chan;
      if chan.Some? && chan != exception {
        pool := pool.Hangup(chan.value);
      }
      outgoing := outgoing[1..];
      legs := legs[1..];
    }

    // hanguptree
    method HangupTree(exception: Option<nat>)
      requires Valid()
      modifies this`outgoing, this`pool, this`legs
      ensures outgoing == [] && Valid()
      ensures pool == old(pool).(hungup := old(pool).hungup + DialRing.HangupTree(old(legs), exception))
    {
      ghost var was, goal := pool, pool.hungup + DialRing.HangupTree(legs, exception);
      while outgoing != []
        invariant Valid() && pool == was.(hungup := pool.hungup)
        invariant pool.hungup + DialRing.HangupTree(legs, exception) == goal
        decreases |outgoing|
      {
        HangupFirst(exception);
      }
    }
  }
}
