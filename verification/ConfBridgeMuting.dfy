// Who is muted and who is unmuted by whom (apps/app_confbridge.c:253-310, 453-508), and what each
// step does to a bridge besides.
module ConfBridgeMuting {
  import opened Prelude
  import opened ConfBridgeRoom
  import opened ConfBridgeProtocol
  import opened ConfBridgeTheorems

  // ----------------------------------------------------------------------------- one section

  // Everybody else keeps their flags, but for the mute flag, and their place.
  predicate SameBut(ms: seq<Member>, after: seq<Member>, i: nat, mute: bool)
    requires i < |ms| && i < |after|
  {
    after[i] == ms[i].(mute := mute)
  }

  // Joining: a first marked user who is quiet unmutes everybody else; nobody else's flag is touched by
  // any other join, and only one who waits while no marked user is there is muted by it.
  lemma JoinMutes(r: Room, id: nat, f: Flags)
    requires RoomOk(r) && !Has(r.members, id)
    ensures var e, n := ConfBridgeRoom.Entered(r, id, f), |r.members|;
      && e.users == r.users + 1 && e.markedUsers == r.markedUsers + (if f.marked then 1 else 0) && |e.members| == n + 1
      && e.members[n] == Member(id, f, !f.marked && f.waitMarked && r.markedUsers == 0)
      && forall i :: 0 <= i < n ==>
           SameBut(r.members, e.members, i, if f.marked && f.quiet && r.markedUsers == 0 then false else r.members[i].mute)
  {
    var e, all := ConfBridgeRoom.Entered(r, id, f), r.members + [Member(id, f, false)];
    forall i | 0 <= i < |r.members|
      ensures SameBut(r.members, e.members, i,
                      if f.marked && f.quiet && r.markedUsers == 0 then false else r.members[i].mute)
    {
      assert r.members[i].id != id && all[i] == r.members[i];
    }
  }

  // What comes next: only a first marked user who is not quiet still has to unmute the others.
  lemma JoinThen(r: Room, id: nat, f: Flags)
    ensures var next := NextAfterEntering(ConfBridgeRoom.Entered(r, id, f), f);
      && (next == PlaceInto <==> f.marked && !f.quiet && r.markedUsers == 0)
      && (next == WaitLeader <==> !f.marked && f.waitMarked && !f.quiet && r.markedUsers == 0)
      && (next == OtherPrompt <==>
            !f.marked && !f.waitMarked && (if r.users == 0 then !f.quiet && !f.noOnlyPerson else f.announceCount))
  {
  }

  lemma PromptUnmutes(r: Room, id: nat)
    ensures var u := UnmutedOthers(r, id);
      && u == r.(members := u.members) && |u.members| == |r.members|
      && forall i :: 0 <= i < |r.members| ==> SameBut(r.members, u.members, i, r.members[i].id == id && r.members[i].mute)
  {
  }

  // Leaving: when the last marked user leaves others behind, all of them are muted, and nobody's
  // flag is touched otherwise.
  lemma LeaveMutes(r: Room, id: nat, at: nat)
    requires RoomOk(r) && at < |r.members| && r.members[at].id == id
    requires r.users > 0 && (r.members[at].flags.marked ==> r.markedUsers > 0)
    ensures var f := r.members[at].flags;
      var l := Left(r, id, f);
      && l.users == r.users - 1 && l.markedUsers == r.markedUsers - (if f.marked then 1 else 0)
      && |l.members| == |r.members| - 1
      && forall i :: 0 <= i < |l.members| ==>
           var was := r.members[if i < at then i else i + 1];
           l.members[i] == was.(mute := was.mute || (f.marked && r.markedUsers == 1))
  {
    WithoutAt(r.members, id, at);
  }

  lemma OwnMute(r: Room, id: nat, mute: bool)
    ensures var s := SetMute(r, id, mute);
      && s == r.(members := s.members) && |s.members| == |r.members|
      && forall i :: 0 <= i < |r.members| ==>
           SameBut(r.members, s.members, i, if r.members[i].id == id then mute else r.members[i].mute)
  {
  }

  // -------------------------------------------------------------------------------- one step

  // Who finds a locked bridge is refused unless an administrator; who creates one finds it unlocked
  // and empty, under the name cut to 31 characters.
  lemma FindEffect(s: GoodState, u: nat, found: Lookup)
    requires Enabled(s, Find(u, found)) && found != NoMemory
    ensures var s', b := Apply(s, Find(u, found)), found.b;
      && b in s'.bridges
      && (found.Existing? ==>
            && s'.bridges[b] == s.bridges[b].(refs := s.bridges[b].refs + 1)
            && At(s', u) == if s.bridges[b].locked && !s.callers[u].flags.admin then Refused(b) else Pending(b))
      && (found.Created? ==>
            && At(s', u) == Pending(b) && s'.bridges[b].linked && !s'.bridges[b].locked && s'.bridges[b].room == EmptyRoom
            && s'.bridges[b].name <= s.callers[u].name
            && |s'.bridges[b].name| == if |s.callers[u].name| < 32 then |s.callers[u].name| else 31)
  {
  }

  // The lock only changes when an administrator inside toggles it.
  lemma LockEffect(s: GoodState, a: Action, b: nat)
    requires Enabled(s, a) && b in s.bridges
    ensures BridgeThere(s, a) && b in Apply(s, a).bridges
    ensures Apply(s, a).bridges[b].locked ==
      if a.ToggleLock? && At(s, a.u).b == b then !s.bridges[b].locked else s.bridges[b].locked
  {
    EnabledThere(s, a);
  }

  // A bridge is unlinked exactly by the last user leaving it.
  lemma LinkEffect(s: GoodState, a: Action, b: nat)
    requires Enabled(s, a) && b in s.bridges && s.bridges[b].linked
    ensures BridgeThere(s, a) && b in Apply(s, a).bridges
    ensures !Apply(s, a).bridges[b].linked <==> a.Leave? && At(s, a.u).b == b && s.bridges[b].room.users == 1
  {
    EnabledThere(s, a);
  }

  // Where each step takes its caller.
  lemma MoveEffect(s: GoodState, a: Action)
    requires Enabled(s, a) && BridgeThere(s, a) && !a.Find?
    ensures var pc, b := At(Apply(s, a), a.u), At(s, a.u).b;
      match a
      case GiveUp(_) => pc == Out
      case Join(_) => pc == Placing(b) || pc == Prompted(b) || pc == Entered(b)
      case AfterPrompt(_) => pc == Entered(b)
      case ZeroFeatures(_) => pc == Zeroed(b)
      case StartMuted(_) => pc == Inside(b)
      case ToggleLock(_) => pc == Inside(b)
      case Leave(_) => pc == Leaving(b)
      case Unref(_) => pc == Out
  {
  }

  // No caller is ever stuck, and an administrator inside can always toggle the lock.
  lemma NeverStuck(s: GoodState, u: nat) returns (a: Action)
    requires u in s.callers
    ensures a.u == u && Enabled(s, a) && BridgeThere(s, a)
    ensures At(s, u).Inside? ==> Enabled(s, Leave(u)) && (s.callers[u].flags.admin ==> Enabled(s, ToggleLock(u)))
  {
    match At(s, u) {
      case Out =>
        if b :| Matches(s, b, s.callers[u].name) {
          a := Find(u, Existing(b));
        } else {
          a := Find(u, NoMemory);
        }
      case Refused(_) => a := GiveUp(u);
      case Pending(_) => a := Join(u);
      case Placing(_) => a := AfterPrompt(u);
      case Prompted(_) => a := AfterPrompt(u);
      case Entered(_) => a := ZeroFeatures(u);
      case Zeroed(_) => a := StartMuted(u);
      case Inside(_) => a := Leave(u);
      case Leaving(_) => a := Unref(u);
    }
    EnabledThere(s, a);
  }

  // After the prompt of a first marked user nobody else is muted.
  lemma PlacedUnmutes(s: GoodState, u: nat)
    requires Enabled(s, AfterPrompt(u)) && At(s, u).Placing?
    ensures BridgeThere(s, AfterPrompt(u)) && At(s, u).b in s.bridges
    ensures var s' := Apply(s, AfterPrompt(u));
      forall m :: m in s'.bridges[At(s, u).b].room.members && m.id != u ==> !m.mute
  {
    EnabledThere(s, AfterPrompt(u));
    BridgeFacts(s, u);
    PromptUnmutes(s.bridges[At(s, u).b].room, u);
  }

  // The caller's own flag is cleared with the features, and set again only if that was asked for.
  lemma FlagEffect(s: GoodState, a: Action)
    requires Enabled(s, a) && BridgeThere(s, a) && (a.ZeroFeatures? || a.StartMuted?)
    ensures var b := At(s, a.u).b;
      && b in s.bridges
      && var r, after := s.bridges[b].room, Apply(s, a).bridges[b].room;
        |after.members| == |r.members|
        && forall i :: 0 <= i < |r.members| ==>
             after.members[i] == r.members[i].(mute :=
               if r.members[i].id != a.u then r.members[i].mute
               else a.StartMuted? && (s.callers[a.u].flags.startMuted || r.members[i].mute))
  {
    BridgeFacts(s, a.u);
    var r := s.bridges[At(s, a.u).b].room;
    OwnMute(r, a.u, a.StartMuted?);
  }

  ghost predicate NobodyElseMuted(s: State, u: nat, b: nat) {
    b in s.bridges && forall m :: m in s.bridges[b].room.members && m.id != u ==> !m.mute
  }

  lemma FirstLeader(s: GoodState, u: nat)
    requires Enabled(s, Join(u)) && s.callers[u].flags.marked
    ensures At(s, u).b in s.bridges && BridgeThere(s, Join(u))
    ensures var b, s' := At(s, u).b, Apply(s, Join(u));
      s.bridges[b].room.markedUsers == 0 ==>
        if s.callers[u].flags.quiet then NobodyElseMuted(s', u, b) else At(s', u) == Placing(b)
  {
    BridgeFacts(s, u);
    JoinMutes(s.bridges[At(s, u).b].room, u, s.callers[u].flags);
    JoinThen(s.bridges[At(s, u).b].room, u, s.callers[u].flags);
  }

  // In any run: when a first marked user joins, everybody else is unmuted at once, or the marked user
  // is about to hear a prompt.
  lemma LeaderArrives(states: seq<State>, acts: seq<Action>, i: nat)
    requires IsRun(states, acts) && i < |acts| && acts[i].Join?
    ensures var s, u, s' := states[i], acts[i].u, states[i + 1];
      && u in s.callers && u in s'.callers && At(s, u).Pending? && At(s, u).b in s.bridges
      && (s.callers[u].flags.marked && s.bridges[At(s, u).b].room.markedUsers == 0 ==>
            if s.callers[u].flags.quiet then NobodyElseMuted(s', u, At(s, u).b) else At(s', u) == Placing(At(s, u).b))
  {
    RunInv(states, acts, i);
    assert StepAt(states, acts, i);
    StepKeepsInv(states[i], acts[i], states[i + 1]);
    BridgeFacts(states[i], acts[i].u);
    if states[i].callers[acts[i].u].flags.marked {
      FirstLeader(states[i], acts[i].u);
    }
  }

  // And when that prompt is over, everybody else is unmuted.
  lemma LeaderPlaced(states: seq<State>, acts: seq<Action>, i: nat)
    requires IsRun(states, acts) && i < |acts| && acts[i].AfterPrompt?
    ensures var s, u := states[i], acts[i].u;
      u in s.callers && (At(s, u).Placing? ==> NobodyElseMuted(states[i + 1], u, At(s, u).b))
  {
    RunInv(states, acts, i);
    assert StepAt(states, acts, i);
    StepKeepsInv(states[i], acts[i], states[i + 1]);
    if At(states[i], acts[i].u).Placing? {
      PlacedUnmutes(states[i], acts[i].u);
    }
  }

  // ------------------------------------------------------------- who is muted under a leader

  ghost predicate SomePlacing(s: State, b: nat) {
    exists u :: u in s.callers && At(s, u) == Placing(b)
  }

  // A marked user is only muted by request, and so is everybody while a marked user is there whose
  // prompt is over.
  ghost predicate Heard(r: Room, placing: bool) {
    forall i :: 0 <= i < |r.members| ==>
      r.members[i].mute && (r.members[i].flags.marked || (r.markedUsers > 0 && !placing))
      ==> r.members[i].flags.startMuted
  }

  ghost predicate HeardOk(s: State) {
    forall b :: b in s.bridges ==> Heard(s.bridges[b].room, SomePlacing(s, b))
  }

  lemma JoinHeard(r: Room, id: nat, f: Flags, placing: bool)
    requires RoomOk(r) && !Has(r.members, id) && Heard(r, placing)
    ensures var e := ConfBridgeRoom.Entered(r, id, f); Heard(e, placing || NextAfterEntering(e, f) == PlaceInto)
  {
    JoinMutes(r, id, f);
    JoinThen(r, id, f);
  }

  lemma LeaveHeard(r: Room, id: nat, at: nat, placing: bool)
    requires RoomOk(r) && at < |r.members| && r.members[at].id == id && Heard(r, placing)
    requires r.users > 0 && (r.members[at].flags.marked ==> r.markedUsers > 0)
    ensures Heard(Left(r, id, r.members[at].flags), placing)
  {
    var l := Left(r, id, r.members[at].flags);
    LeaveMutes(r, id, at);
    LeftOk(r, id, at);
    forall i | 0 <= i < |l.members| && l.members[i].flags.marked
      ensures l.markedUsers > 0
    {
      NoneMarked(l.members, i);
    }
  }

  lemma OwnHeard(r: Room, id: nat, mute: bool, placing: bool)
    requires Heard(r, placing)
    requires mute ==> forall i :: 0 <= i < |r.members| && r.members[i].id == id ==> r.members[i].flags.startMuted
    ensures Heard(SetMute(r, id, mute), placing)
  {
    OwnMute(r, id, mute);
  }

  lemma PromptHeard(r: Room, id: nat, placing: bool, at: nat)
    requires RoomOk(r) && Heard(r, placing) && at < |r.members| && r.members[at].id == id && r.members[at].flags.marked
    ensures Heard(UnmutedOthers(r, id), false)
  {
    PromptUnmutes(r, id);
  }

  // Whether anybody is placing changes only by the step's own caller.
  lemma PlacingPut(s: State, u: nat, pc: Pc, b: nat, br: Bridge, o: nat)
    requires u in s.callers && Concerns(At(s, u), b) && Concerns(pc, b)
    ensures SomePlacing(s, o) && !SomePlacing(Put(s, u, pc, b, br), o) ==> At(s, u) == Placing(o)
    ensures SomePlacing(Put(s, u, pc, b, br), o) ==> SomePlacing(s, o) || pc == Placing(o)
    ensures o != b ==> (SomePlacing(Put(s, u, pc, b, br), o) <==> SomePlacing(s, o))
    ensures pc == Placing(o) ==> SomePlacing(Put(s, u, pc, b, br), o)
  {
    var s' := Put(s, u, pc, b, br);
    if SomePlacing(s, o) {
      var v :| v in s.callers && At(s, v) == Placing(o);
      assert v != u ==> At(s', v) == Placing(o);
    }
    if SomePlacing(s', o) {
      var v :| v in s'.callers && At(s', v) == Placing(o);
      assert v != u ==> At(s, v) == Placing(o);
    }
    assert At(s', u) == pc;
  }

  lemma HeardMore(r: Room, placing: bool, more: bool)
    requires Heard(r, placing) && (placing ==> more)
    ensures Heard(r, more)
  {
  }

  // The room an action leaves behind, as far as anybody may still be placing.
  lemma RoomHeard(s: GoodState, a: Action)
    requires Enabled(s, a) && BridgeThere(s, a) && !a.Find?
    requires Heard(s.bridges[At(s, a.u).b].room, SomePlacing(s, At(s, a.u).b))
    ensures var b := At(s, a.u).b;
      Heard(NewBridge(s, a).room, (SomePlacing(s, b) && !At(s, a.u).Placing?) || NewPc(s, a) == Placing(b))
  {
    var b := At(s, a.u).b;
    var r, placing := s.bridges[b].room, SomePlacing(s, b);
    BridgeFacts(s, a.u);
    match a
    case Join(u) => JoinHeard(r, u, s.callers[u].flags, placing);
    case Leave(u) =>
      var at := MemberAt(s, u);
      LeaveHeard(r, u, at, placing);
    case AfterPrompt(u) =>
      if At(s, u).Placing? {
        var at := MemberAt(s, u);
        PromptHeard(r, u, placing, at);
      }
    case ZeroFeatures(u) => OwnHeard(r, u, false, placing);
    case StartMuted(u) =>
      if s.callers[u].flags.startMuted {
        forall i | 0 <= i < |r.members| && r.members[i].id == u
          ensures r.members[i].flags.startMuted
        {
          assert FlagsMatch(s, r.members[i]);
        }
        OwnHeard(r, u, true, placing);
      }
    case _ =>
  }

  lemma HeardStep(s: GoodState, a: Action)
    requires Enabled(s, a) && BridgeThere(s, a) && HeardOk(s)
    ensures HeardOk(Apply(s, a))
  {
    if a != Find(a.u, NoMemory) {
      var s', b, pc, br := Apply(s, a), Target(s, a), NewPc(s, a), NewBridge(s, a);
      if !a.Find? {
        RoomHeard(s, a);
      }
      forall o | o in s'.bridges
        ensures Heard(s'.bridges[o].room, SomePlacing(s', o))
      {
        PlacingPut(s, a.u, pc, b, br, o);
        if o == b && !a.Find? {
          HeardMore(br.room, (SomePlacing(s, b) && !At(s, a.u).Placing?) || pc == Placing(b), SomePlacing(s', b));
        }
      }
    }
  }

  // Over every run: once a marked user is there and no first marked user's prompt is still playing,
  // the only members muted are those who asked for it.
  lemma {:induction false} LeaderUnmutes(states: seq<State>, acts: seq<Action>, n: nat)
    requires IsRun(states, acts) && n < |states|
    ensures HeardOk(states[n])
  {
    if n > 0 {
      LeaderUnmutes(states, acts, n - 1);
      RunInv(states, acts, n - 1);
      assert StepAt(states, acts, n - 1);
      StepKeepsInv(states[n - 1], acts[n - 1], states[n]);
      HeardStep(states[n - 1], acts[n - 1]);
    }
  }
}
