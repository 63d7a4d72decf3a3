// What every interleaving of joins and leaves guarantees, and where it falls short of the
// application's promises.
module ConfBridgeTheorems {
  import opened Prelude
  import opened ConfBridgeRoom
  import opened ConfBridgeProtocol

  lemma BridgeFacts(s: GoodState, u: nat)
    requires u in s.callers && At(s, u) != Out
    ensures At(s, u).b in s.bridges
    ensures var r := s.bridges[At(s, u).b].room;
      && RoomOk(r) && (Has(r.members, u) <==> OnList(At(s, u)))
      && (forall i :: 0 <= i < |r.members| ==> FlagsMatch(s, r.members[i]))
  {
    assert BridgeOk(s, At(s, u).b);
  }

  lemma MemberAt(s: GoodState, u: nat) returns (i: nat)
    requires u in s.callers && OnList(At(s, u))
    ensures At(s, u).b in s.bridges && RoomOk(s.bridges[At(s, u).b].room)
    ensures var ms := s.bridges[At(s, u).b].room.members;
      i < |ms| && ms[i].id == u && ms[i].flags == s.callers[u].flags
  {
    BridgeFacts(s, u);
    var ms := s.bridges[At(s, u).b].room.members;
    assert Has(ms, u);
    i :| 0 <= i < |ms| && ms[i].id == u;
    assert FlagsMatch(s, ms[i]);
  }

  lemma EnabledThere(s: GoodState, a: Action)
    requires Enabled(s, a)
    ensures BridgeThere(s, a)
  {
    if a.Leave? {
      var i := MemberAt(s, a.u);
      LeftOk(s.bridges[At(s, a.u).b].room, a.u, i);
    }
  }

  // The list part of Follows: who is on the list, and with which flags.
  ghost predicate ListFollows(s: State, u: nat, on: bool, ms: seq<Member>, ms': seq<Member>) {
    && (forall x :: Has(ms', x) <==> if x == u then on else Has(ms, x))
    && (forall i :: 0 <= i < |ms'| ==> FlagsMatch(s, ms'[i]))
  }

  lemma JoinList(s: State, u: nat, r: Room)
    requires u in s.callers && RoomOk(r) && !Has(r.members, u)
    requires forall i :: 0 <= i < |r.members| ==> FlagsMatch(s, r.members[i])
    ensures var e := ConfBridgeRoom.Entered(r, u, s.callers[u].flags);
      RoomOk(e) && ListFollows(s, u, true, r.members, e.members)
  {
    var f := s.callers[u].flags;
    EnteredOk(r, u, f);
    var es := ConfBridgeRoom.Entered(r, u, f).members;
    forall i | 0 <= i < |es|
      ensures FlagsMatch(s, es[i])
    {
      if i < |r.members| {
        assert FlagsMatch(s, r.members[i]);
      }
    }
  }

  lemma LeaveList(s: State, u: nat, r: Room, at: nat)
    requires u in s.callers && RoomOk(r) && at < |r.members| && r.members[at].id == u
    requires r.members[at].flags == s.callers[u].flags
    requires forall i :: 0 <= i < |r.members| ==> FlagsMatch(s, r.members[i])
    ensures r.users > 0 && (s.callers[u].flags.marked ==> r.markedUsers > 0)
    ensures var l := Left(r, u, s.callers[u].flags);
      RoomOk(l) && ListFollows(s, u, false, r.members, l.members)
  {
    LeftOk(r, u, at);
    WithoutOne(r.members, u, at);
    var ls := Left(r, u, s.callers[u].flags).members;
    forall i | 0 <= i < |ls|
      ensures FlagsMatch(s, ls[i])
    {
      assert FlagsMatch(s, r.members[if i < at then i else i + 1]);
    }
  }

  lemma MuteList(s: State, u: nat, r: Room, r': Room)
    requires RoomOk(r) && SameUsers(r.members, r'.members) && r'.users == r.users && r'.markedUsers == r.markedUsers
    requires forall i :: 0 <= i < |r.members| ==> FlagsMatch(s, r.members[i])
    ensures RoomOk(r') && ListFollows(s, u, Has(r.members, u), r.members, r'.members)
  {
    SameUsersOk(r.members, r'.members);
    forall i | 0 <= i < |r'.members|
      ensures FlagsMatch(s, r'.members[i])
    {
      assert FlagsMatch(s, r.members[i]);
    }
  }

  // Name, link and reference count change as the caller's move demands.
  lemma CountsFollow(s: State, a: Action)
    requires Enabled(s, a) && BridgeThere(s, a) && !a.Find?
    ensures Concerns(NewPc(s, a), At(s, a.u).b)
    ensures NewPc(s, a).Placing? ==> s.callers[a.u].flags.marked
    ensures var was, br := s.bridges[At(s, a.u).b], NewBridge(s, a);
      && br.name == was.name && (br.linked ==> was.linked)
      && br.refs == was.refs - (if was.linked then 1 else 0) + (if br.linked then 1 else 0)
                    + (if NewPc(s, a) != Out then 1 else 0) - 1
  {
  }

  lemma Moves(s: GoodState, a: Action, pc: Pc, br: Bridge)
    requires Enabled(s, a) && BridgeThere(s, a) && !a.Find?
    requires pc == NewPc(s, a) && br == NewBridge(s, a) && RoomOk(br.room)
    requires ListFollows(s, a.u, OnList(pc), s.bridges[At(s, a.u).b].room.members, br.room.members)
    ensures Inv(Apply(s, a))
  {
    CountsFollow(s, a);
    assert Follows(s, a.u, pc, At(s, a.u).b, br) && pc == NewPc(s, a);
    PutKeepsInv(s, a.u, pc, At(s, a.u).b, br);
  }

  lemma JoinPcOnList(n: Next, b: nat)
    ensures OnList(AfterNext(n, b))
  {
  }

  lemma JoinKeepsInv(s: GoodState, u: nat)
    requires Enabled(s, Join(u)) && BridgeThere(s, Join(u))
    ensures Inv(Apply(s, Join(u)))
  {
    BridgeFacts(s, u);
    JoinList(s, u, s.bridges[At(s, u).b].room);
    var pc, br := NewPc(s, Join(u)), NewBridge(s, Join(u));
    JoinPcOnList(NextAfterEntering(br.room, s.callers[u].flags), At(s, u).b);
    Moves(s, Join(u), pc, br);
  }

  lemma LeaveKeepsInv(s: GoodState, u: nat)
    requires Enabled(s, Leave(u)) && BridgeThere(s, Leave(u))
    ensures Inv(Apply(s, Leave(u)))
  {
    var at := MemberAt(s, u);
    BridgeFacts(s, u);
    LeaveList(s, u, s.bridges[At(s, u).b].room, at);
    Moves(s, Leave(u), NewPc(s, Leave(u)), NewBridge(s, Leave(u)));
  }

  // The actions that at most change mute flags or the lock.
  lemma OtherKeepsInv(s: GoodState, a: Action)
    requires Enabled(s, a) && BridgeThere(s, a) && !a.Find? && !a.Join? && !a.Leave?
    ensures Inv(Apply(s, a))
  {
    BridgeFacts(s, a.u);
    MuteList(s, a.u, s.bridges[At(s, a.u).b].room, NewBridge(s, a).room);
    Moves(s, a, NewPc(s, a), NewBridge(s, a));
  }

  lemma CreatedKeepsInv(s: GoodState, u: nat, b: nat)
    requires Enabled(s, Find(u, Created(b)))
    ensures Inv(Apply(s, Find(u, Created(b))))
  {
    var a := Find(u, Created(b));
    var s' := Apply(s, a);
    assert Holders(s', b) == {u};
    forall o | o in s.bridges
      ensures BridgeOk(s', o)
    {
      PutOthers(s, u, NewPc(s, a), b, NewBridge(s, a), o);
    }
    forall o | o in s.bridges && s.bridges[o].linked
      ensures !SameName(s.bridges[o].name, s'.bridges[b].name)
    {
      assert !Matches(s, o, s.callers[u].name);
    }
  }

  lemma FoundKeepsInv(s: GoodState, u: nat, b: nat)
    requires Enabled(s, Find(u, Existing(b)))
    ensures Inv(Apply(s, Find(u, Existing(b))))
  {
    assert BridgeOk(s, b);
    PutKeepsInv(s, u, NewPc(s, Find(u, Existing(b))), b, NewBridge(s, Find(u, Existing(b))));
  }

  lemma ActionKeepsInv(s: GoodState, a: Action)
    requires Enabled(s, a)
    ensures BridgeThere(s, a) && Inv(Apply(s, a))
  {
    EnabledThere(s, a);
    match a
    case Find(u, Created(b)) => CreatedKeepsInv(s, u, b);
    case Find(u, Existing(b)) => FoundKeepsInv(s, u, b);
    case Find(u, NoMemory) =>
    case Join(u) => JoinKeepsInv(s, u);
    case Leave(u) => LeaveKeepsInv(s, u);
    case _ => OtherKeepsInv(s, a);
  }

  // ------------------------------------------------------------------------------- runs

  ghost predicate Step(s: State, a: Action, s': State) {
    Enabled(s, a) && (BridgeThere(s, a) ==> s' == Apply(s, a))
  }

  ghost predicate StepAt(states: seq<State>, acts: seq<Action>, i: nat)
    requires |states| == |acts| + 1 && i < |acts|
  {
    Step(states[i], acts[i], states[i + 1])
  }

  ghost predicate IsRun(states: seq<State>, acts: seq<Action>) {
    |states| == |acts| + 1 && Init(states[0]) && forall i :: 0 <= i < |acts| ==> StepAt(states, acts, i)
  }

  lemma StepKeepsInv(s: GoodState, a: Action, s': State)
    requires Step(s, a, s')
    ensures BridgeThere(s, a) && s' == Apply(s, a) && Inv(s')
  {
    ActionKeepsInv(s, a);
  }

  lemma RunStep(states: seq<State>, acts: seq<Action>, i: nat)
    requires |states| == |acts| + 1 && 0 < i < |states| && StepAt(states, acts, i - 1)
    ensures Inv(states[i - 1]) ==> Inv(states[i])
  {
    if Inv(states[i - 1]) {
      StepKeepsInv(states[i - 1], acts[i - 1], states[i]);
    }
  }

  lemma {:induction false} RunInv(states: seq<State>, acts: seq<Action>, i: nat)
    requires IsRun(states, acts) && i < |states|
    ensures Inv(states[i])
  {
    if i == 0 {
      InitInv(states[0]);
    } else {
      RunInv(states, acts, i - 1);
      RunStep(states, acts, i);
    }
  }

  // At every lock release the counts are those of the list, at most one bridge of a name is
  // linked, and a bridge somebody refers to has a reference left.
  lemma CountsAndReferences(states: seq<State>, acts: seq<Action>, i: nat)
    requires IsRun(states, acts) && i < |states|
    ensures var s := states[i];
      && OneLinked(s)
      && (forall b :: b in s.bridges ==>
           var r := s.bridges[b].room;
           && r.users == |r.members| && r.markedUsers == MarkedIn(r.members) && Distinct(r.members)
           && s.bridges[b].refs == |Holders(s, b)| + (if s.bridges[b].linked then 1 else 0))
      && (forall u :: u in s.callers && At(s, u) != Out ==>
           At(s, u).b in s.bridges && s.bridges[At(s, u).b].refs > 0)
  {
    RunInv(states, acts, i);
    var s := states[i];
    forall b | b in s.bridges
      ensures BridgeOk(s, b)
    {
    }
    forall u | u in s.callers && At(s, u) != Out
      ensures s.bridges[At(s, u).b].refs > 0
    {
      assert BridgeOk(s, At(s, u).b);
      assert u in Holders(s, At(s, u).b);
    }
  }

  // ------------------------------------------------------------------ muting of the waiters

  ghost predicate MuteOk(s: State) {
    forall b :: b in s.bridges ==> WaitersMuted(s.bridges[b].room)
  }

  // confbridge_exec zeroes the features structure, and with it the mute flag that
  // post_join_marked has just set (apps/app_confbridge.c:725, main/bridging.c:1309-1312).
  ghost predicate Unmutes(s: State, a: Action)
    requires a.u in s.callers
  {
    a.ZeroFeatures? && s.callers[a.u].flags.waitMarked && At(s, a.u).Entered? &&
    At(s, a.u).b in s.bridges && s.bridges[At(s, a.u).b].room.markedUsers == 0
  }

  lemma FlagActionMuting(s: GoodState, a: Action)
    requires Enabled(s, a) && BridgeThere(s, a) && (a.AfterPrompt? || a.ZeroFeatures? || a.StartMuted?)
    requires WaitersMuted(s.bridges[At(s, a.u).b].room)
    ensures WaitersMuted(NewBridge(s, a).room) <==> !Unmutes(s, a)
  {
    var r := s.bridges[At(s, a.u).b].room;
    var at := MemberAt(s, a.u);
    match a
    case AfterPrompt(u) =>
      if At(s, u).Placing? {
        NoneMarked(r.members, at);
        UnmutedOk(r, u);
      }
    case ZeroFeatures(u) => ClearedWaiters(r, u, at);
    case StartMuted(u) => SetWaiters(r, u);
  }

  lemma RoomMuting(s: GoodState, a: Action)
    requires Enabled(s, a) && BridgeThere(s, a) && !a.Find?
    requires WaitersMuted(s.bridges[At(s, a.u).b].room)
    ensures WaitersMuted(NewBridge(s, a).room) <==> !Unmutes(s, a)
  {
    var r := s.bridges[At(s, a.u).b].room;
    match a
    case Join(u) => EnteredWaiters(r, u, s.callers[u].flags);
    case Leave(u) =>
      var at := MemberAt(s, u);
      LeftWaiters(r, u, at);
    case AfterPrompt(_) => FlagActionMuting(s, a);
    case ZeroFeatures(_) => FlagActionMuting(s, a);
    case StartMuted(_) => FlagActionMuting(s, a);
    case _ =>
  }

  lemma MutingStep(s: GoodState, a: Action)
    requires Enabled(s, a) && BridgeThere(s, a) && MuteOk(s)
    ensures MuteOk(Apply(s, a)) <==> !Unmutes(s, a)
  {
    if !a.Find? {
      RoomMuting(s, a);
      assert Apply(s, a).bridges[At(s, a.u).b] == NewBridge(s, a);
    }
  }

  // Waiters are muted throughout a run exactly when no waiting caller's features are zeroed while
  // no marked user is there.
  lemma {:induction false} WaitersMutedIff(states: seq<State>, acts: seq<Action>, n: nat)
    requires IsRun(states, acts) && n < |states|
    ensures (forall i :: 0 <= i <= n ==> MuteOk(states[i])) <==>
            (forall i :: 0 <= i < n ==> acts[i].u in states[i].callers && !Unmutes(states[i], acts[i]))
  {
    if n > 0 {
      WaitersMutedIff(states, acts, n - 1);
      MutingAt(states, acts, n - 1);
    }
  }

  lemma MutingAt(states: seq<State>, acts: seq<Action>, i: nat)
    requires IsRun(states, acts) && i + 1 < |states|
    ensures acts[i].u in states[i].callers
    ensures MuteOk(states[i]) ==> (MuteOk(states[i + 1]) <==> !Unmutes(states[i], acts[i]))
  {
    RunInv(states, acts, i);
    assert StepAt(states, acts, i);
    StepKeepsInv(states[i], acts[i], states[i + 1]);
    if MuteOk(states[i]) {
      MutingStep(states[i], acts[i]);
    }
  }
}
