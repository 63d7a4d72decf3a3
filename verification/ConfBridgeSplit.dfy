// When callers of one conference can end up in two bridges.
//
// The comment at apps/app_confbridge.c:401 says that the container is locked so that no duplicate
// conference is created. A caller who has found a bridge releases the container's lock before it
// takes the bridge's lock (448-453); if the last user leaves in between, the bridge is unlinked,
// the caller joins it all the same, and the next caller creates a second bridge of that name.
module ConfBridgeSplit {
  import opened Prelude
  import opened ConfBridgeRoom
  import opened ConfBridgeProtocol
  import opened ConfBridgeTheorems

  // The caller is in, or on its way into, bridge b.
  predicate Joining(pc: Pc, b: nat) {
    (pc.Pending? || OnList(pc)) && pc.b == b
  }

  ghost predicate AllLinked(s: State) {
    forall u, b :: u in s.callers && Joining(At(s, u), b) && b in s.bridges ==> s.bridges[b].linked
  }

  // ------------------------------------------------------- one bridge for one conference

  ghost predicate Comes(s: State, u: nat, b: nat) {
    u in s.callers && Joining(At(s, u), b)
  }

  ghost predicate SameConference(s: State, u: nat, v: nat)
    requires u in s.callers && v in s.callers
  {
    SameName(Truncated(s.callers[u].name, MAX_CONF_NAME), Truncated(s.callers[v].name, MAX_CONF_NAME))
  }

  // Callers of one conference are in one bridge.
  ghost predicate Together(s: State) {
    forall u, v, b, c :: Comes(s, u, b) && Comes(s, v, c) && SameConference(s, u, v) ==> b == c
  }

  // A second bridge is created for a conference somebody is in, or on the way into.
  ghost predicate Doubles(s: State, a: Action)
    requires a.u in s.callers
  {
    a.Find? && a.found.Created? && exists v, c :: Comes(s, v, c) && SameConference(s, a.u, v)
  }

  ghost predicate LinkedUsed(s: State) {
    forall b :: b in s.bridges && s.bridges[b].linked ==> exists u :: Comes(s, u, b)
  }

  lemma TogetherPut(s: State, u: nat, pc: Pc, b: nat, br: Bridge)
    requires Together(s) && u in s.callers && Concerns(pc, b)
    requires Joining(pc, b) ==> forall v, c :: Comes(s, v, c) && v != u && SameConference(s, u, v) ==> c == b
    ensures Together(Put(s, u, pc, b, br))
  {
    var s' := Put(s, u, pc, b, br);
    forall v, w, c, d | Comes(s', v, c) && Comes(s', w, d) && SameConference(s', v, w)
      ensures c == d
    {
      assert v != u ==> Comes(s, v, c);
      assert w != u ==> Comes(s, w, d);
    }
  }

  lemma UsedPut(s: State, u: nat, pc: Pc, b: nat, br: Bridge)
    requires LinkedUsed(s) && u in s.callers && Concerns(At(s, u), b)
    requires br.linked ==> Joining(pc, b) || exists v :: v != u && Comes(s, v, b)
    ensures LinkedUsed(Put(s, u, pc, b, br))
  {
    var s' := Put(s, u, pc, b, br);
    forall c | c in s'.bridges && s'.bridges[c].linked
      ensures exists v :: Comes(s', v, c)
    {
      if c == b {
        if Joining(pc, b) {
          assert Comes(s', u, c);
        } else {
          var v :| v != u && Comes(s, v, b);
          assert Comes(s', v, c);
        }
      } else {
        var v :| Comes(s, v, c);
        assert Comes(s', v, c);
      }
    }
  }

  lemma StillConcerns(s: GoodState, a: Action)
    requires Enabled(s, a) && BridgeThere(s, a) && !a.Find?
    ensures var b := Target(s, a);
      && b in s.bridges && Concerns(At(s, a.u), b) && Concerns(NewPc(s, a), b)
      && (NewBridge(s, a).linked ==> s.bridges[b].linked)
  {
  }

  // Nobody comes into a bridge except by finding it.
  lemma StillComes(s: GoodState, a: Action)
    requires Enabled(s, a) && BridgeThere(s, a) && !a.Find?
    ensures var b := Target(s, a);
      && b in s.bridges && Concerns(At(s, a.u), b) && Concerns(NewPc(s, a), b)
      && (Joining(NewPc(s, a), b) ==> Comes(s, a.u, b))
      && (NewBridge(s, a).linked ==> s.bridges[b].linked)
      && (!a.Leave? && Comes(s, a.u, b) ==> Joining(NewPc(s, a), b))
  {
    StillConcerns(s, a);
  }

  // Somebody else is on the list of a bridge that stays linked when a user leaves.
  lemma OthersStay(s: GoodState, u: nat)
    requires Enabled(s, Leave(u)) && BridgeThere(s, Leave(u)) && NewBridge(s, Leave(u)).linked
    ensures exists v :: v != u && Comes(s, v, At(s, u).b)
  {
    var b := At(s, u).b;
    var i := MemberAt(s, u);
    var ms := s.bridges[b].room.members;
    assert BridgeOk(s, b);
    assert |ms| >= 2;
    var j := if i == 0 then 1 else 0;
    assert ms[i].id != ms[j].id && Has(ms, ms[j].id);
    assert Comes(s, ms[j].id, b);
  }

  lemma UsedStep(s: GoodState, a: Action)
    requires Enabled(s, a) && BridgeThere(s, a) && LinkedUsed(s)
    ensures LinkedUsed(Apply(s, a))
  {
    if a == Find(a.u, NoMemory) {
    } else if a.Find? {
      var b, pc := Target(s, a), NewPc(s, a);
      if a.found.Existing? && !Joining(pc, b) {
        var v :| Comes(s, v, b);
      }
      UsedPut(s, a.u, pc, b, NewBridge(s, a));
    } else {
      var b, pc, br := Target(s, a), NewPc(s, a), NewBridge(s, a);
      StillComes(s, a);
      if a.Leave? {
        if br.linked {
          OthersStay(s, a.u);
        }
      } else if br.linked && !Joining(pc, b) {
        var v :| Comes(s, v, b);
        assert v != a.u;
      }
      UsedPut(s, a.u, pc, b, br);
    }
  }

  // Who comes to a linked bridge that bears a caller's name is of the caller's conference.
  lemma FoundTogether(s: GoodState, u: nat, b: nat)
    requires Enabled(s, Find(u, Existing(b))) && Together(s) && LinkedUsed(s)
    ensures forall v, c :: Comes(s, v, c) && v != u && SameConference(s, u, v) ==> c == b
  {
    var w :| Comes(s, w, b);
    assert SameConference(s, u, w);
  }

  lemma CreatedTogether(s: GoodState, u: nat, b: nat)
    requires Enabled(s, Find(u, Created(b))) && Together(s)
    ensures Together(Apply(s, Find(u, Created(b)))) <==> !Doubles(s, Find(u, Created(b)))
  {
    var a := Find(u, Created(b));
    var s' := Apply(s, a);
    if Doubles(s, a) {
      var v, c :| Comes(s, v, c) && SameConference(s, u, v);
      assert Comes(s', v, c) && Comes(s', u, b) && SameConference(s', u, v);
      assert c in s.bridges;
    } else {
      TogetherPut(s, u, NewPc(s, a), b, NewBridge(s, a));
    }
  }

  // A step parts the callers of a conference exactly when it creates a second bridge for it.
  lemma TogetherStep(s: GoodState, a: Action)
    requires Enabled(s, a) && BridgeThere(s, a) && Together(s) && LinkedUsed(s)
    ensures Together(Apply(s, a)) <==> !Doubles(s, a)
  {
    match a
    case Find(u, NoMemory) =>
    case Find(u, Created(b)) => CreatedTogether(s, u, b);
    case Find(u, Existing(b)) =>
      FoundTogether(s, u, b);
      TogetherPut(s, u, NewPc(s, a), b, NewBridge(s, a));
    case _ =>
      StillComes(s, a);
      TogetherPut(s, a.u, NewPc(s, a), Target(s, a), NewBridge(s, a));
  }

  lemma {:induction false} RunUsed(states: seq<State>, acts: seq<Action>, n: nat)
    requires IsRun(states, acts) && n < |states|
    ensures LinkedUsed(states[n])
  {
    if n > 0 {
      RunUsed(states, acts, n - 1);
      RunInv(states, acts, n - 1);
      assert StepAt(states, acts, n - 1);
      StepKeepsInv(states[n - 1], acts[n - 1], states[n]);
      UsedStep(states[n - 1], acts[n - 1]);
    }
  }

  lemma TogetherAt(states: seq<State>, acts: seq<Action>, i: nat)
    requires IsRun(states, acts) && i + 1 < |states|
    ensures acts[i].u in states[i].callers
    ensures Together(states[i]) ==> (Together(states[i + 1]) <==> !Doubles(states[i], acts[i]))
  {
    RunInv(states, acts, i);
    RunUsed(states, acts, i);
    assert StepAt(states, acts, i);
    StepKeepsInv(states[i], acts[i], states[i + 1]);
    if Together(states[i]) {
      TogetherStep(states[i], acts[i]);
    }
  }

  // Over every run: callers of one conference have been in one bridge throughout exactly when
  // nobody created a second bridge for a conference.
  lemma {:induction false} TogetherIff(states: seq<State>, acts: seq<Action>, n: nat)
    requires IsRun(states, acts) && n < |states|
    ensures (forall i :: 0 <= i <= n ==> Together(states[i])) <==>
            (forall i :: 0 <= i < n ==> acts[i].u in states[i].callers && !Doubles(states[i], acts[i]))
  {
    if n > 0 {
      TogetherIff(states, acts, n - 1);
      TogetherAt(states, acts, n - 1);
    }
  }

  // --------------------------------------------------------------- how that comes about

  // The last user leaves a bridge somebody is about to join.
  ghost predicate Strands(s: State, a: Action)
    requires a.u in s.callers
  {
    a.Leave? && At(s, a.u).Inside? && At(s, a.u).b in s.bridges && s.bridges[At(s, a.u).b].room.users == 1 &&
    exists v :: v in s.callers && At(s, v) == Pending(At(s, a.u).b)
  }

  lemma LastUser(s: GoodState, u: nat, v: nat)
    requires u in s.callers && v in s.callers && u != v && OnList(At(s, u)) && OnList(At(s, v)) && At(s, v).b == At(s, u).b
    ensures At(s, u).b in s.bridges && s.bridges[At(s, u).b].room.users >= 2
  {
    var i := MemberAt(s, u);
    var j := MemberAt(s, v);
  }

  lemma LinkPut(s: State, u: nat, pc: Pc, b: nat, br: Bridge)
    requires u in s.callers && AllLinked(s) && b in s.bridges && Concerns(pc, b)
    requires br.linked == s.bridges[b].linked
    requires (Joining(pc, b) ==> br.linked)
    ensures AllLinked(Put(s, u, pc, b, br))
  {
  }

  // Who is still coming into the bridge of a leaver after the last user has gone.
  lemma OnlyPending(s: GoodState, u: nat, v: nat)
    requires u in s.callers && v in s.callers && u != v && OnList(At(s, u)) && Joining(At(s, v), At(s, u).b)
    requires At(s, u).b in s.bridges && s.bridges[At(s, u).b].room.users <= 1
    ensures At(s, v) == Pending(At(s, u).b)
  {
    if OnList(At(s, v)) {
      LastUser(s, u, v);
    }
  }

  lemma LeaveLinks(s: GoodState, u: nat)
    requires Enabled(s, Leave(u)) && BridgeThere(s, Leave(u)) && AllLinked(s)
    ensures AllLinked(Apply(s, Leave(u))) <==> !Strands(s, Leave(u))
  {
    var a, b := Leave(u), At(s, u).b;
    var br := NewBridge(s, a);
    assert Joining(At(s, u), b);
    assert br.linked == (s.bridges[b].room.users > 1);
    if Strands(s, a) {
      var v :| v in s.callers && At(s, v) == Pending(b);
      var s' := Apply(s, a);
      assert v in s'.callers && Joining(At(s', v), b) && b in s'.bridges && !s'.bridges[b].linked;
    } else {
      forall v, c | v in s.callers && v != u && Joining(At(s, v), c) && c == b
        ensures br.linked
      {
        if !br.linked {
          OnlyPending(s, u, v);
        }
      }
    }
  }

  lemma LinkKept(s: State, a: Action)
    requires Enabled(s, a) && BridgeThere(s, a) && !a.Leave? && (a.Find? ==> a.found.Existing?)
    ensures Target(s, a) in s.bridges && Concerns(NewPc(s, a), Target(s, a))
    ensures NewBridge(s, a).linked == s.bridges[Target(s, a)].linked
    ensures Joining(NewPc(s, a), Target(s, a)) ==>
      s.bridges[Target(s, a)].linked || Joining(At(s, a.u), Target(s, a))
  {
  }

  lemma LinkStep(s: GoodState, a: Action)
    requires Enabled(s, a) && BridgeThere(s, a) && AllLinked(s)
    ensures AllLinked(Apply(s, a)) <==> !Strands(s, a)
  {
    match a
    case Leave(u) => LeaveLinks(s, u);
    case Find(u, NoMemory) =>
    case Find(u, Created(b)) =>
    case _ =>
      LinkKept(s, a);
      LinkPut(s, a.u, NewPc(s, a), Target(s, a), NewBridge(s, a));
  }

  // A second bridge is created only while some joined bridge is no longer linked.
  lemma DoublesUnlinked(s: GoodState, a: Action)
    requires Enabled(s, a) && Doubles(s, a)
    ensures !AllLinked(s)
  {
    var v, c :| Comes(s, v, c) && SameConference(s, a.u, v);
    assert !Matches(s, c, s.callers[a.u].name);
  }

  lemma LinkAt(states: seq<State>, acts: seq<Action>, i: nat)
    requires IsRun(states, acts) && i + 1 < |states|
    ensures acts[i].u in states[i].callers
    ensures AllLinked(states[i]) ==> (AllLinked(states[i + 1]) <==> !Strands(states[i], acts[i]))
  {
    RunInv(states, acts, i);
    assert StepAt(states, acts, i);
    StepKeepsInv(states[i], acts[i], states[i + 1]);
    if AllLinked(states[i]) {
      LinkStep(states[i], acts[i]);
    }
  }

  // Over every run: all joined bridges have stayed linked exactly when no last user left a bridge
  // somebody was about to join.
  lemma {:induction false} AllLinkedIff(states: seq<State>, acts: seq<Action>, n: nat)
    requires IsRun(states, acts) && n < |states|
    ensures (forall i :: 0 <= i <= n ==> AllLinked(states[i])) <==>
            (forall i :: 0 <= i < n ==> acts[i].u in states[i].callers && !Strands(states[i], acts[i]))
  {
    if n > 0 {
      AllLinkedIff(states, acts, n - 1);
      LinkAt(states, acts, n - 1);
    }
  }

  // So before a second bridge is created somebody was stranded.
  lemma DoublesAfterStrands(states: seq<State>, acts: seq<Action>, n: nat)
    requires IsRun(states, acts) && n < |acts| && acts[n].u in states[n].callers && Doubles(states[n], acts[n])
    ensures exists i :: 0 <= i < n && acts[i].u in states[i].callers && Strands(states[i], acts[i])
  {
    RunInv(states, acts, n);
    assert StepAt(states, acts, n);
    DoublesUnlinked(states[n], acts[n]);
    forall i | 0 <= i < n
      ensures acts[i].u in states[i].callers
    {
      LinkAt(states, acts, i);
    }
    AllLinkedIff(states, acts, n);
  }

  // ------------------------------------------------------------------- a run that splits

  const Quiet := Flags(false, false, false, false, false, false, true)

  // Callers 1, 2 and 3 and the bridges at each step.
  function Scene(p: Pc, q: Pc, r: Pc, bridges: map<nat, Bridge>): State {
    State(map[1 := Caller("c", Quiet, p), 2 := Caller("c", Quiet, q), 3 := Caller("c", Quiet, r)], bridges)
  }

  function Only(linked: bool, refs: int, members: seq<Member>): Bridge {
    Bridge("c", false, linked, refs, Room(|members|, 0, members))
  }

  const First := [Member(1, Quiet, false)]
  const Second := [Member(2, Quiet, false)]
  const Third := [Member(3, Quiet, false)]

  const Empty := Scene(Out, Out, Out, map[])
  const Found := Scene(Pending(0), Out, Out, map[0 := Only(true, 2, [])])
  const Alone := Scene(Inside(0), Out, Out, map[0 := Only(true, 2, First)])
  const Coming := Scene(Inside(0), Pending(0), Out, map[0 := Only(true, 3, First)])
  const Stranded := Scene(Leaving(0), Pending(0), Out, map[0 := Only(false, 2, [])])
  const Unlinked := Scene(Leaving(0), Entered(0), Out, map[0 := Only(false, 2, Second)])
  const Again := Scene(Leaving(0), Entered(0), Pending(1), map[0 := Only(false, 2, Second), 1 := Only(true, 2, [])])
  const Split := Scene(Leaving(0), Entered(0), Entered(1), map[0 := Only(false, 2, Second), 1 := Only(true, 2, Third)])

  const In := Scene(Entered(0), Out, Out, map[0 := Only(true, 2, First)])
  const Setup := Scene(Zeroed(0), Out, Out, map[0 := Only(true, 2, First)])

  lemma FirstAlone()
    ensures Step(Empty, Find(1, Created(0)), Found) && Step(Found, Join(1), In)
  {
    assert [] + First == First;
  }

  lemma FirstInside()
    ensures Step(In, ZeroFeatures(1), Setup) && Step(Setup, StartMuted(1), Alone)
  {
    assert WithMute(First, 1, false) == First;
    assert Apply(In, ZeroFeatures(1)).bridges == Setup.bridges;
  }

  lemma SecondComes()
    ensures Step(Alone, Find(2, Existing(0)), Coming)
    ensures Step(Coming, Leave(1), Stranded)
  {
    assert Without(First, 1) == [];
    assert Apply(Coming, Leave(1)).bridges == Stranded.bridges;
  }

  lemma SecondStranded()
    ensures Step(Stranded, Join(2), Unlinked)
  {
    assert [] + Second == Second;
    assert Apply(Stranded, Join(2)).bridges == Unlinked.bridges;
  }

  lemma ThirdElsewhere()
    ensures Step(Unlinked, Find(3, Created(1)), Again)
    ensures Step(Again, Join(3), Split)
  {
    assert [] + Third == Third;
    assert Apply(Again, Join(3)).bridges == Split.bridges;
  }

  // A run that ends in a given state.
  ghost predicate RunTo(states: seq<State>, acts: seq<Action>, s: State) {
    IsRun(states, acts) && states[|acts|] == s
  }

  lemma Extended(states: seq<State>, acts: seq<Action>, s: State, a: Action, s': State)
    requires RunTo(states, acts, s) && Step(s, a, s')
    ensures RunTo(states + [s'], acts + [a], s')
  {
    forall i | 0 <= i <= |acts|
      ensures StepAt(states + [s'], acts + [a], i)
    {
      if i < |acts| {
        assert StepAt(states, acts, i);
      }
    }
  }

  ghost predicate Reachable(s: State) {
    exists states, acts :: RunTo(states, acts, s)
  }

  lemma StepReachable(s: State, a: Action, s': State)
    requires Reachable(s) && Step(s, a, s')
    ensures Reachable(s')
  {
    var states, acts :| RunTo(states, acts, s);
    Extended(states, acts, s, a, s');
  }

  lemma StartReachable()
    ensures Reachable(Empty)
  {
    assert RunTo([Empty], [], Empty);
  }

  lemma ComingReachable()
    ensures Reachable(Stranded)
  {
    StartReachable();
    FirstAlone();
    FirstInside();
    StepReachable(Empty, Find(1, Created(0)), Found);
    StepReachable(Found, Join(1), In);
    StepReachable(In, ZeroFeatures(1), Setup);
    StepReachable(Setup, StartMuted(1), Alone);
    SecondComes();
    StepReachable(Alone, Find(2, Existing(0)), Coming);
    StepReachable(Coming, Leave(1), Stranded);
  }

  // Two callers of one conference on the lists of two different bridges.
  lemma SplitReachable()
    ensures Reachable(Split) && !Together(Split)
    ensures Split.callers[2].name == Split.callers[3].name
    ensures At(Split, 2) == Entered(0) && At(Split, 3) == Entered(1)
  {
    ComingReachable();
    SecondStranded();
    StepReachable(Stranded, Join(2), Unlinked);
    ThirdElsewhere();
    StepReachable(Unlinked, Find(3, Created(1)), Again);
    StepReachable(Again, Join(3), Split);
    assert Comes(Split, 2, 0) && Comes(Split, 3, 1) && SameConference(Split, 2, 3);
  }
}
