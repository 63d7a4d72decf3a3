// Any number of callers joining and leaving conference bridges (apps/app_confbridge.c).
//
// Every action is what one caller does in one lock-delimited section, or between two of them
// without a lock. The reference counts are those of main/astobj2.c.
module ConfBridgeProtocol {
  import opened Prelude
  import opened ConfBridgeRoom

  const MAX_CONF_NAME := 32

  // Where a caller is; every state but Out refers to a bridge and holds a reference to it.
  datatype Pc =
    | Out
    | Refused(b: nat)     // found it locked; reference still to be dropped
    | Pending(b: nat)     // wants the bridge's lock to join
    | Placing(b: nat)     // first marked user, prompt playing, the unmute still to come
    | Prompted(b: nat)    // joining, another prompt playing
    | Entered(b: nat)     // join_conference_bridge returned
    | Zeroed(b: nat)      // features structure zeroed by tris_bridge_features_init
    | Inside(b: nat)      // in the bridge
    | Leaving(b: nat)     // left the list; reference still to be dropped

  datatype Caller = Caller(name: string, flags: Flags, pc: Pc)

  datatype Bridge = Bridge(name: string, locked: bool, linked: bool, refs: int, room: Room)

  datatype State = State(callers: map<nat, Caller>, bridges: map<nat, Bridge>)

  // The result of the locked section that looks a bridge up and creates one if need be.
  datatype Lookup = Existing(b: nat) | Created(b: nat) | NoMemory

  datatype Action =
    | Find(u: nat, found: Lookup)
    | GiveUp(u: nat)
    | Join(u: nat)
    | AfterPrompt(u: nat)
    | ZeroFeatures(u: nat)
    | StartMuted(u: nat)
    | ToggleLock(u: nat)
    | Leave(u: nat)
    | Unref(u: nat)

  function At(s: State, u: nat): Pc
    requires u in s.callers
  {
    s.callers[u].pc
  }

  predicate OnList(pc: Pc) {
    pc.Placing? || pc.Prompted? || pc.Entered? || pc.Zeroed? || pc.Inside?
  }

  ghost predicate Matches(s: State, b: nat, name: string) {
    b in s.bridges && s.bridges[b].linked && SameName(s.bridges[b].name, Truncated(name, MAX_CONF_NAME))
  }

  ghost predicate Enabled(s: State, a: Action) {
    && a.u in s.callers
    && var c := s.callers[a.u];
      match a
      case Find(u, found) =>
        c.pc == Out &&
        (match found
         case Existing(b) => Matches(s, b, c.name)
         case Created(b) => b !in s.bridges && forall k :: !Matches(s, k, c.name)
         case NoMemory => forall k :: !Matches(s, k, c.name))
      case GiveUp(u) => c.pc.Refused?
      case Join(u) => c.pc.Pending?
      case AfterPrompt(u) => c.pc.Placing? || c.pc.Prompted?
      case ZeroFeatures(u) => c.pc.Entered?
      case StartMuted(u) => c.pc.Zeroed?
      case ToggleLock(u) => c.pc.Inside? && c.flags.admin
      case Leave(u) => c.pc.Inside?
      case Unref(u) => c.pc.Leaving?
  }

  // Caller u moves and bridge b changes.
  function Put(s: State, u: nat, pc: Pc, b: nat, br: Bridge): State
    requires u in s.callers
  {
    State(s.callers[u := s.callers[u].(pc := pc)], s.bridges[b := br])
  }

  function AfterNext(n: Next, b: nat): Pc {
    match n
    case PlaceInto => Placing(b)
    case WaitLeader => Prompted(b)
    case OtherPrompt => Prompted(b)
    case Joined => Entered(b)
  }

  // The bridge an action works on exists.
  ghost predicate BridgeThere(s: State, a: Action) {
    && Enabled(s, a)
    && (!a.Find? ==> At(s, a.u).b in s.bridges)
    && (a.Leave? ==>
         var r := s.bridges[At(s, a.u).b].room;
         r.users > 0 && (s.callers[a.u].flags.marked ==> r.markedUsers > 0))
  }

  // The bridge an action concerns.
  function Target(s: State, a: Action): nat
    requires a.u in s.callers && (a.Find? ==> !a.found.NoMemory?) && (!a.Find? ==> At(s, a.u) != Out)
  {
    if a.Find? then a.found.b else At(s, a.u).b
  }

  function NewPc(s: State, a: Action): Pc
    requires BridgeThere(s, a) && a != Find(a.u, NoMemory)
  {
    var c, b := s.callers[a.u], Target(s, a);
    match a
    case Find(_, found) =>
      if found.Existing? && s.bridges[b].locked && !c.flags.admin then Refused(b) else Pending(b)
    case GiveUp(_) => Out
    case Join(u) => AfterNext(NextAfterEntering(NewBridge(s, a).room, c.flags), b)
    case AfterPrompt(_) => Entered(b)
    case ZeroFeatures(_) => Zeroed(b)
    case StartMuted(_) => Inside(b)
    case ToggleLock(_) => Inside(b)
    case Leave(_) => Leaving(b)
    case Unref(_) => Out
  }

  function NewBridge(s: State, a: Action): Bridge
    requires BridgeThere(s, a) && a != Find(a.u, NoMemory)
  {
    if a.Find? && a.found.Created? then
      // one reference for the caller, one for the container
      Bridge(Truncated(s.callers[a.u].name, MAX_CONF_NAME), false, true, 2, EmptyRoom)
    else
      ChangedBridge(s, a, s.bridges[Target(s, a)])
  }

  function ChangedBridge(s: State, a: Action, br: Bridge): Bridge
    requires a.u in s.callers
    requires a.Leave? ==> br.room.users > 0 && (s.callers[a.u].flags.marked ==> br.room.markedUsers > 0)
  {
    var c := s.callers[a.u];
    match a
    case Find(_, _) => br.(refs := br.refs + 1)
    case GiveUp(_) => br.(refs := br.refs - 1)
    case Join(u) => br.(room := ConfBridgeRoom.Entered(br.room, u, c.flags))
    case AfterPrompt(u) => if c.pc.Placing? then br.(room := UnmutedOthers(br.room, u)) else br
    case ZeroFeatures(u) => br.(room := SetMute(br.room, u, false))
    case StartMuted(u) => if c.flags.startMuted then br.(room := SetMute(br.room, u, true)) else br
    case ToggleLock(_) => br.(locked := !br.locked)
    case Leave(u) =>
      var left := Left(br.room, u, c.flags);
      // the last user out unlinks the bridge, which drops the container's reference
      br.(room := left, linked := br.linked && left.users > 0,
          refs := if left.users == 0 && br.linked then br.refs - 1 else br.refs)
    case Unref(_) => br.(refs := br.refs - 1)
  }

  function Apply(s: State, a: Action): State
    requires BridgeThere(s, a)
  {
    if a == Find(a.u, NoMemory) then s else Put(s, a.u, NewPc(s, a), Target(s, a), NewBridge(s, a))
  }

  ghost predicate Init(s: State) {
    s.bridges == map[] && forall u :: u in s.callers ==> s.callers[u].pc == Out
  }

  // ------------------------------------------------------------------------- the invariant

  ghost function Holders(s: State, b: nat): set<nat> {
    set u | u in s.callers && s.callers[u].pc != Out && s.callers[u].pc.b == b
  }

  ghost predicate RefsOk(s: State, b: nat)
    requires b in s.bridges
  {
    s.bridges[b].refs == |Holders(s, b)| + if s.bridges[b].linked then 1 else 0
  }

  ghost predicate FlagsMatch(s: State, m: Member) {
    m.id in s.callers && m.flags == s.callers[m.id].flags
  }

  ghost predicate ListOk(s: State, b: nat)
    requires b in s.bridges
  {
    var ms := s.bridges[b].room.members;
    && (forall u :: Has(ms, u) <==> u in s.callers && OnList(At(s, u)) && At(s, u).b == b)
    && (forall i :: 0 <= i < |ms| ==> FlagsMatch(s, ms[i]))
  }

  ghost predicate BridgeOk(s: State, b: nat)
    requires b in s.bridges
  {
    RefsOk(s, b) && RoomOk(s.bridges[b].room) && ListOk(s, b)
  }

  ghost predicate OneLinked(s: State) {
    forall a, b :: a in s.bridges && b in s.bridges && a != b && s.bridges[a].linked && s.bridges[b].linked
      ==> !SameName(s.bridges[a].name, s.bridges[b].name)
  }

  ghost predicate Named(s: State) {
    forall u :: u in s.callers && At(s, u) != Out ==>
      At(s, u).b in s.bridges
      && SameName(s.bridges[At(s, u).b].name, Truncated(s.callers[u].name, MAX_CONF_NAME))
      && (At(s, u).Placing? ==> s.callers[u].flags.marked)
  }

  ghost predicate Inv(s: State) {
    && OneLinked(s) && Named(s)
    && forall b :: b in s.bridges ==> BridgeOk(s, b)
  }

  type GoodState = s: State | Inv(s) ghost witness State(map[], map[])

  lemma InitInv(s: State)
    requires Init(s)
    ensures Inv(s)
  {
  }

  predicate Concerns(pc: Pc, b: nat) { pc == Out || pc.b == b }

  lemma PutHoldersSet(s: State, u: nat, pc: Pc, b: nat, br: Bridge)
    requires u in s.callers && Concerns(At(s, u), b) && Concerns(pc, b)
    ensures Holders(Put(s, u, pc, b, br), b) == if pc != Out then Holders(s, b) + {u} else Holders(s, b) - {u}
    ensures u in Holders(s, b) <==> At(s, u) != Out
  {
  }

  lemma PutHolders(s: State, u: nat, pc: Pc, b: nat, br: Bridge)
    requires u in s.callers && Concerns(At(s, u), b) && Concerns(pc, b)
    ensures |Holders(Put(s, u, pc, b, br), b)| ==
      |Holders(s, b)| + (if pc != Out then 1 else 0) - (if At(s, u) != Out then 1 else 0)
  {
    PutHoldersSet(s, u, pc, b, br);
    WithOrWithout(Holders(s, b), u, pc != Out);
  }

  lemma WithOrWithout(t: set<nat>, u: nat, with: bool)
    ensures |if with then t + {u} else t - {u}| == |t| + (if with then 1 else 0) - (if u in t then 1 else 0)
  {
    if with && u in t {
      assert t + {u} == t;
    } else if !with && u !in t {
      assert t - {u} == t;
    }
  }

  lemma OtherHolders(s: State, u: nat, pc: Pc, b: nat, br: Bridge, o: nat)
    requires u in s.callers && Concerns(At(s, u), b) && Concerns(pc, b) && o != b
    ensures Holders(Put(s, u, pc, b, br), o) == Holders(s, o)
  {
  }

  lemma PutOthers(s: State, u: nat, pc: Pc, b: nat, br: Bridge, o: nat)
    requires u in s.callers && Concerns(At(s, u), b) && Concerns(pc, b) && o in s.bridges && o != b
    requires BridgeOk(s, o)
    ensures BridgeOk(Put(s, u, pc, b, br), o)
  {
    OtherHolders(s, u, pc, b, br, o);
    assert forall i :: 0 <= i < |s.bridges[o].room.members| ==> FlagsMatch(s, s.bridges[o].room.members[i]);
  }

  // What the new bridge must satisfy.
  ghost predicate Follows(s: State, u: nat, pc: Pc, b: nat, br: Bridge)
    requires u in s.callers && b in s.bridges
  {
    var was := s.bridges[b];
    && br.name == was.name && (br.linked ==> was.linked)
    && br.refs == was.refs - (if was.linked then 1 else 0) + (if br.linked then 1 else 0)
                  + (if pc != Out then 1 else 0) - (if At(s, u) != Out then 1 else 0)
    && RoomOk(br.room)
    && (forall x :: Has(br.room.members, x) <==> if x == u then OnList(pc) else Has(was.room.members, x))
    && (forall i :: 0 <= i < |br.room.members| ==> FlagsMatch(s, br.room.members[i]))
  }

  lemma PutListOk(s: GoodState, u: nat, pc: Pc, b: nat, br: Bridge)
    requires u in s.callers && Concerns(At(s, u), b) && Concerns(pc, b) && b in s.bridges
    requires Follows(s, u, pc, b, br)
    ensures ListOk(Put(s, u, pc, b, br), b)
  {
    assert ListOk(s, b) by {
      assert BridgeOk(s, b);
    }
    var s' := Put(s, u, pc, b, br);
    forall x
      ensures Has(br.room.members, x) <==> x in s'.callers && OnList(At(s', x)) && At(s', x).b == b
    {
      assert x != u ==> (x in s'.callers <==> x in s.callers) && (x in s.callers ==> At(s', x) == At(s, x));
    }
  }

  lemma PutBridgeOk(s: GoodState, u: nat, pc: Pc, b: nat, br: Bridge)
    requires u in s.callers && Concerns(At(s, u), b) && Concerns(pc, b) && b in s.bridges
    requires Follows(s, u, pc, b, br)
    ensures BridgeOk(Put(s, u, pc, b, br), b)
  {
    assert RefsOk(s, b) by {
      assert BridgeOk(s, b);
    }
    PutHolders(s, u, pc, b, br);
    PutListOk(s, u, pc, b, br);
  }

  lemma PutNames(s: GoodState, u: nat, pc: Pc, b: nat, br: Bridge)
    requires u in s.callers && Concerns(At(s, u), b) && Concerns(pc, b) && b in s.bridges
    requires br.name == s.bridges[b].name && (br.linked ==> s.bridges[b].linked)
    requires At(s, u) == Out && pc != Out ==> SameName(br.name, Truncated(s.callers[u].name, MAX_CONF_NAME))
    requires pc.Placing? ==> s.callers[u].flags.marked
    ensures OneLinked(Put(s, u, pc, b, br)) && Named(Put(s, u, pc, b, br))
  {
  }

  lemma PutKeepsInv(s: GoodState, u: nat, pc: Pc, b: nat, br: Bridge)
    requires u in s.callers && Concerns(At(s, u), b) && Concerns(pc, b) && b in s.bridges
    requires Follows(s, u, pc, b, br)
    requires At(s, u) == Out && pc != Out ==> SameName(br.name, Truncated(s.callers[u].name, MAX_CONF_NAME))
    requires pc.Placing? ==> s.callers[u].flags.marked
    ensures Inv(Put(s, u, pc, b, br))
  {
    PutNames(s, u, pc, b, br);
    PutBridgeOk(s, u, pc, b, br);
    forall o | o in s.bridges && o != b
      ensures BridgeOk(Put(s, u, pc, b, br), o)
    {
      PutOthers(s, u, pc, b, br, o);
    }
  }
}
