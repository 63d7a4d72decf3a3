// The part of a conference bridge its own lock protects (apps/app_confbridge.c): the two counts
// and the list of users with their mute flags.
//
// The functions say what each lock-delimited section does to it; the class does the same in place.
module ConfBridgeRoom {
  import opened Prelude

  datatype Flags = Flags(
    admin: bool, startMuted: bool, announceCount: bool, marked: bool, waitMarked: bool,
    noOnlyPerson: bool, quiet: bool)

  datatype Member = Member(id: nat, flags: Flags, mute: bool)

  datatype Room = Room(users: nat, markedUsers: nat, members: seq<Member>)

  const EmptyRoom := Room(0, 0, [])

  function MarkedIn(ms: seq<Member>): nat {
    if ms == [] then 0 else (if ms[0].flags.marked then 1 else 0) + MarkedIn(ms[1..])
  }

  ghost predicate Distinct(ms: seq<Member>) {
    forall i, j :: 0 <= i < j < |ms| ==> ms[i].id != ms[j].id
  }

  ghost predicate Has(ms: seq<Member>, id: nat) {
    exists i :: 0 <= i < |ms| && ms[i].id == id
  }

  ghost predicate RoomOk(r: Room) {
    r.users == |r.members| && r.markedUsers == MarkedIn(r.members) && Distinct(r.members)
  }

  // Everybody who waits for a marked user is muted while there is none.
  ghost predicate WaitersMuted(r: Room) {
    r.markedUsers == 0 ==> forall i :: 0 <= i < |r.members| && r.members[i].flags.waitMarked ==> r.members[i].mute
  }

  function MutedExcept(ms: seq<Member>, id: nat, mute: bool): (r: seq<Member>)
    ensures |r| == |ms|
  {
    seq(|ms|, i requires 0 <= i < |ms| => if ms[i].id == id then ms[i] else ms[i].(mute := mute))
  }

  function AllMuted(ms: seq<Member>): (r: seq<Member>)
    ensures |r| == |ms|
  {
    seq(|ms|, i requires 0 <= i < |ms| => ms[i].(mute := true))
  }

  function WithMute(ms: seq<Member>, id: nat, mute: bool): (r: seq<Member>)
    ensures |r| == |ms|
  {
    seq(|ms|, i requires 0 <= i < |ms| => if ms[i].id == id then ms[i].(mute := mute) else ms[i])
  }

  function Without(ms: seq<Member>, id: nat): seq<Member> {
    if ms == [] then [] else if ms[0].id == id then ms[1..] else [ms[0]] + Without(ms[1..], id)
  }

  // What the caller does next once the section has released the lock.
  datatype Next = PlaceInto | WaitLeader | OtherPrompt | Joined

  function NextAfterEntering(r: Room, f: Flags): Next {
    if f.marked then
      if r.markedUsers >= 2 || f.quiet then Joined else PlaceInto
    else if f.waitMarked then
      if r.markedUsers > 0 || f.quiet then Joined else WaitLeader
    else if r.users == 1 then
      if f.quiet || f.noOnlyPerson then Joined else OtherPrompt
    else if f.announceCount then OtherPrompt else Joined
  }

  // join_conference_bridge from the list insertion to the first release of the lock.
  function Entered(r: Room, id: nat, f: Flags): Room {
    var counted := Room(r.users + 1, if f.marked then r.markedUsers + 1 else r.markedUsers,
                        r.members + [Member(id, f, false)]);
    if f.marked then
      if counted.markedUsers < 2 && f.quiet then UnmutedOthers(counted, id) else counted
    else if f.waitMarked && counted.markedUsers == 0 then
      counted.(members := WithMute(counted.members, id, true))
    else counted
  }

  // post_join_marked after the prompt.
  function UnmutedOthers(r: Room, id: nat): Room {
    r.(members := MutedExcept(r.members, id, false))
  }

  // leave_conference_bridge from the counts to the first release of the lock.
  function Left(r: Room, id: nat, f: Flags): Room
    requires r.users > 0 && (f.marked ==> r.markedUsers > 0)
  {
    var left := Room(r.users - 1, if f.marked then r.markedUsers - 1 else r.markedUsers, Without(r.members, id));
    if left.users > 0 && f.marked && left.markedUsers == 0 then left.(members := AllMuted(left.members)) else left
  }

  // ------------------------------------------------------------------------------- lemmas

  lemma {:induction false} MarkedInAppend(ms: seq<Member>, m: Member)
    ensures MarkedIn(ms + [m]) == MarkedIn(ms) + if m.flags.marked then 1 else 0
  {
    if ms == [] {
      assert ms + [m] == [m];
    } else {
      assert (ms + [m])[1..] == ms[1..] + [m];
      MarkedInAppend(ms[1..], m);
    }
  }

  // The same users in the same order, whatever their mute flags.
  ghost predicate SameUsers(a: seq<Member>, b: seq<Member>) {
    |a| == |b| && forall i :: 0 <= i < |a| ==> a[i].id == b[i].id && a[i].flags == b[i].flags
  }

  lemma {:induction false} SameMarked(a: seq<Member>, b: seq<Member>)
    requires SameUsers(a, b)
    ensures MarkedIn(a) == MarkedIn(b)
  {
    if a != [] {
      SameMarked(a[1..], b[1..]);
    }
  }

  lemma SameUsersOk(a: seq<Member>, b: seq<Member>)
    requires SameUsers(a, b)
    ensures MarkedIn(a) == MarkedIn(b) && (Distinct(a) <==> Distinct(b))
    ensures forall x :: Has(a, x) <==> Has(b, x)
  {
    SameMarked(a, b);
    forall x
      ensures Has(a, x) <==> Has(b, x)
    {
      if Has(a, x) {
        var i :| 0 <= i < |a| && a[i].id == x;
        assert b[i].id == x;
      }
      if Has(b, x) {
        var i :| 0 <= i < |b| && b[i].id == x;
        assert a[i].id == x;
      }
    }
  }

  lemma {:induction false} NoneMarked(ms: seq<Member>, i: nat)
    requires i < |ms| && ms[i].flags.marked
    ensures MarkedIn(ms) > 0
  {
    if i > 0 {
      NoneMarked(ms[1..], i - 1);
    }
  }

  lemma {:induction false} WithoutAt(ms: seq<Member>, id: nat, i: nat)
    requires Distinct(ms) && i < |ms| && ms[i].id == id
    ensures Without(ms, id) == ms[..i] + ms[i + 1..]
  {
    if i > 0 {
      assert ms[1..][i - 1] == ms[i];
      WithoutAt(ms[1..], id, i - 1);
      assert ms[1..][..i - 1] == ms[1..i] && ms[1..][i..] == ms[i + 1..];
      assert [ms[0]] + ms[1..i] == ms[..i];
    }
  }

  lemma {:induction false} MarkedWithout(ms: seq<Member>, id: nat, i: nat)
    requires Distinct(ms) && i < |ms| && ms[i].id == id
    ensures MarkedIn(ms) == MarkedIn(Without(ms, id)) + if ms[i].flags.marked then 1 else 0
  {
    if i > 0 {
      assert ms[1..][i - 1] == ms[i];
      MarkedWithout(ms[1..], id, i - 1);
      assert Without(ms, id)[1..] == Without(ms[1..], id);
    }
  }

  lemma WithoutOne(ms: seq<Member>, id: nat, i: nat)
    requires Distinct(ms) && i < |ms| && ms[i].id == id
    ensures Without(ms, id) == ms[..i] + ms[i + 1..]
    ensures Distinct(Without(ms, id))
    ensures MarkedIn(ms) == MarkedIn(Without(ms, id)) + if ms[i].flags.marked then 1 else 0
  {
    WithoutAt(ms, id, i);
    MarkedWithout(ms, id, i);
  }

  lemma HasAppended(ms: seq<Member>, m: Member, x: nat)
    ensures Has(ms + [m], x) <==> Has(ms, x) || x == m.id
  {
    if Has(ms, x) {
      var i :| 0 <= i < |ms| && ms[i].id == x;
      assert (ms + [m])[i].id == x;
    }
    assert (ms + [m])[|ms|] == m;
  }

  lemma HasWithout(ms: seq<Member>, id: nat, i: nat, x: nat)
    requires Distinct(ms) && i < |ms| && ms[i].id == id
    ensures Has(Without(ms, id), x) <==> Has(ms, x) && x != id
  {
    WithoutOne(ms, id, i);
    var w := Without(ms, id);
    if Has(ms, x) && x != id {
      var k :| 0 <= k < |ms| && ms[k].id == x;
      assert w[if k < i then k else k - 1].id == x;
    }
    if Has(w, x) {
      var k :| 0 <= k < |w| && w[k].id == x;
      assert ms[if k < i then k else k + 1].id == x;
    }
  }

  lemma EnteredOk(r: Room, id: nat, f: Flags)
    requires RoomOk(r) && !Has(r.members, id)
    ensures RoomOk(Entered(r, id, f))
    ensures forall x :: Has(Entered(r, id, f).members, x) <==> Has(r.members, x) || x == id
  {
    var m := Member(id, f, false);
    forall x ensures Has(r.members + [m], x) <==> Has(r.members, x) || x == id {
      HasAppended(r.members, m, x);
    }
    MarkedInAppend(r.members, m);
    assert Distinct(r.members + [m]) by {
      assert forall i :: 0 <= i < |r.members| ==> r.members[i].id != id;
    }
    SameUsersOk(r.members + [m], Entered(r, id, f).members);
  }

  lemma EnteredWaiters(r: Room, id: nat, f: Flags)
    requires WaitersMuted(r)
    ensures WaitersMuted(Entered(r, id, f))
  {
  }

  lemma UnmutedOk(r: Room, id: nat)
    requires RoomOk(r)
    ensures RoomOk(UnmutedOthers(r, id))
    ensures r.markedUsers > 0 ==> WaitersMuted(UnmutedOthers(r, id))
    ensures forall x :: Has(UnmutedOthers(r, id).members, x) <==> Has(r.members, x)
  {
    SameUsersOk(r.members, UnmutedOthers(r, id).members);
  }

  lemma LeftOk(r: Room, id: nat, i: nat)
    requires RoomOk(r) && i < |r.members| && r.members[i].id == id
    ensures r.users > 0 && (r.members[i].flags.marked ==> r.markedUsers > 0)
    ensures var l := Left(r, id, r.members[i].flags);
      RoomOk(l) && (forall x :: Has(l.members, x) <==> Has(r.members, x) && x != id)
  {
    if r.members[i].flags.marked {
      NoneMarked(r.members, i);
    }
    WithoutOne(r.members, id, i);
    var w := Without(r.members, id);
    forall x ensures Has(w, x) <==> Has(r.members, x) && x != id {
      HasWithout(r.members, id, i, x);
    }
    SameUsersOk(w, Left(r, id, r.members[i].flags).members);
  }

  function SetMute(r: Room, u: nat, mute: bool): Room {
    r.(members := WithMute(r.members, u, mute))
  }

  // Clearing a member's mute flag is harmless unless the member waits and nobody marked is there.
  lemma ClearedWaiters(r: Room, id: nat, i: nat)
    requires RoomOk(r) && i < |r.members| && r.members[i].id == id && WaitersMuted(r)
    ensures WaitersMuted(SetMute(r, id, false)) <==> !(r.members[i].flags.waitMarked && r.markedUsers == 0)
  {
    var c := SetMute(r, id, false);
    assert !c.members[i].mute;
    forall k | 0 <= k < |c.members| && k != i
      ensures c.members[k] == r.members[k]
    {
    }
  }

  lemma SetWaiters(r: Room, id: nat)
    requires WaitersMuted(r)
    ensures WaitersMuted(SetMute(r, id, true))
  {
  }

  lemma LeftWaiters(r: Room, id: nat, i: nat)
    requires RoomOk(r) && i < |r.members| && r.members[i].id == id && WaitersMuted(r)
    requires r.users > 0 && (r.members[i].flags.marked ==> r.markedUsers > 0)
    ensures WaitersMuted(Left(r, id, r.members[i].flags))
  {
    WithoutOne(r.members, id, i);
  }

  // ---------------------------------------------------------------------- the code in place

  class User {
    const id: nat
    const flags: Flags
    var mute: bool

    constructor (id: nat, flags: Flags)
      ensures this.id == id && this.flags == flags && !mute
    {
      this.id, this.flags, mute := id, flags, false;
    }
  }

  class ConferenceBridge {
    var users: nat
    var markedUsers: nat
    var usersList: seq<User>

    constructor ()
      ensures View() == EmptyRoom && usersList == []
    {
      users, markedUsers, usersList := 0, 0, [];
    }

    ghost function View(): (r: Room)
      reads this, usersList
    {
      Room(users, markedUsers, Members(usersList))
    }

    static ghost function Members(us: seq<User>): (ms: seq<Member>)
      reads us
      ensures |ms| == |us|
    {
      seq(|us|, i requires 0 <= i < |us| reads us => Member(us[i].id, us[i].flags, us[i].mute))
    }

    method MuteAllBut(u: User, mute: bool)
      requires u in usersList && Distinct(View().members)
      modifies usersList
      ensures View() == old(View()).(members := MutedExcept(old(View()).members, u.id, mute))
    {
      assert forall k :: 0 <= k < |usersList| ==> View().members[k].id == usersList[k].id;
      for i := 0 to |usersList|
        modifies usersList
        invariant forall k :: 0 <= k < |usersList| ==>
          usersList[k].mute == if k < i && usersList[k] != u then mute else old(usersList[k].mute)
      {
        if usersList[i] != u {
          usersList[i].mute := mute;
        }
      }
    }

    // join_conference_bridge up to the first release of the lock.
    method Enter(u: User) returns (next: Next)
      requires !Has(View().members, u.id) && Distinct(View().members) && !u.mute && u !in usersList
      modifies this, usersList, u
      ensures View() == Entered(old(View()), u.id, u.flags)
      ensures usersList == old(usersList) + [u]
      ensures next == NextAfterEntering(View(), u.flags)
    {
      ghost var before := View();
      usersList := usersList + [u];
      users := users + 1;
      if u.flags.marked {
        markedUsers := markedUsers + 1;
      }
      ghost var counted := View();
      assert counted.members == before.members + [Member(u.id, u.flags, false)];
      assert Distinct(counted.members) by {
        assert forall i :: 0 <= i < |before.members| ==> before.members[i].id != u.id;
      }
      next := NextAfterEntering(Room(users, markedUsers, []), u.flags);
      if u.flags.marked {
        if markedUsers < 2 && u.flags.quiet {
          MuteAllBut(u, false);
        }
      } else if u.flags.waitMarked && markedUsers == 0 {
        assert forall k :: 0 <= k < |usersList| - 1 ==> usersList[k].id == counted.members[k].id != u.id;
        u.mute := true;
      }
    }

    method MuteAll()
      modifies usersList
      ensures View() == old(View()).(members := AllMuted(old(View()).members))
    {
      for i := 0 to |usersList|
        modifies usersList
        invariant forall k :: 0 <= k < |usersList| ==>
          usersList[k].mute == (usersList[k] in usersList[..i] || old(usersList[k].mute))
      {
        usersList[i].mute := true;
      }
    }

    // The walk of TRIS_LIST_REMOVE.
    method Position(u: User) returns (i: nat)
      requires u in usersList
      ensures i < |usersList| && usersList[i] == u
    {
      ghost var at :| 0 <= at < |usersList| && usersList[at] == u;
      i := 0;
      while usersList[i] != u
        invariant 0 <= i <= at
        decreases at - i
      {
        i := i + 1;
      }
    }

    // TRIS_LIST_REMOVE
    method Remove(u: User)
      requires u in usersList && Distinct(View().members)
      modifies this`usersList
      ensures View() == old(View()).(members := Without(old(View()).members, u.id))
      ensures forall x :: x in usersList ==> x in old(usersList)
    {
      ghost var before := View().members;
      var i := Position(u);
      assert before[i].id == u.id;
      WithoutOne(before, u.id, i);
      usersList := usersList[..i] + usersList[i + 1..];
      assert View().members == before[..i] + before[i + 1..];
    }

    // leave_conference_bridge up to the first release of the lock.
    method Leave(u: User) returns (empty: bool, leaderLeft: bool)
      requires RoomOk(View()) && u in usersList
      modifies this, usersList
      ensures old(View()).users > 0 && (u.flags.marked ==> old(View()).markedUsers > 0)
      ensures View() == Left(old(View()), u.id, u.flags)
      ensures empty == (users == 0)
      ensures leaderLeft == (users > 0 && u.flags.marked && markedUsers == 0)
    {
      ghost var at :| 0 <= at < |usersList| && usersList[at] == u;
      assert View().members[at] == Member(u.id, u.flags, u.mute);
      LeftOk(View(), u.id, at);
      if u.flags.marked {
        markedUsers := markedUsers - 1;
      }
      users := users - 1;
      Remove(u);
      empty := users == 0;
      leaderLeft := !empty && u.flags.marked && markedUsers == 0;
      if leaderLeft {
        assert forall i :: 0 <= i < |usersList| ==> usersList[i] in old(usersList);
        MuteAll();
      }
    }
  }
}
