// The name tables of the ADSI script compiler (apps/app_adsiprog.c): soft keys, subscripts,
// states, flags and displays. An entry is found by name whatever its case; its id is its place in
// the table plus a base that is fixed for the table.
module AdsiTables {
  import opened Prelude

  // The size of the vname fields.
  const NAME_SIZE := 40

  const MAX_KEYS := 62
  const MAX_SUBS := 128
  const MAX_STATES := 254
  const MAX_FLAGS := 7
  const MAX_DISPLAYS := 62

  const FIRST_KEY := 2
  const FIRST_STATE := 1
  const FIRST_FLAG := 1
  const FIRST_DISPLAY := 1

  datatype Entry<+D> = Entry(name: string, data: D)

  function Lookup<D>(t: seq<Entry<D>>, name: string): (x: Option<nat>)
    ensures x.Some? ==> x.value < |t| && SameName(t[x.value].name, name)
    ensures x.Some? ==> forall y :: 0 <= y < x.value ==> !SameName(t[y].name, name)
    ensures x == None ==> forall y :: 0 <= y < |t| ==> !SameName(t[y].name, name)
  {
    LookupFrom(t, name, 0)
  }

  function LookupFrom<D>(t: seq<Entry<D>>, name: string, from: nat): (x: Option<nat>)
    requires from <= |t|
    ensures x.Some? ==> from <= x.value < |t| && SameName(t[x.value].name, name)
    ensures x.Some? ==> forall y :: from <= y < x.value ==> !SameName(t[y].name, name)
    ensures x == None ==> forall y :: from <= y < |t| ==> !SameName(t[y].name, name)
    decreases |t| - from
  {
    if from == |t| then None
    else if SameName(t[from].name, name) then Some(from)
    else LookupFrom(t, name, from + 1)
  }

  datatype Interned<D> = Interned(table: seq<Entry<D>>, found: Option<nat>)

  // The get...byname functions when they may create; the name is cut to the size of its field.
  function Intern<D>(t: seq<Entry<D>>, name: string, max: nat, blank: D): (r: Interned<D>)
    ensures t <= r.table && (|t| <= max ==> |r.table| <= max)
    ensures forall i :: |t| <= i < |r.table| ==> r.table[i].data == blank
    ensures r.found.Some? ==> r.found.value < |r.table|
    ensures r.found == None ==> r.table == t && |t| >= max
  {
    match Lookup(t, name)
    case Some(x) => Interned(t, Some(x))
    case None =>
      if |t| >= max then Interned(t, None)
      else Interned(t + [Entry(Truncated(name, NAME_SIZE), blank)], Some(|t|))
  }

  // Entries are only ever added at the end, and keep their names.
  predicate Grows<D>(a: seq<Entry<D>>, b: seq<Entry<D>>) {
    |a| <= |b| && forall i :: 0 <= i < |a| ==> a[i].name == b[i].name
  }

  predicate Distinct<D>(t: seq<Entry<D>>) {
    forall i, j :: 0 <= i < j < |t| ==> !SameName(t[i].name, t[j].name)
  }

  predicate Short(name: string) { |name| < NAME_SIZE }

  lemma GrowsTransitively<D>(a: seq<Entry<D>>, b: seq<Entry<D>>, c: seq<Entry<D>>)
    requires Grows(a, b) && Grows(b, c)
    ensures Grows(a, c)
  {
    forall i | 0 <= i < |a|
      ensures a[i].name == c[i].name
    {
      assert a[i].name == b[i].name;
    }
  }

  // What a name stands for never changes again.
  lemma LookupStays<D>(a: seq<Entry<D>>, b: seq<Entry<D>>, name: string)
    requires Grows(a, b) && Lookup(a, name).Some?
    ensures Lookup(b, name) == Lookup(a, name)
  {
    var x := Lookup(a, name).value;
    assert SameName(b[x].name, name) by {
      assert a[x].name == b[x].name;
    }
    assert forall y :: 0 <= y < x ==> !SameName(b[y].name, name) by {
      assert forall y :: 0 <= y < x ==> a[y].name == b[y].name;
    }
  }

  // A name that has just been interned is found again exactly when it fits its field, or was
  // there before.
  lemma FoundAgainIff<D>(t: seq<Entry<D>>, name: string, max: nat, blank: D)
    requires Intern(t, name, max, blank).found.Some?
    ensures var r := Intern(t, name, max, blank);
      Lookup(r.table, name) == r.found <==> Short(name) || Lookup(t, name).Some?
  {
    if Lookup(t, name) == None {
      var r := Intern(t, name, max, blank);
      assert forall y :: 0 <= y < |t| ==> r.table[y] == t[y];
      if Short(name) {
        assert r.table[|t|].name == name;
      } else {
        assert |r.table[|t|].name| < |name|;
        assert !SameName(r.table[|t|].name, name);
      }
    }
  }

  // A name is there afterwards if it was there or there was room, at the end if it is new, with its
  // first 39 characters; if there was neither, nothing is found and nothing changes.
  lemma InternEnters<D>(t: seq<Entry<D>>, name: string, max: nat, blank: D)
    ensures var r := Intern(t, name, max, blank);
      if Lookup(t, name).Some? then r == Interned(t, Lookup(t, name))
      else if |t| < max then
        && r.found == Some(|t|) && |r.table| == |t| + 1 && r.table[..|t|] == t && r.table[|t|].data == blank
        && r.table[|t|].name <= name && |r.table[|t|].name| == if |name| < 40 then |name| else 39
      else r == Interned(t, None)
  {
  }

  lemma InternDistinct<D>(t: seq<Entry<D>>, name: string, max: nat, blank: D)
    requires Distinct(t) && Short(name)
    ensures Distinct(Intern(t, name, max, blank).table)
  {
    if Lookup(t, name) == None && |t| < max {
      forall i | 0 <= i < |t|
        ensures !SameName(t[i].name, name)
      {
      }
    }
  }

  // Two lookups meet at one entry exactly when the names differ in case at most.
  lemma LookupInjective<D>(t: seq<Entry<D>>, a: string, b: string)
    requires Lookup(t, a).Some? && Lookup(t, b).Some?
    ensures Lookup(t, a) == Lookup(t, b) <==> SameName(a, b)
  {
  }

  // Looking up and interning depend on the names only.
  predicate SameNames<D, E>(t: seq<Entry<D>>, u: seq<Entry<E>>) {
    |t| == |u| && forall i :: 0 <= i < |t| ==> t[i].name == u[i].name
  }

  lemma LookupByNames<D, E>(t: seq<Entry<D>>, u: seq<Entry<E>>, name: string)
    requires SameNames(t, u)
    ensures Lookup(t, name) == Lookup(u, name)
  {
    forall i | 0 <= i < |t|
      ensures SameName(t[i].name, name) == SameName(u[i].name, name)
    {
      assert t[i].name == u[i].name;
    }
  }

  lemma InternByNames<D, E>(
      t: seq<Entry<D>>, t1: seq<Entry<D>>, blank: D, u: seq<Entry<E>>, u1: seq<Entry<E>>, blank1: E, name: string, max: nat)
    requires SameNames(t, u) && SameNames(t1, u1)
    requires t <= t1 && forall i :: |t| <= i < |t1| ==> t1[i].data == blank
    requires Intern(u, name, max, blank1).table == u1
    ensures Interned(t1, Intern(u, name, max, blank1).found) == Intern(t, name, max, blank)
  {
    LookupByNames(t, u, name);
    assert t1 == Intern(t, name, max, blank).table;
  }

  // ------------------------------------------------------------------------ the code in place

  class Table<D> {
    const entries: array<Entry<D>>
    var num: nat
    const blank: D

    constructor (max: nat, blank: D)
      ensures Valid() && View() == [] && entries.Length == max && this.blank == blank && fresh(entries)
    {
      entries := new Entry<D>[max](_ => Entry("", blank));
      num := 0;
      this.blank := blank;
    }

    ghost predicate Valid()
      reads this
    {
      num <= entries.Length
    }

    ghost function View(): seq<Entry<D>>
      requires Valid()
      reads this, entries
    {
      entries[..num]
    }

    // getkeybyname and its kin: the loop, which is all they do when they may not create
    method Find(name: string) returns (found: Option<nat>)
      requires Valid()
      ensures found == Lookup(View(), name)
    {
      var x := 0;
      while x < num
        invariant x <= num
        invariant Lookup(View(), name) == LookupFrom(View(), name, x)
      {
        assert View()[x] == entries[x];
        if SameName(entries[x].name, name) {
          return Some(x);
        }
        x := x + 1;
      }
      return None;
    }

    // getkeybyname and its kin when they may create
    method GetByName(name: string) returns (found: Option<nat>)
      requires Valid()
      modifies this`num, entries
      ensures Valid()
      ensures Interned(View(), found) == Intern(old(View()), name, entries.Length, blank)
    {
      found := Find(name);
      if found == None && num < entries.Length {
        entries[num] := Entry(Truncated(name, NAME_SIZE), blank);
        num := num + 1;
        found := Some(num - 1);
      }
    }
  }
}
