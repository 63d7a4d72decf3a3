// The tables of struct adsi_script (apps/app_adsiprog.c): names, with a record for each place that
// is there from the start, blank until its name is entered.
module AdsiStore {
  import opened Prelude
  import opened AdsiTables
  import opened AdsiCodes
  import opened AdsiCompiler
  import opened AdsiBuffers

  class KeyTable {
    const names: Table<()>
    const bufs: seq<KeyBuffer>
    ghost const Repr: set<object>

    constructor ()
      ensures Valid() && View() == [] && fresh(Repr)
    {
      var ns := new Table<()>(MAX_KEYS, ());
      var bs, repr := KeyTable.NewBuffers();
      names, bufs := ns, bs;
      Repr := {ns, ns.entries} + repr;
    }

    static method NewBuffers() returns (bs: seq<KeyBuffer>, ghost repr: set<object>)
      ensures |bs| == MAX_KEYS && Apart(bs)
      ensures fresh(repr) && forall b <- bs :: b in repr && b.retstr in repr
      ensures forall j :: 0 <= j < MAX_KEYS ==> bs[j].k == j && bs[j].Valid() && bs[j].View() == BLANK_KEY
    {
      bs, repr := [], {};
      for k := 0 to MAX_KEYS
        invariant |bs| == k && Apart(bs)
        invariant fresh(repr) && forall b <- bs :: b in repr && b.retstr in repr
        invariant forall j :: 0 <= j < k ==> bs[j].k == j && bs[j].Valid() && bs[j].View() == BLANK_KEY
      {
        var b := new KeyBuffer(k);
        bs, repr := bs + [b], repr + {b, b.retstr};
      }
    }

    static predicate Apart(bs: seq<KeyBuffer>) {
      forall i, j :: 0 <= i < j < |bs| ==> bs[i] != bs[j] && bs[i].retstr != bs[j].retstr
    }

    ghost predicate Valid()
      reads Repr
    {
      && {names, names.entries} <= Repr && names.Valid() && names.entries.Length == MAX_KEYS && |bufs| == MAX_KEYS && Apart(bufs)
      && (forall j :: 0 <= j < MAX_KEYS ==> bufs[j] in Repr && bufs[j].retstr in Repr && bufs[j].k == j && bufs[j].Valid())
      && (forall j :: names.num <= j < MAX_KEYS ==> bufs[j].View() == BLANK_KEY)
    }

    ghost function View(): (v: seq<Entry<SoftKey>>)
      requires Valid()
      reads Repr
      ensures |v| == names.num
      ensures forall j :: 0 <= j < names.num ==> v[j] == Entry(names.entries[j].name, bufs[j].View())
    {
      seq(names.num, j requires 0 <= j < names.num && Valid() reads Repr => Entry(names.entries[j].name, bufs[j].View()))
    }

    // A change of one record is a change at its place.
    twostate lemma OneChanged(k: nat)
      requires old(Valid()) && k < old(names.num)
      requires forall o: object :: o in Repr && o != bufs[k] && o != bufs[k].retstr ==> unchanged(o)
      requires bufs[k].Valid()
      ensures Valid() && View() == old(View())[k := old(View())[k].(data := bufs[k].View())]
    {
    }

    // getkeybyname
    method GetByName(name: string) returns (found: Option<nat>)
      requires Valid()
      modifies names, names.entries
      ensures Valid()
      ensures Interned(View(), found) == Intern(old(View()), name, MAX_KEYS, BLANK_KEY)
    {
      found := names.GetByName(name);
      assert names.blank == ();
      InternByNames(old(View()), View(), BLANK_KEY, old(names.View()), names.View(), (), name, MAX_KEYS);
    }
  }

  class SubTable {
    const names: Table<()>
    const bufs: seq<SubBuffer>
    ghost const Repr: set<object>

    constructor ()
      ensures Valid() && View() == [] && fresh(Repr)
    {
      var ns := new Table<()>(MAX_SUBS, ());
      var bs, repr := SubTable.NewBuffers();
      names, bufs := ns, bs;
      Repr := {ns, ns.entries} + repr;
    }

    static method NewBuffers() returns (bs: seq<SubBuffer>, ghost repr: set<object>)
      ensures |bs| == MAX_SUBS && Apart(bs)
      ensures fresh(repr) && forall b <- bs :: b in repr && b.data in repr
      ensures forall j :: 0 <= j < MAX_SUBS ==> bs[j].i == j && bs[j].Valid() && bs[j].View() == BLANK_SUB
    {
      bs, repr := [], {};
      for n := 0 to MAX_SUBS
        invariant |bs| == n && Apart(bs)
        invariant fresh(repr) && forall b <- bs :: b in repr && b.data in repr
        invariant forall j :: 0 <= j < n ==> bs[j].i == j && bs[j].Valid() && bs[j].View() == BLANK_SUB
      {
        var b := new SubBuffer(n);
        bs, repr := bs + [b], repr + {b, b.data};
      }
    }

    static predicate Apart(bs: seq<SubBuffer>) {
      forall i, j :: 0 <= i < j < |bs| ==> bs[i] != bs[j] && bs[i].data != bs[j].data
    }

    ghost predicate Valid()
      reads Repr
    {
      && {names, names.entries} <= Repr && names.Valid() && names.entries.Length == MAX_SUBS && |bufs| == MAX_SUBS && Apart(bufs)
      && (forall j :: 0 <= j < MAX_SUBS ==> bufs[j] in Repr && bufs[j].data in Repr && bufs[j].i == j && bufs[j].Valid())
      && (forall j :: names.num <= j < MAX_SUBS ==> bufs[j].View() == BLANK_SUB)
    }

    ghost function View(): (v: seq<Entry<Subscript>>)
      requires Valid()
      reads Repr
      ensures |v| == names.num
      ensures forall j :: 0 <= j < names.num ==> v[j] == Entry(names.entries[j].name, bufs[j].View())
    {
      seq(names.num, j requires 0 <= j < names.num && Valid() reads Repr => Entry(names.entries[j].name, bufs[j].View()))
    }

    // A change of one record is a change at its place.
    twostate lemma OneChanged(i: nat)
      requires old(Valid()) && i < old(names.num)
      requires forall o: object :: o in Repr && o != bufs[i] && o != bufs[i].data ==> unchanged(o)
      requires bufs[i].Valid()
      ensures Valid() && View() == old(View())[i := old(View())[i].(data := bufs[i].View())]
    {
    }

    // getsubbyname
    method GetByName(name: string) returns (found: Option<nat>)
      requires Valid()
      modifies names, names.entries
      ensures Valid()
      ensures Interned(View(), found) == Intern(old(View()), name, MAX_SUBS, BLANK_SUB)
    {
      found := names.GetByName(name);
      assert names.blank == ();
      InternByNames(old(View()), View(), BLANK_SUB, old(names.View()), names.View(), (), name, MAX_SUBS);
    }
  }

  class DisplayTable {
    const names: Table<()>
    const bufs: seq<DisplayBuffer>
    ghost const Repr: set<object>

    constructor ()
      ensures Valid() && View() == [] && fresh(Repr)
    {
      var ns := new Table<()>(MAX_DISPLAYS, ());
      var bs, repr := DisplayTable.NewBuffers();
      names, bufs := ns, bs;
      Repr := {ns, ns.entries} + repr;
    }

    static method NewBuffers() returns (bs: seq<DisplayBuffer>, ghost repr: set<object>)
      ensures |bs| == MAX_DISPLAYS && Apart(bs)
      ensures fresh(repr) && forall b <- bs :: b in repr && b.data in repr
      ensures forall j :: 0 <= j < MAX_DISPLAYS ==> bs[j].d == j && bs[j].Valid() && bs[j].View() == []
    {
      bs, repr := [], {};
      for n := 0 to MAX_DISPLAYS
        invariant |bs| == n && Apart(bs)
        invariant fresh(repr) && forall b <- bs :: b in repr && b.data in repr
        invariant forall j :: 0 <= j < n ==> bs[j].d == j && bs[j].Valid() && bs[j].View() == []
      {
        var b := new DisplayBuffer(n);
        bs, repr := bs + [b], repr + {b, b.data};
      }
    }

    static predicate Apart(bs: seq<DisplayBuffer>) {
      forall i, j :: 0 <= i < j < |bs| ==> bs[i] != bs[j] && bs[i].data != bs[j].data
    }

    ghost predicate Valid()
      reads Repr
    {
      && {names, names.entries} <= Repr && names.Valid() && names.entries.Length == MAX_DISPLAYS && |bufs| == MAX_DISPLAYS && Apart(bufs)
      && (forall j :: 0 <= j < MAX_DISPLAYS ==> bufs[j] in Repr && bufs[j].data in Repr && bufs[j].d == j && bufs[j].Valid())
      && (forall j :: names.num <= j < MAX_DISPLAYS ==> bufs[j].View() == [])
    }

    ghost function View(): (v: seq<Entry<seq<Byte>>>)
      requires Valid()
      reads Repr
      ensures |v| == names.num
      ensures forall j :: 0 <= j < names.num ==> v[j] == Entry(names.entries[j].name, bufs[j].View())
    {
      seq(names.num, j requires 0 <= j < names.num && Valid() reads Repr => Entry(names.entries[j].name, bufs[j].View()))
    }

    // A change of one record is a change at its place.
    twostate lemma OneChanged(d: nat)
      requires old(Valid()) && d < old(names.num)
      requires forall o: object :: o in Repr && o != bufs[d] && o != bufs[d].data ==> unchanged(o)
      requires bufs[d].Valid()
      ensures Valid() && View() == old(View())[d := old(View())[d].(data := bufs[d].View())]
    {
    }

    // getdisplaybyname when it may not create
    method Find(name: string) returns (found: Option<nat>)
      requires Valid()
      ensures found == Lookup(View(), name)
    {
      found := names.Find(name);
      LookupByNames(View(), names.View(), name);
    }

    // getdisplaybyname when it may create
    method GetByName(name: string) returns (found: Option<nat>)
      requires Valid()
      modifies names, names.entries
      ensures Valid()
      ensures Interned(View(), found) == Intern(old(View()), name, MAX_DISPLAYS, [])
    {
      found := names.GetByName(name);
      assert names.blank == ();
      InternByNames(old(View()), View(), [], old(names.View()), names.View(), (), name, MAX_DISPLAYS);
    }

    // The DISPLAY line, for a name that is in no use yet.
    method Define(justify: seq<string>, name: string, args: seq<Token>)
      requires Valid() && Lookup(View(), name) == None
      modifies Repr
      ensures Valid()
      ensures View() == Intern(old(View()), name, MAX_DISPLAYS, DisplayData(justify, |old(View())| + FIRST_DISPLAY, args)).table
    {
      ghost var before := View();
      var found := GetByName(name);
      if found.Some? {
        var d := found.value;
        assert View()[d].data == [];
        label Named:
        bufs[d].Define(justify, args);
        OneChanged@Named(d);
      }
    }
  }

  // The STATE and FLAG lines.
  method EnterName(names: Table<()>, args: seq<Token>)
    requires names.Valid()
    modifies names, names.entries
    ensures names.Valid() && names.View() == DefineName(old(names.View()), args, names.entries.Length)
  {
    var name := Text(args, 0, 255);
    if name.Some? {
      var found := names.Find(name.value);
      if found == None {
        assert names.blank == ();
        found := names.GetByName(name.value);
      }
    }
  }
}
