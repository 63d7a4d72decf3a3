// The functions that read the arguments of an ADSI command and may look names up or enter them
// (apps/app_adsiprog.c:201-879), proved against AdsiCodes.Build.
module AdsiArguments {
  import opened Prelude
  import opened AdsiTables
  import opened AdsiCodes
  import opened AdsiCompiler
  import opened AdsiStore
  import AdsiDecode

  // send_dtmf
  method SendTones(id: Byte, args: seq<Token>) returns (bytes: seq<Byte>)
    ensures bytes == ArgBytes(SendDtmf, id, args)
  {
    bytes := [];
    var dtmfstr := Text(args, 0, 79);
    if dtmfstr == None {
      return;
    }
    var a := dtmfstr.value;
    for i := 0 to |a|
      invariant bytes == Dtmf(a[..i])
    {
      AdsiDecode.DtmfAppend(a[..i], [a[i]]);
      assert a[..i] + [a[i]] == a[..i + 1] && [a[i]][1..] == "";
      if a[i] in DTMF {
        bytes := bytes + [a[i] as int % 256];
      }
    }
    assert a[..|a|] == a;
  }

  // The functions that look nothing up.
  method OwnArgs(how: Builder, id: Byte, args: seq<Token>) returns (bytes: seq<Byte>)
    ensures bytes == ArgBytes(how, id, args)
  {
    if how.SendDtmf? {
      bytes := SendTones(id, args);
    } else {
      bytes := ArgBytes(how, id, args);
    }
  }

  // setflag, clearflag
  method SetFlag(id: Byte, args: seq<Token>, flags: Table<()>, on: bool) returns (bytes: seq<Byte>)
    requires flags.Valid()
    ensures bytes == FlagBytes(id, args, flags.View(), on)
  {
    var name := Text(args, 0, 79);
    if name == None {
      return [];
    }
    var x := flags.Find(name.value);
    if x == None {
      return [];
    }
    return [id, Low(x.value + FIRST_FLAG, 8) * 16 + if on then 1 else 0];
  }

  // showdisplay
  method ShowDisplay(id: Byte, args: seq<Token>, displays: DisplayTable) returns (bytes: seq<Byte>)
    requires displays.Valid()
    ensures bytes == ShowDisplayBytes(id, args, displays.View())
  {
    var name := Text(args, 0, 79);
    if name == None {
      return [];
    }
    var x := displays.Find(name.value);
    if x == None || !WordIs(args, 1, "AT") || Number(args, 2) == None {
      return [];
    }
    var cmd, i := 3, 3;
    if WordIs(args, 3, "NOUPDATE") {
      cmd, i := 1, 4;
    }
    return [id, cmd * 64 + Low(x.value + FIRST_DISPLAY, 64),
            Low(Number(args, 2).value, 32) * 8 + Low(UnlessNumber(args, i), 8)];
  }

  // The flag after UNLESS.
  method UnlessFlag(args: seq<Token>, i: nat, flags: Table<()>) returns (flagId: nat)
    requires flags.Valid()
    ensures flagId == FlagAt(args, i, flags.View())
  {
    var name := Text(args, i, 79);
    if name == None {
      return 0;
    }
    var flag := flags.Find(name.value);
    return if flag.Some? then flag.value + FIRST_FLAG else 0;
  }

  // The id of a key goes to place x, if there is space for the key.
  method StoreKey(name: string, keyId: array<Byte>, x: nat, keys: KeyTable) returns (found: Option<nat>)
    requires keys.Valid() && keyId !in keys.Repr && x < keyId.Length
    modifies keys.names, keys.names.entries, keyId
    ensures keys.Valid() && Interned(keys.View(), found) == Intern(old(keys.View()), name, MAX_KEYS, BLANK_KEY)
    ensures keyId[..] == if found.Some? then old(keyId[..])[x := ByteOf(found.value + FIRST_KEY)] else old(keyId[..])
  {
    found := keys.GetByName(name);
    if found.Some? {
      keyId[x] := ByteOf(found.value + FIRST_KEY);
    }
  }

  // What storing an id, or leaving the place as it was, comes to.
  lemma OneKey(args: seq<Token>, x: nat, keys: seq<Entry<SoftKey>>, flags: seq<Entry<()>>, now: seq<Byte>, stale: seq<Byte>)
    requires |now| == |stale| == 6 && x < 6 && x < |args| && !WordIs(args, x, "UNLESS") && now[x..] == stale[x..]
    ensures now[x + 1..] == stale[x + 1..]
    ensures var name := Text(args, x, 79); name == None ==>
      KeyArgs(args, keys, flags, now[..x], stale) == KeyArgs(args, keys, flags, now[..x + 1], stale)
    ensures var name := Text(args, x, 79); name.Some? ==>
      var r := Intern(keys, name.value, MAX_KEYS, BLANK_KEY);
      r.found.Some? ==>
        var next := now[x := ByteOf(r.found.value + FIRST_KEY)];
        next[x + 1..] == stale[x + 1..]
        && KeyArgs(args, keys, flags, now[..x], stale) == KeyArgs(args, r.table, flags, next[..x + 1], stale)
  {
    assert now[x + 1..] == now[x..][1..];
    assert now[x] == now[x..][0];
    assert now[..x + 1] == now[..x] + [now[x]];
    forall v: Byte
      ensures now[x := v][..x + 1] == now[..x] + [v] && now[x := v][x + 1..] == now[x + 1..]
    {
    }
  }

  // One key of showkeys: its id goes to place x, unless the argument is no string. False if there is no
  // space for the key.
  method TakeKey(args: seq<Token>, x: nat, keyId: array<Byte>, keys: KeyTable, ghost names: seq<Entry<()>>, ghost stale: seq<Byte>)
      returns (taken: bool)
    requires x < 6 && x < |args| && !WordIs(args, x, "UNLESS")
    requires keys.Valid() && keyId !in keys.Repr && keyId.Length == |stale| == 6 && keyId[x..] == stale[x..]
    modifies keys.names, keys.names.entries, keyId
    ensures keys.Valid() && keyId[x + 1..] == stale[x + 1..]
    ensures KeyArgs(args, old(keys.View()), names, old(keyId[..x]), stale) ==
      if taken then KeyArgs(args, keys.View(), names, keyId[..x + 1], stale) else KeyList(keyId[..x], 0, keys.View())
  {
    OneKey(args, x, keys.View(), names, keyId[..], stale);
    ghost var now := keyId[..];
    assert now[..x] == keyId[..x] && now[x..] == keyId[x..] && now[..x + 1] == keyId[..x + 1];
    taken := true;
    var name := Text(args, x, 79);
    if name.Some? {
      var key := StoreKey(name.value, keyId, x, keys);
      ghost var next := keyId[..];
      assert next[..x] == keyId[..x] && next[x + 1..] == keyId[x + 1..] && next[..x + 1] == keyId[..x + 1];
      taken := key.Some?;
    }
  }

  // The loop of showkeys; the array of ids starts out as it was in memory.
  method CollectKeys(args: seq<Token>, keys: KeyTable, flags: Table<()>)
      returns (ids: seq<Byte>, flagId: nat, ghost stale: seq<Byte>)
    requires keys.Valid() && flags.Valid() && flags != keys.names && flags.entries != keys.names.entries
    modifies keys.names, keys.names.entries
    ensures keys.Valid() && |ids| <= 6
    ensures KeyList(ids, flagId, keys.View()) == KeyArgs(args, old(keys.View()), old(flags.View()), [], stale)
  {
    ghost var names, table := flags.View(), keys.View();
    flagId := 0;
    var keyId := new Byte[6];
    assert keyId !in keys.Repr;
    stale := keyId[..];
    ghost var goal := KeyArgs(args, table, names, [], stale);
    assert keyId[..0] == [] && keyId[0..] == stale[0..];
    var x := 0;
    while x < 7
      invariant x <= 6 && flagId == 0 && keys.Valid() && flags.View() == names
      invariant keyId[x..] == stale[x..]
      invariant goal == KeyArgs(args, keys.View(), names, keyId[..x], stale)
      decreases 7 - x
    {
      if x >= |args| {
        break;
      }
      if WordIs(args, x, "UNLESS") {
        flagId := UnlessFlag(args, x + 1, flags);
        break;
      }
      if x > 5 {
        break;
      }
      var taken := TakeKey(args, x, keyId, keys, names, stale);
      if !taken {
        break;
      }
      x := x + 1;
    }
    ids := keyId[..x];
  }

  // showkeys
  method ShowKeys(id: Byte, args: seq<Token>, keys: KeyTable, flags: Table<()>)
      returns (bytes: seq<Byte>, ghost stale: seq<Byte>)
    requires keys.Valid() && flags.Valid() && flags != keys.names && flags.entries != keys.names.entries
    modifies keys.names, keys.names.entries
    ensures keys.Valid()
    ensures var r := KeyArgs(args, old(keys.View()), old(flags.View()), [], stale);
      bytes == ShowKeysBytes(id, r) && keys.View() == r.keys
  {
    var ids, flagId;
    ids, flagId, stale := CollectKeys(args, keys, flags);
    var head: seq<Byte> := [id, Low(flagId, 8) * 8 + Low(|ids|, 8)];
    bytes := head + ids;
  }

  // getsubbyname on an argument
  method SubByArg(args: seq<Token>, i: nat, subs: SubTable) returns (found: Option<nat>)
    requires subs.Valid()
    modifies subs.names, subs.names.entries
    ensures subs.Valid()
    ensures Interned(subs.View(), found) == SubArg(args, i, old(subs.View()))
  {
    var name := Text(args, i, 79);
    if name == None {
      return None;
    }
    found := subs.GetByName(name.value);
  }

  // subscript
  method CallSub(args: seq<Token>, subs: SubTable) returns (bytes: seq<Byte>)
    requires subs.Valid()
    modifies subs.names, subs.names.entries
    ensures subs.Valid()
    ensures var r := SubArg(args, 0, old(subs.View())); subs.View() == r.table && bytes == SubBytes(r)
  {
    var found := SubByArg(args, 0, subs);
    bytes := if found == None then [] else [0x9d, ByteOf(found.value)];
  }

  // The loop of onevent over the states; `snums` gets what comparing each of them with NULL gives.
  method ReadStates(args: seq<Token>, states: Table<()>) returns (good: bool, snums: seq<Byte>, next: nat)
    requires states.Valid()
    ensures InStates(args, 1, states.View(), false, 0) == if good then Some((|snums|, next)) else None
    ensures snums == Zeros(|snums|)
  {
    var sawIn := false;
    snums, next := [], 1;
    while next < |args| && WordIs(args, next, if sawIn then "OR" else "IN")
      invariant |snums| <= 8 && snums == Zeros(|snums|)
      invariant InStates(args, 1, states.View(), false, 0) == InStates(args, next, states.View(), sawIn, |snums|)
      decreases |args| - next
    {
      sawIn := true;
      var name := Text(args, next + 1, 80);
      if |snums| > 7 || name == None {
        return false, snums, next;
      }
      var state := states.Find(name.value);
      var num := if state == None then 1 else 0;
      if num == 1 {
        return false, snums, next;
      }
      snums := snums + [num];
      next := next + 2;
    }
    good := next < |args| || sawIn;
  }

  // onevent, for what geteventbyname gives
  method OnEvent(event: Option<Byte>, args: seq<Token>, states: Table<()>, subs: SubTable) returns (bytes: seq<Byte>)
    requires states.Valid() && subs.Valid() && states != subs.names && states.entries != subs.names.entries
    modifies subs.names, subs.names.entries
    ensures subs.Valid()
    ensures var at := EventStates(event, args, old(states.View()));
      var r := if at == None then Interned(old(subs.View()), None) else SubArg(args, at.value.1 + 1, old(subs.View()));
      subs.View() == r.table && bytes == if r.found == None then [] else EventBytes(event.value, at.value.0, r.found.value)
  {
    bytes := [];
    if event == None {
      return;
    }
    ghost var at, table := EventStates(event, args, states.View()), subs.View();
    var good, snums, next := ReadStates(args, states);
    assert subs.View() == table;
    if !good {
      assert at == None;
      return;
    }
    assert at == Some((|snums|, next));
    var sub := SubByArg(args, next + 1, subs);
    if sub.Some? {
      bytes := [8, event.value, Marked(ByteOf(sub.value))] + snums;
      assert bytes == EventBytes(event.value, |snums|, sub.value);
    }
  }
}
