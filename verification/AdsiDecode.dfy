// Reading names back from the bytes of an ADSI command (apps/app_adsiprog.c): the ids that are
// masked and shifted into them are those the names have in the tables.
module AdsiDecode {
  import opened Prelude
  import opened AdsiTables
  import opened AdsiCodes

  // A flag byte has the id in its upper half.
  lemma FlagDecodes(id: Byte, args: seq<Token>, flags: seq<Entry<()>>, on: bool)
    requires |flags| <= MAX_FLAGS && FlagBytes(id, args, flags, on) != []
    ensures FlagRead(id, args, flags, on, FlagBytes(id, args, flags, on))
  {
    var x := Lookup(flags, Text(args, 0, 79).value).value;
    assert Low(x + FIRST_FLAG, 8) == x + FIRST_FLAG;
  }

  predicate FlagRead(id: Byte, args: seq<Token>, flags: seq<Entry<()>>, on: bool, b: seq<Byte>) {
    && |b| == 2 && b[0] == id && (b[1] % 16 == if on then 1 else 0) && Text(args, 0, 79).Some?
    && Lookup(flags, Text(args, 0, 79).value) == Some(b[1] / 16 - FIRST_FLAG)
  }

  predicate DisplayRead(id: Byte, args: seq<Token>, displays: seq<Entry<seq<Byte>>>, b: seq<Byte>) {
    && |b| == 3 && b[0] == id && Text(args, 0, 79).Some?
    && Lookup(displays, Text(args, 0, 79).value) == Some(b[1] % 64 - FIRST_DISPLAY)
    && (b[1] / 64 == if WordIs(args, 3, "NOUPDATE") then 1 else 3)
    && Number(args, 2).Some? && b[2] / 8 == Number(args, 2).value % 32
    && var i := if WordIs(args, 3, "NOUPDATE") then 4 else 3;
      b[2] % 8 == if WordIs(args, i, "UNLESS") && Number(args, i + 1).Some? then Number(args, i + 1).value % 8 else 0
  }

  lemma DisplayDecodes(id: Byte, args: seq<Token>, displays: seq<Entry<seq<Byte>>>)
    requires |displays| <= MAX_DISPLAYS && ShowDisplayBytes(id, args, displays) != []
    ensures DisplayRead(id, args, displays, ShowDisplayBytes(id, args, displays))
  {
    var x := Lookup(displays, Text(args, 0, 79).value).value;
    var line := Number(args, 2).value;
    var flag := UnlessNumber(args, if WordIs(args, 3, "NOUPDATE") then 4 else 3);
    assert Low(x + FIRST_DISPLAY, 64) == x + FIRST_DISPLAY;
    assert Low(line, 32) == line % 32 && Low(flag, 8) == flag % 8;
  }

  // ------------------------------------------------------- commands that look nothing up

  predicate IsTone(c: char) { '0' <= c <= '9' || 'A' <= c <= 'D' || c == '*' || c == '#' }

  // The bytes are the tones of the text in their order, and nothing else.
  predicate Tones(text: string, b: seq<Byte>) {
    if text == "" then b == []
    else
      var last := text[|text| - 1];
      if IsTone(last) then
        b != [] && b[|b| - 1] == last as int && Tones(text[..|text| - 1], b[..|b| - 1])
      else Tones(text[..|text| - 1], b)
  }

  lemma ToneIn(c: char)
    ensures IsTone(c) <==> c in DTMF
    ensures IsTone(c) ==> c as int % 256 == c as int
  {
    var t := DTMF;
    assert t == "123456789" + "*0#" + "ABCD";
    assert IsTone(c) && c != '*' && c != '0' && c != '#' && c <= '9' ==> c == "123456789"[c as int - '1' as int];
    assert IsTone(c) && 'A' <= c ==> c == "ABCD"[c as int - 'A' as int];
  }

  lemma {:induction false} DtmfAppend(a: string, b: string)
    ensures Dtmf(a + b) == Dtmf(a) + Dtmf(b)
  {
    if a == "" {
      assert a + b == b;
    } else {
      assert (a + b)[0] == a[0] && (a + b)[1..] == a[1..] + b;
      DtmfAppend(a[1..], b);
      var first: seq<Byte> := if a[0] in DTMF then [a[0] as int % 256] else [];
      assert first + (Dtmf(a[1..]) + Dtmf(b)) == first + Dtmf(a[1..]) + Dtmf(b);
    }
  }

  lemma {:induction false} DtmfTones(text: string)
    ensures Tones(text, Dtmf(text))
  {
    if text != "" {
      var n := |text| - 1;
      var c := text[n];
      DtmfTones(text[..n]);
      DtmfAppend(text[..n], [c]);
      assert text[..n] + [c] == text && [c][1..] == "";
      ToneIn(c);
      assert Dtmf([c]) == (if c in DTMF then [c as int % 256] else []) + Dtmf("");
      if IsTone(c) {
        assert Dtmf(text) == Dtmf(text[..n]) + [c as int];
      } else {
        assert Dtmf(text) == Dtmf(text[..n]);
      }
    }
  }

  // What the bytes of such a command say: tones, a line with its page or direction, a time in
  // tenths or hundredths of a second, a number, or an operand that is always the same.
  predicate ArgsRead(how: Builder, id: Byte, args: seq<Token>, b: seq<Byte>) {
    var n, m := Number(args, 0), Number(args, 1);
    match how
    case SendDtmf => if Text(args, 0, 79) == None then b == [] else Tones(Text(args, 0, 79).value, b)
    case GotoLine =>
      if m == None || !(WordIs(args, 0, "INFO") || WordIs(args, 0, "COMM")) then b == []
      else
        && |b| == 2 && b[0] == 0x8b && b[1] % 128 == m.value % 128
        && (b[1] >= 128 <==> WordIs(args, 0, "COMM") || m.value % 256 >= 128)
    case GotoLineRel =>
      if m == None || !(WordIs(args, 0, "UP") || WordIs(args, 0, "DOWN")) then b == []
      else
        && |b| == 2 && b[0] == 0x8c && b[1] % 32 == m.value % 32 && b[1] / 64 == m.value % 256 / 64
        && (b[1] % 64 >= 32 <==> WordIs(args, 0, "DOWN") || m.value % 64 >= 32)
    case SendDelay =>
      if n == None then b == []
      else
        var unit := if id == 11 then 100 else 10;
        |b| == 2 && b[0] == 0x90 && b[1] == (if n.value >= 0 then n.value / unit else -(-n.value / unit)) % 256
    case SetState => if n == None then b == [] else |b| == 2 && b[0] == id && b[1] == n.value % 256
    case StartTimer => if n == None then b == [] else |b| == 3 && b[0] == id && b[1] == 1 && b[2] == n.value % 256
    case ClearTimer => |b| == 2 && b[0] == id && b[1] == if id == 7 then 16 else 0
    case Operand(value) => |b| == 2 && b[0] == id && b[1] == value
  }

  lemma OtherWord(args: seq<Token>, i: nat, a: string, b: string)
    requires WordIs(args, i, a) && |a| != |b|
    ensures !WordIs(args, i, b)
  {
    assert |Lower(a)| != |Lower(b)|;
  }

  lemma CommNotInfo(args: seq<Token>)
    requires WordIs(args, 0, "INFO")
    ensures !WordIs(args, 0, "COMM")
  {
    assert Lower("INFO")[0] == 'i' && Lower("COMM")[0] == 'c';
  }

  // n % (m * k) % m == n % m
  lemma ModOfMod(n: int, m: nat, k: nat)
    requires m > 0 && k > 0 && m * k == 256
    ensures n % 256 % m == n % m
  {
    var x, q := n % 256, n / 256;
    var y, p := x % m, x / m;
    assert n == 256 * q + x && x == m * p + y;
    assert n == m * (k * q + p) + y by {
      assert m * (k * q + p) == m * k * q + m * p;
    }
    Remainder(n, m, k * q + p, y);
  }

  lemma Remainder(n: int, m: nat, q: int, r: nat)
    requires m > 0 && n == m * q + r && r < m
    ensures n % m == r
  {
    var q1, r1 := n / m, n % m;
    assert m * (q1 - q) == r - r1 by {
      assert m * (q1 - q) == m * q1 - m * q;
    }
    Multiple(m, q1 - q);
  }

  lemma Multiple(m: nat, d: int)
    ensures d >= 1 ==> m * d >= m
    ensures d <= -1 ==> m * d <= 0 - m
  {
    assert m * -d == 0 - m * d;
  }

  lemma SetPage(x: Byte)
    ensures WithBit(x, 0x80) % 128 == x % 128 && WithBit(x, 0x80) >= 128
  {
  }

  lemma PageBits(n: int)
    ensures var b := WithBit(ByteOf(n), 0x80); b % 128 == n % 128 && b >= 128
    ensures ByteOf(n) == n % 256 && ByteOf(n) % 128 == n % 128
  {
    ModOfMod(n, 128, 2);
    SetPage(ByteOf(n));
  }

  lemma SetDirection(x: Byte)
    ensures var b := WithBit(x, 0x20); b % 32 == x % 32 && b / 64 == x / 64 && b % 64 >= 32
  {
  }

  lemma DirectionBits(n: int)
    ensures var b := WithBit(ByteOf(n), 0x20); b % 32 == n % 32 && b / 64 == n % 256 / 64 && b % 64 >= 32
    ensures var b := ByteOf(n); b == n % 256 && b % 32 == n % 32 && b % 64 == n % 64
  {
    ModOfMod(n, 32, 8);
    ModOfMod(n, 64, 4);
    SetDirection(ByteOf(n));
  }

  lemma LineDecode(id: Byte, args: seq<Token>)
    ensures ArgsRead(GotoLine, id, args, ArgBytes(GotoLine, id, args))
  {
    var m := Number(args, 1);
    if m.Some? {
      PageBits(m.value);
    }
    if WordIs(args, 0, "INFO") {
      CommNotInfo(args);
    }
  }

  lemma LineRelDecode(id: Byte, args: seq<Token>)
    ensures ArgsRead(GotoLineRel, id, args, ArgBytes(GotoLineRel, id, args))
  {
    var m := Number(args, 1);
    if m.Some? {
      DirectionBits(m.value);
    }
    if WordIs(args, 0, "UP") {
      OtherWord(args, 0, "UP", "DOWN");
    }
  }

  lemma DelayDecode(id: Byte, args: seq<Token>)
    ensures ArgsRead(SendDelay, id, args, ArgBytes(SendDelay, id, args))
  {
  }

  lemma ArgsDecode(how: Builder, id: Byte, args: seq<Token>)
    ensures ArgsRead(how, id, args, ArgBytes(how, id, args))
  {
    match how
    case SendDtmf =>
      if Text(args, 0, 79).Some? { DtmfTones(Text(args, 0, 79).value); }
    case GotoLine => LineDecode(id, args);
    case GotoLineRel => LineRelDecode(id, args);
    case SendDelay => DelayDecode(id, args);
    case _ =>
  }

  // ------------------------------------------------------------------------------ subscripts

  // A name that fits its field has the id that was emitted for it.
  predicate SubRead(args: seq<Token>, i: nat, subs: seq<Entry<Subscript>>, id: int) {
    && Text(args, i, 79).Some? && 0 <= id < |subs|
    && (Short(Text(args, i, 79).value) ==> Lookup(subs, Text(args, i, 79).value) == Some(id))
  }

  lemma SubArgRead(args: seq<Token>, i: nat, subs: seq<Entry<Subscript>>)
    requires SubArg(args, i, subs).found.Some?
    ensures SubRead(args, i, SubArg(args, i, subs).table, SubArg(args, i, subs).found.value)
  {
    FoundAgainIff(subs, Text(args, i, 79).value, MAX_SUBS, BLANK_SUB);
  }

  predicate CallRead(args: seq<Token>, subs: seq<Entry<Subscript>>, b: seq<Byte>) {
    |b| == 2 && b[0] == 0x9d && SubRead(args, 0, subs, b[1])
  }

  lemma CallDecodes(args: seq<Token>, subs: seq<Entry<Subscript>>)
    requires |subs| <= MAX_SUBS && SubBytes(SubArg(args, 0, subs)) != []
    ensures CallRead(args, SubArg(args, 0, subs).table, SubBytes(SubArg(args, 0, subs)))
  {
    SubArgRead(args, 0, subs);
  }

  // The states of an ONEVENT: IN and a state that exists, then OR and such a state, k of them.
  predicate ListedTo(args: seq<Token>, states: seq<Entry<()>>, k: nat) {
    forall j: nat :: j < k ==> StateAt(args, states, j)
  }

  predicate StateAt(args: seq<Token>, states: seq<Entry<()>>, j: nat) {
    WordIs(args, 2 * j + 1, if j == 0 then "IN" else "OR")
    && Text(args, 2 * j + 2, 80).Some? && Lookup(states, Text(args, 2 * j + 2, 80).value).Some?
  }

  // No more than eight, and no further one is announced.
  predicate Listed(args: seq<Token>, states: seq<Entry<()>>, k: nat) {
    && k <= 8 && |args| > 1 && ListedTo(args, states, k)
    && !WordIs(args, 2 * k + 1, if k == 0 then "IN" else "OR")
  }

  lemma ListedFurther(args: seq<Token>, states: seq<Entry<()>>, c: nat)
    requires !StateAt(args, states, c)
    ensures forall k: nat :: c < k ==> !ListedTo(args, states, k)
  {
  }

  lemma {:induction false} InStatesListed(args: seq<Token>, states: seq<Entry<()>>, c: nat)
    requires c <= 8 && ListedTo(args, states, c)
    ensures var r := InStates(args, 2 * c + 1, states, c > 0, c);
      if r.Some? then c <= r.value.0 && r.value.1 == 2 * r.value.0 + 1 && Listed(args, states, r.value.0)
      else forall k: nat :: c <= k ==> !Listed(args, states, k)
    decreases |args| - 2 * c
  {
    assert c > 0 ==> StateAt(args, states, 0);
    if c < 8 && StateAt(args, states, c) {
      assert ListedTo(args, states, c + 1);
      InStatesListed(args, states, c + 1);
      assert !Listed(args, states, c);
    } else if c < 8 {
      ListedFurther(args, states, c);
    }
  }

  predicate EventRead(event: Option<Byte>, args: seq<Token>, states: seq<Entry<()>>, subs: seq<Entry<Subscript>>,
                      b: seq<Byte>)
  {
    && |b| >= 3 && b[0] == 8 && event == Some(b[1]) && 0x80 <= b[2]
    && Listed(args, states, |b| - 3) && SubRead(args, 2 * (|b| - 3) + 2, subs, b[2] - 0x80)
    && b[3..] == Zeros(|b| - 3)
  }

  lemma EventDecodes(event: Option<Byte>, args: seq<Token>, states: seq<Entry<()>>, subs: seq<Entry<Subscript>>)
    requires |subs| <= MAX_SUBS && EventStates(event, args, states).Some?
    requires SubArg(args, EventStates(event, args, states).value.1 + 1, subs).found.Some?
    ensures var s := EventStates(event, args, states).value;
      var r := SubArg(args, s.1 + 1, subs);
      EventRead(event, args, states, r.table, EventBytes(event.value, s.0, r.found.value))
  {
    var s := EventStates(event, args, states).value;
    var r := SubArg(args, s.1 + 1, subs);
    InStatesListed(args, states, 0);
    SubArgRead(args, s.1 + 1, subs);
    EventBuilt(event.value, args, states, r.table, s.0, r.found.value);
  }

  lemma EventBuilt(event: Byte, args: seq<Token>, states: seq<Entry<()>>, subs: seq<Entry<Subscript>>, k: nat, sub: nat)
    requires sub < 0x80 && Listed(args, states, k) && SubRead(args, 2 * k + 2, subs, sub)
    ensures EventRead(Some(event), args, states, subs, EventBytes(event, k, sub))
  {
    assert EventBytes(event, k, sub) == [8, event, sub + 0x80] + Zeros(k);
  }

  // ----------------------------------------------------------------- the keys of a SHOWKEYS

  // What the byte for argument i says: the id of the key named there. A longer name than its field
  // has the id of the entry it was cut to; an argument that is no string says nothing.
  predicate IdRead(args: seq<Token>, i: nat, keys: seq<Entry<SoftKey>>, id: Byte, stale: seq<Byte>) {
    match Text(args, i, 79)
    case None => id == At(stale, i)
    case Some(name) =>
      && FIRST_KEY <= id < FIRST_KEY + |keys|
      && (Short(name) ==> Lookup(keys, name) == Some(id - FIRST_KEY))
      && (keys[id - FIRST_KEY].name == Truncated(name, NAME_SIZE) || SameName(keys[id - FIRST_KEY].name, name))
  }

  // Why no more than the first n arguments are keys: there are no more, UNLESS follows, six are
  // enough, or there is no room for a new name.
  predicate KeysEnd(args: seq<Token>, n: nat, keys: seq<Entry<SoftKey>>) {
    || n >= |args| || WordIs(args, n, "UNLESS") || n == 6
    || (Text(args, n, 79).Some? && |keys| >= MAX_KEYS && Lookup(keys, Text(args, n, 79).value) == None)
  }

  predicate IdsRead(args: seq<Token>, from: nat, keys: seq<Entry<SoftKey>>, ids: seq<Byte>, stale: seq<Byte>) {
    forall i :: from <= i < |ids| ==> IdRead(args, i, keys, ids[i], stale) && !WordIs(args, i, "UNLESS")
  }

  lemma InternedRead(args: seq<Token>, i: nat, keys: seq<Entry<SoftKey>>, stale: seq<Byte>)
    requires |keys| <= MAX_KEYS && Text(args, i, 79).Some?
    requires Intern(keys, Text(args, i, 79).value, MAX_KEYS, BLANK_KEY).found.Some?
    ensures var r := Intern(keys, Text(args, i, 79).value, MAX_KEYS, BLANK_KEY);
      IdRead(args, i, r.table, ByteOf(r.found.value + FIRST_KEY), stale)
  {
    FoundAgainIff(keys, Text(args, i, 79).value, MAX_KEYS, BLANK_KEY);
  }

  lemma IdStaysRead(args: seq<Token>, i: nat, keys: seq<Entry<SoftKey>>, after: seq<Entry<SoftKey>>, id: Byte, stale: seq<Byte>)
    requires IdRead(args, i, keys, id, stale) && Grows(keys, after)
    ensures IdRead(args, i, after, id, stale)
  {
    if Text(args, i, 79).Some? && Short(Text(args, i, 79).value) {
      LookupStays(keys, after, Text(args, i, 79).value);
    }
  }

  // How the reading of the keys goes on from place |ids|: one step.
  lemma KeyArgsNext(args: seq<Token>, keys: seq<Entry<SoftKey>>, flags: seq<Entry<()>>, ids: seq<Byte>, stale: seq<Byte>)
      returns (more: seq<Entry<SoftKey>>, id: Byte)
    requires |ids| <= 5 && |keys| <= MAX_KEYS && !KeysEnd(args, |ids|, keys)
    ensures KeyArgs(args, keys, flags, ids, stale) == KeyArgs(args, more, flags, ids + [id], stale)
    ensures Grows(keys, more) && |more| <= MAX_KEYS && IdRead(args, |ids|, more, id, stale)
  {
    var name := Text(args, |ids|, 79);
    if name == None {
      more, id := keys, At(stale, |ids|);
    } else {
      var k := Intern(keys, name.value, MAX_KEYS, BLANK_KEY);
      more, id := k.table, ByteOf(k.found.value + FIRST_KEY);
      InternedRead(args, |ids|, keys, stale);
    }
  }

  lemma KeyArgsLast(args: seq<Token>, keys: seq<Entry<SoftKey>>, flags: seq<Entry<()>>, ids: seq<Byte>, stale: seq<Byte>)
    requires |ids| <= 6 && |keys| <= MAX_KEYS && KeysEnd(args, |ids|, keys)
    ensures KeyArgs(args, keys, flags, ids, stale) ==
      KeyList(ids, if WordIs(args, |ids|, "UNLESS") then FlagAt(args, |ids| + 1, flags) else 0, keys)
  {
  }

  lemma ReadOn(args: seq<Token>, from: nat, keys: seq<Entry<SoftKey>>, ids: seq<Byte>, stale: seq<Byte>)
    requires from < |ids| && IdsRead(args, from + 1, keys, ids, stale)
    requires IdRead(args, from, keys, ids[from], stale) && !WordIs(args, from, "UNLESS")
    ensures IdsRead(args, from, keys, ids, stale)
  {
  }

  lemma {:induction false} KeyArgsRead(args: seq<Token>, keys: seq<Entry<SoftKey>>, flags: seq<Entry<()>>,
                                       ids: seq<Byte>, stale: seq<Byte>)
      returns (r: KeyList)
    requires |ids| <= 6 && |keys| <= MAX_KEYS
    ensures r == KeyArgs(args, keys, flags, ids, stale)
    ensures ids <= r.ids && |r.ids| <= 6 && keys <= r.keys
    ensures IdsRead(args, |ids|, r.keys, r.ids, stale) && KeysEnd(args, |r.ids|, r.keys)
    ensures r.flag == if WordIs(args, |r.ids|, "UNLESS") then FlagAt(args, |r.ids| + 1, flags) else 0
    decreases 6 - |ids|
  {
    if KeysEnd(args, |ids|, keys) {
      KeyArgsLast(args, keys, flags, ids, stale);
      r := KeyArgs(args, keys, flags, ids, stale);
    } else {
      var more, id := KeyArgsNext(args, keys, flags, ids, stale);
      r := KeyArgsRead(args, more, flags, ids + [id], stale);
      assert r.ids[|ids|] == (ids + [id])[|ids|] == id;
      IdStaysRead(args, |ids|, more, r.keys, id, stale);
      ReadOn(args, |ids|, r.keys, r.ids, stale);
    }
  }

  lemma FlagAndCount(flag: nat, n: nat)
    requires flag < 8 && n < 8
    ensures (flag * 8 + n) / 8 == flag && (flag * 8 + n) % 8 == n
  {
  }

  lemma ShowKeysFields(id: Byte, r: KeyList)
    requires |r.ids| <= 6 && r.flag <= MAX_FLAGS
    ensures var b := ShowKeysBytes(id, r);
      |b| == 2 + |r.ids| && b[0] == id && b[1] % 8 == |r.ids| && b[1] / 8 == r.flag && b[2..] == r.ids
  {
    FlagAndCount(r.flag, |r.ids|);
    var head := [id, r.flag * 8 + |r.ids|];
    assert ShowKeysBytes(id, r) == head + r.ids;
  }

  predicate KeysRead(id: Byte, args: seq<Token>, keys: seq<Entry<SoftKey>>, flags: seq<Entry<()>>, b: seq<Byte>, stale: seq<Byte>) {
    && |b| >= 2 && b[0] == id && b[1] % 8 == |b| - 2 <= 6 && IdsRead(args, 0, keys, b[2..], stale)
    && var flag := if WordIs(args, |b| - 2, "UNLESS") then Text(args, |b| - 2 + 1, 79) else None;
      if flag.Some? && Lookup(flags, flag.value).Some? then Lookup(flags, flag.value) == Some(b[1] / 8 - FIRST_FLAG)
      else b[1] / 8 == 0
  }

  // For any arguments: as many ids as are counted, each the id its name has in the table, the flag
  // after UNLESS, and a reason why there are no more.
  lemma ShowKeysDecodes(id: Byte, args: seq<Token>, keys: seq<Entry<SoftKey>>, flags: seq<Entry<()>>, stale: seq<Byte>)
    requires |keys| <= MAX_KEYS && |flags| <= MAX_FLAGS
    ensures var r := KeyArgs(args, keys, flags, [], stale);
      var b := ShowKeysBytes(id, r);
      KeysRead(id, args, r.keys, flags, b, stale) && KeysEnd(args, |b| - 2, r.keys)
  {
    var r := KeyArgsRead(args, keys, flags, [], stale);
    ShowKeysFields(id, r);
  }

  // ------------------------------------------------------------------- any command, any time

  predicate FlagMeans(args: seq<Token>, i: nat, flags: seq<Entry<()>>, n: int) {
    n == 0 || (Text(args, i, 79).Some? && Lookup(flags, Text(args, i, 79).value) == Some(n - FIRST_FLAG))
  }

  // The bytes of a command say what its names stand for in these tables.
  predicate BytesRead(c: Command, events: seq<string>, args: seq<Token>, t: Tables, b: seq<Byte>, stale: seq<Byte>) {
    match c
    case Plain(_, id) => b == [id]
    case Bytes(_, id, how) => ArgsRead(how, id, args, b)
    case Flag(_, id, on) => b == [] || FlagRead(id, args, t.flags, on, b)
    case ShowDisplay(_, id) => b == [] || DisplayRead(id, args, t.displays, b)
    case ShowKeys(_, id) =>
      && |b| >= 2 && b[0] == id && b[1] % 8 == |b| - 2 <= 6 && IdsRead(args, 0, t.keys, b[2..], stale)
      && FlagMeans(args, |b| - 2 + 1, t.flags, b[1] / 8)
    case CallSub(_, _) => b == [] || CallRead(args, t.subs, b)
    case OnEvent(_, _) => b == [] || EventRead(EventId(events, args, 0), args, t.states, t.subs, b)
  }

  predicate FlagThere(args: seq<Token>, i: nat, flags: seq<Entry<()>>) {
    Text(args, i, 79).Some? && Lookup(flags, Text(args, i, 79).value).Some?
  }

  predicate SubThere(args: seq<Token>, i: nat, subs: seq<Entry<Subscript>>) {
    Text(args, i, 79).Some? && (|subs| < MAX_SUBS || Lookup(subs, Text(args, i, 79).value).Some?)
  }

  // A command compiles to nothing at all: what it needs is missing, or a name is not there.
  predicate Silent(c: Command, events: seq<string>, args: seq<Token>, t: Tables) {
    match c
    case Plain(_, _) => false
    case Bytes(_, _, how) => ArgsRead(how, c.id, args, [])
    case Flag(_, _, _) => !FlagThere(args, 0, t.flags)
    case ShowDisplay(_, _) =>
      Text(args, 0, 79) == None || Lookup(t.displays, Text(args, 0, 79).value) == None
      || !WordIs(args, 1, "AT") || Number(args, 2) == None
    case ShowKeys(_, _) => false
    case CallSub(_, _) => !SubThere(args, 0, t.subs)
    case OnEvent(_, _) =>
      EventId(events, args, 0) == None
      || !exists k :: 0 <= k <= 8 && Listed(args, t.states, k) && SubThere(args, 2 * k + 2, t.subs)
  }

  lemma ListedOnce(args: seq<Token>, states: seq<Entry<()>>, j: nat, k: nat)
    requires Listed(args, states, j) && ListedTo(args, states, k)
    ensures k <= j
  {
    assert j < k ==> StateAt(args, states, j);
  }

  lemma EventSilent(events: seq<string>, args: seq<Token>, t: Tables, name: string, id: Byte)
    ensures var c := OnEvent(name, id); Build(c, events, args, t, []).bytes == [] <==> Silent(c, events, args, t)
  {
    InStatesListed(args, t.states, 0);
    var s := EventStates(EventId(events, args, 0), args, t.states);
    if s.Some? {
      assert Listed(args, t.states, s.value.0);
      forall k | 0 <= k <= 8 && Listed(args, t.states, k)
        ensures k == s.value.0
      {
        ListedOnce(args, t.states, k, s.value.0);
        ListedOnce(args, t.states, s.value.0, k);
      }
    }
  }

  lemma {:induction false} TonesAlone(text: string, b: seq<Byte>, c: seq<Byte>)
    requires Tones(text, b) && Tones(text, c)
    ensures b == c
  {
    if text != "" {
      var n := |text| - 1;
      if IsTone(text[n]) {
        TonesAlone(text[..n], b[..|b| - 1], c[..|c| - 1]);
        assert b == b[..|b| - 1] + [b[|b| - 1]] && c == c[..|c| - 1] + [c[|c| - 1]];
      } else {
        TonesAlone(text[..n], b, c);
      }
    }
  }

  lemma SilentIff(c: Command, events: seq<string>, args: seq<Token>, t: Tables, stale: seq<Byte>)
    ensures Build(c, events, args, t, stale).bytes == [] <==> Silent(c, events, args, t)
  {
    match c
    case Bytes(_, id, how) =>
      ArgsDecode(how, id, args);
      if how.SendDtmf? && Text(args, 0, 79).Some? && Silent(c, events, args, t) {
        TonesAlone(Text(args, 0, 79).value, [], ArgBytes(how, id, args));
      }
    case OnEvent(name, id) => EventSilent(events, args, t, name, id);
    case _ =>
  }

  lemma BuildRead(c: Command, events: seq<string>, args: seq<Token>, t: Tables, stale: seq<Byte>)
    requires TablesFit(t)
    ensures var b := Build(c, events, args, t, stale); BytesRead(c, events, args, b.tables, b.bytes, stale)
  {
    match c
    case Plain(_, _) =>
    case Bytes(_, id, how) =>
      ArgsDecode(how, id, args);
    case Flag(_, id, on) =>
      if FlagBytes(id, args, t.flags, on) != [] { FlagDecodes(id, args, t.flags, on); }
    case ShowDisplay(_, id) =>
      if ShowDisplayBytes(id, args, t.displays) != [] { DisplayDecodes(id, args, t.displays); }
    case ShowKeys(_, id) =>
      ShowKeysDecodes(id, args, t.keys, t.flags, stale);
    case CallSub(_, _) =>
      if SubArg(args, 0, t.subs).found.Some? { CallDecodes(args, t.subs); }
    case OnEvent(_, _) =>
      var event := EventId(events, args, 0);
      var s := EventStates(event, args, t.states);
      if s.Some? && SubArg(args, s.value.1 + 1, t.subs).found.Some? {
        EventDecodes(event, args, t.states, t.subs);
      }
  }

  lemma ListedStays(args: seq<Token>, states: seq<Entry<()>>, after: seq<Entry<()>>, k: nat)
    requires Listed(args, states, k) && Grows(states, after)
    ensures Listed(args, after, k)
  {
    forall j: nat | j < k
      ensures StateAt(args, after, j)
    {
      assert StateAt(args, states, j);
      LookupStays(states, after, Text(args, 2 * j + 2, 80).value);
    }
  }

  lemma SubStaysRead(args: seq<Token>, i: nat, subs: seq<Entry<Subscript>>, after: seq<Entry<Subscript>>, id: int)
    requires SubRead(args, i, subs, id) && Grows(subs, after)
    ensures SubRead(args, i, after, id)
  {
    if Short(Text(args, i, 79).value) {
      LookupStays(subs, after, Text(args, i, 79).value);
    }
  }

  lemma IdsStayRead(args: seq<Token>, keys: seq<Entry<SoftKey>>, after: seq<Entry<SoftKey>>, ids: seq<Byte>, stale: seq<Byte>)
    requires IdsRead(args, 0, keys, ids, stale) && Grows(keys, after)
    ensures IdsRead(args, 0, after, ids, stale)
  {
    forall i | 0 <= i < |ids|
      ensures IdRead(args, i, after, ids[i], stale)
    {
      IdStaysRead(args, i, keys, after, ids[i], stale);
    }
  }

  // And they go on saying it when the tables grow.
  lemma ReadStays(c: Command, events: seq<string>, args: seq<Token>, t: Tables, after: Tables, b: seq<Byte>,
                  stale: seq<Byte>)
    requires BytesRead(c, events, args, t, b, stale) && NamesGrow(t, after)
    ensures BytesRead(c, events, args, after, b, stale)
  {
    match c
    case Plain(_, _) =>
    case Bytes(_, _, _) =>
    case Flag(_, _, on) =>
      if b != [] { LookupStays(t.flags, after.flags, Text(args, 0, 79).value); }
    case ShowDisplay(_, _) =>
      if b != [] { LookupStays(t.displays, after.displays, Text(args, 0, 79).value); }
    case ShowKeys(_, _) =>
      IdsStayRead(args, t.keys, after.keys, b[2..], stale);
      if b[1] / 8 != 0 { LookupStays(t.flags, after.flags, Text(args, |b| - 2 + 1, 79).value); }
    case CallSub(_, _) =>
      if b != [] { SubStaysRead(args, 0, t.subs, after.subs, b[1]); }
    case OnEvent(_, _) =>
      if b != [] {
        ListedStays(args, t.states, after.states, |b| - 3);
        SubStaysRead(args, 2 * (|b| - 3) + 2, t.subs, after.subs, b[2] - 0x80);
      }
  }
}
