// The codes of an ADSI script and the bytes they compile to (apps/app_adsiprog.c). A line has been
// split into tokens; the bits of a byte are written as arithmetic.
module AdsiCodes {
  import opened Prelude
  import opened AdsiTables

  // A bare word, a quoted string, or a number in any notation.
  datatype Token = Word(text: string) | Str(text: string) | Num(value: int)

  // `retstr` is the used part of the buffer, of which `initlen` bytes were there before the codes.
  datatype SoftKey = SoftKey(defined: bool, initlen: nat, retstr: seq<Byte>)

  // `ifAt` is where the header of the last IFEVENT begins.
  datatype Subscript = Subscript(defined: bool, data: seq<Byte>, inscount: nat, ifinscount: nat, ifAt: nat)

  const BLANK_KEY := SoftKey(false, 0, [])
  const BLANK_SUB := Subscript(false, [], 0, 0, 0)

  datatype Tables = Tables(
    keys: seq<Entry<SoftKey>>, subs: seq<Entry<Subscript>>, states: seq<Entry<()>>, flags: seq<Entry<()>>,
    displays: seq<Entry<seq<Byte>>>)

  predicate TablesFit(t: Tables) {
    && |t.keys| <= MAX_KEYS && |t.subs| <= MAX_SUBS && |t.states| <= MAX_STATES && |t.flags| <= MAX_FLAGS
    && |t.displays| <= MAX_DISPLAYS
  }

  // Building the arguments of a command may add keys and subscripts, still blank, and no more.
  predicate Extends(t: Tables, after: Tables) {
    && t.keys <= after.keys && (forall i :: |t.keys| <= i < |after.keys| ==> after.keys[i].data == BLANK_KEY)
    && t.subs <= after.subs && (forall i :: |t.subs| <= i < |after.subs| ==> after.subs[i].data == BLANK_SUB)
    && after.states == t.states && after.flags == t.flags && after.displays == t.displays
    && (TablesFit(t) ==> TablesFit(after))
  }

  // Every entry keeps its place and its name.
  predicate NamesGrow(t: Tables, after: Tables) {
    && Grows(t.keys, after.keys) && Grows(t.subs, after.subs) && Grows(t.states, after.states)
    && Grows(t.flags, after.flags) && Grows(t.displays, after.displays)
  }

  // ----------------------------------------------------------------------------------- tokens

  // x & (m - 1), for a power of two m
  function Low(x: int, m: nat): (r: nat)
    requires m > 0
    ensures r < m
  {
    if 0 <= x < m then x else x % m
  }

  function ByteOf(x: int): Byte { Low(x, 256) }

  function Chars(s: string): (b: seq<Byte>)
    ensures |b| == |s|
  {
    seq(|s|, i requires 0 <= i < |s| => s[i] as int % 256)
  }

  predicate WordIs(args: seq<Token>, i: nat, w: string) {
    i < |args| && args[i].Word? && SameName(args[i].text, w)
  }

  // process_token for a string: at most `size` characters are taken.
  function Text(args: seq<Token>, i: nat, size: nat): (s: Option<string>)
    ensures s.Some? <==> i < |args| && args[i].Str?
    ensures s.Some? ==> s.value <= args[i].text && |s.value| == if |args[i].text| < size then |args[i].text| else size
  {
    if i < |args| && args[i].Str? then
      Some(if |args[i].text| <= size then args[i].text else args[i].text[..size])
    else None
  }

  function Number(args: seq<Token>, i: nat): (n: Option<int>)
    ensures n.Some? <==> i < |args| && args[i].Num?
    ensures n.Some? ==> args[i] == Num(n.value)
  {
    if i < |args| && args[i].Num? then Some(args[i].value) else None
  }

  // ------------------------------------------------------------------------- tables of words

  const EVENTS: seq<string> := [
    "CALLERID", "VMWI", "NEARANSWER", "FARANSWER", "ENDOFRING", "IDLE", "OFFHOOK", "CIDCW", "BUSY", "FARRING",
    "DIALTONE", "RECALL", "MESSAGE", "REORDER", "DISTINCTIVERING", "RING", "REMINDERRING", "SPECIALRING",
    "CODEDRING", "TIMER", "INUSE", "EVENT22", "EVENT23", "CPEID"]

  const JUSTIFY: seq<string> := ["CENTER", "RIGHT", "LEFT", "INDENT"]

  function IndexOf(words: seq<string>, w: string): (x: Option<nat>)
    ensures x.Some? ==> x.value < |words| && SameName(words[x.value], w)
  {
    if words == [] then None
    else if SameName(words[0], w) then Some(0)
    else
      var x := IndexOf(words[1..], w);
      if x.Some? then Some(x.value + 1) else None
  }

  // geteventbyname; ids are from 1 up.
  function EventId(events: seq<string>, args: seq<Token>, i: nat): Option<Byte> {
    if i < |args| && args[i].Word? then
      var x := IndexOf(events, args[i].text);
      if x.Some? then Some(ByteOf(x.value + 1)) else None
    else None
  }

  // ------------------------------------------------------------------------------- arguments

  const DTMF := "123456789*0#ABCD"

  function Dtmf(s: string): seq<Byte> {
    if s == "" then [] else (if s[0] in DTMF then [s[0] as int % 256] else []) + Dtmf(s[1..])
  }

  // b | bit, for a bit that is a power of two
  function WithBit(b: Byte, bit: Byte): Byte
    requires bit > 0
  {
    if b / bit % 2 == 1 then b else ByteOf(b + bit)
  }

  // b | 0x80
  function Marked(b: Byte): Byte { if b < 0x80 then b + 0x80 else b }

  // A page or a direction and a number of lines.
  function LineBytes(args: seq<Token>, code: Byte, plain: string, marked: string, bit: Byte): seq<Byte>
    requires bit > 0
  {
    if Number(args, 1) == None then []
    else if WordIs(args, 0, plain) then [code, ByteOf(Number(args, 1).value)]
    else if WordIs(args, 0, marked) then [code, WithBit(ByteOf(Number(args, 1).value), bit)]
    else []
  }

  function FlagBytes(id: Byte, args: seq<Token>, flags: seq<Entry<()>>, on: bool): seq<Byte> {
    var name := Text(args, 0, 79);
    var x := if name.Some? then Lookup(flags, name.value) else None;
    if x == None then [] else [id, Low(x.value + FIRST_FLAG, 8) * 16 + if on then 1 else 0]
  }

  datatype KeyList = KeyList(ids: seq<Byte>, flag: nat, keys: seq<Entry<SoftKey>>)

  // The flag whose name is at place i, 0 if there is none.
  function FlagAt(args: seq<Token>, i: nat, flags: seq<Entry<()>>): (flag: nat)
    ensures flag <= |flags|
  {
    var name := Text(args, i, 79);
    var x := if name.Some? then Lookup(flags, name.value) else None;
    if x.Some? then x.value + FIRST_FLAG else 0
  }

  // What uninitialised memory holds at place x.
  function At(stale: seq<Byte>, x: nat): Byte { if x < |stale| then stale[x] else 0 }

  // The keys of a SHOWKEYS from place |ids| on. An argument that is no string leaves the id at its
  // place as it was in memory.
  function KeyArgs(args: seq<Token>, keys: seq<Entry<SoftKey>>, flags: seq<Entry<()>>, ids: seq<Byte>, stale: seq<Byte>)
      : (r: KeyList)
    requires |ids| <= 6
    ensures |r.ids| <= 6 && r.flag <= |flags| && (|keys| <= MAX_KEYS ==> |r.keys| <= MAX_KEYS)
    ensures keys <= r.keys && forall i :: |keys| <= i < |r.keys| ==> r.keys[i].data == BLANK_KEY
    decreases 6 - |ids|
  {
    var x := |ids|;
    if x >= |args| then KeyList(ids, 0, keys)
    else if WordIs(args, x, "UNLESS") then KeyList(ids, FlagAt(args, x + 1, flags), keys)
    else if x > 5 then KeyList(ids, 0, keys)
    else
      match Text(args, x, 79)
      case None => KeyArgs(args, keys, flags, ids + [At(stale, x)], stale)
      case Some(name) =>
        var r := Intern(keys, name, MAX_KEYS, BLANK_KEY);
        if r.found == None then KeyList(ids, 0, keys)
        else KeyArgs(args, r.table, flags, ids + [ByteOf(r.found.value + FIRST_KEY)], stale)
  }

  function ShowKeysBytes(id: Byte, r: KeyList): seq<Byte> {
    [id, Low(r.flag, 8) * 8 + Low(|r.ids|, 8)] + r.ids
  }

  // The flag number after UNLESS, which here is no name, and 0 without one.
  function UnlessNumber(args: seq<Token>, i: nat): int {
    if WordIs(args, i, "UNLESS") && Number(args, i + 1).Some? then Number(args, i + 1).value else 0
  }

  function ShowDisplayBytes(id: Byte, args: seq<Token>, displays: seq<Entry<seq<Byte>>>): seq<Byte> {
    var name := Text(args, 0, 79);
    var x := if name.Some? then Lookup(displays, name.value) else None;
    if x == None || !WordIs(args, 1, "AT") || Number(args, 2) == None then []
    else
      var noUpdate := WordIs(args, 3, "NOUPDATE");
      [id, (if noUpdate then 1 else 3) * 64 + Low(x.value + FIRST_DISPLAY, 64),
       Low(Number(args, 2).value, 32) * 8 + Low(UnlessNumber(args, if noUpdate then 4 else 3), 8)]
  }

  // getsubbyname on an argument
  function SubArg(args: seq<Token>, i: nat, subs: seq<Entry<Subscript>>): (r: Interned<Subscript>)
    ensures r.found.Some? ==> r.found.value < |r.table|
    ensures subs <= r.table && (|subs| <= MAX_SUBS ==> |r.table| <= MAX_SUBS)
    ensures forall i :: |subs| <= i < |r.table| ==> r.table[i].data == BLANK_SUB
  {
    var name := Text(args, i, 79);
    if name == None then Interned(subs, None) else Intern(subs, name.value, MAX_SUBS, BLANK_SUB)
  }

  function SubBytes(r: Interned<Subscript>): seq<Byte> {
    if r.found.Some? then [0x9d, ByteOf(r.found.value)] else []
  }

  // The states of an ONEVENT from place i on: how many, and the place after them; nothing for an
  // error.
  function InStates(args: seq<Token>, i: nat, states: seq<Entry<()>>, sawIn: bool, count: nat): (r: Option<(nat, nat)>)
    requires count <= 8
    ensures r.Some? ==> r.value.0 <= 8
    decreases |args| - i
  {
    if i >= |args| then if sawIn then Some((count, i)) else None
    else if WordIs(args, i, if sawIn then "OR" else "IN") then
      var name := Text(args, i + 1, 80);
      if count > 7 || name == None || Lookup(states, name.value) == None then None
      else InStates(args, i + 2, states, true, count + 1)
    else Some((count, i))
  }

  function Zeros(n: nat): seq<Byte> { seq(n, i => 0) }

  // The place of the subscript of an ONEVENT, if all before it is in order, and how many states.
  function EventStates(event: Option<Byte>, args: seq<Token>, states: seq<Entry<()>>): Option<(nat, nat)> {
    if event == None then None else InStates(args, 1, states, false, 0)
  }

  // The state bytes hold the result of a comparison, which is 0 for a state that exists.
  function EventBytes(event: Byte, count: nat, sub: nat): seq<Byte> {
    [8, event, Marked(ByteOf(sub))] + Zeros(count)
  }

  // -------------------------------------------------------------------------------- commands

  // The add_args functions that depend on their arguments alone. SENDDTMF is for keys only; a fixed
  // operand is that of CLEARCB1, CLEARDISPLAY, DIGITCOLLECT or DIGITDIRECT.
  datatype Builder =
    | SendDtmf | GotoLine | GotoLineRel | SendDelay | SetState | StartTimer | ClearTimer | Operand(value: Byte)

  function ArgBytes(how: Builder, id: Byte, args: seq<Token>): seq<Byte> {
    var n := Number(args, 0);
    match how
    case SendDtmf => if Text(args, 0, 79).Some? then Dtmf(Text(args, 0, 79).value) else []
    case GotoLine => LineBytes(args, 0x8b, "INFO", "COMM", 0x80)
    case GotoLineRel => LineBytes(args, 0x8c, "UP", "DOWN", 0x20)
    case SendDelay => if n == None then [] else [0x90, ByteOf(CDiv(n.value, if id == 11 then 100 else 10))]
    case SetState => if n == None then [] else [id, ByteOf(n.value)]
    case StartTimer => if n == None then [] else [id, 1, ByteOf(n.value)]
    case ClearTimer => [id, if id == 7 then 0x10 else 0]
    case Operand(value) => [id, value]
  }

  // struct adsi_key_cmd: a command that compiles to its id alone or to bytes that depend on its
  // arguments only, or one that looks names up, or adds them.
  datatype Command =
    | Plain(name: string, id: Byte)
    | Bytes(name: string, id: Byte, how: Builder)
    | Flag(name: string, id: Byte, on: bool)
    | ShowDisplay(name: string, id: Byte)
    | ShowKeys(name: string, id: Byte)
    | CallSub(name: string, id: Byte)
    | OnEvent(name: string, id: Byte)

  datatype Built = Built(bytes: seq<Byte>, tables: Tables)

  // The add_args functions: the bytes they append, and the tables they may have added names to.
  function Build(c: Command, events: seq<string>, args: seq<Token>, t: Tables, stale: seq<Byte>): (b: Built)
    ensures Extends(t, b.tables)
  {
    match c
    case Plain(_, id) => Built([id], t)
    case Bytes(_, id, how) => Built(ArgBytes(how, id, args), t)
    case Flag(_, id, on) => Built(FlagBytes(id, args, t.flags, on), t)
    case ShowDisplay(_, id) => Built(ShowDisplayBytes(id, args, t.displays), t)
    case ShowKeys(_, id) =>
      var r := KeyArgs(args, t.keys, t.flags, [], stale);
      Built(ShowKeysBytes(id, r), t.(keys := r.keys))
    case CallSub(_, id) =>
      var r := SubArg(args, 0, t.subs);
      Built(SubBytes(r), t.(subs := r.table))
    case OnEvent(_, _) =>
      var event := EventId(events, args, 0);
      var states := EventStates(event, args, t.states);
      if states == None then Built([], t)
      else
        var r := SubArg(args, states.value.1 + 1, t.subs);
        Built(if r.found == None then [] else EventBytes(event.value, states.value.0, r.found.value), t.(subs := r.table))
  }

  const KEY_COMMANDS: seq<Command> := [
    Bytes("SENDDTMF", 0, SendDtmf), Plain("ONHOOK", 0x81), Plain("OFFHOOK", 0x82), Plain("FLASH", 0x83),
    Plain("WAITDIALTONE", 0x84), Plain("BLANK", 0x86), Plain("SENDCHARS", 0x87), Plain("CLEARCHARS", 0x88),
    Plain("BACKSPACE", 0x89), Bytes("GOTOLINE", 0x8b, GotoLine), Bytes("GOTOLINEREL", 0x8c, GotoLineRel),
    Plain("PAGEUP", 0x8d), Plain("PAGEDOWN", 0x8e), Bytes("DELAY", 0x90, SendDelay), Plain("DIALPULSEONE", 0x91),
    Plain("DATAMODE", 0x92), Plain("VOICEMODE", 0x93), Bytes("CLEARCB1", 0x95, Operand(0)),
    Bytes("DIGITCOLLECT", 0x96, Operand(0xf)), Bytes("DIGITDIRECT", 0x96, Operand(0x7)), Plain("CLEAR", 0x97),
    ShowDisplay("SHOWDISPLAY", 0x98), Bytes("CLEARDISPLAY", 0x98, Operand(0)), ShowKeys("SHOWKEYS", 0x99),
    Bytes("SETSTATE", 0x9a, SetState), Bytes("TIMERSTART", 0x9b, StartTimer), Bytes("TIMERCLEAR", 0x9b, ClearTimer),
    Flag("SETFLAG", 0x9c, true), Flag("CLEARFLAG", 0x9c, false), CallSub("GOTO", 0x9d), Plain("EVENT22", 0x9e),
    Plain("EVENT23", 0x9f), Plain("EXIT", 0xa0)]

  const OP_COMMANDS: seq<Command> := [
    ShowKeys("SHOWKEYS", 2), ShowDisplay("SHOWDISPLAY", 3), Bytes("CLEARDISPLAY", 3, Operand(0)), Plain("CLEAR", 5),
    Bytes("SETSTATE", 6, SetState), Bytes("TIMERSTART", 7, StartTimer), Bytes("TIMERCLEAR", 7, ClearTimer),
    OnEvent("ONEVENT", 8), Flag("SETFLAG", 10, true), Flag("CLEARFLAG", 10, false), Bytes("DELAY", 11, SendDelay),
    Plain("EXIT", 12)]

  function FindCommand(cs: seq<Command>, name: string, from: nat := 0): (c: Option<nat>)
    requires from <= |cs|
    ensures c.Some? ==> c.value < |cs| && SameName(cs[c.value].name, name)
    ensures c == None ==> forall x :: from <= x < |cs| ==> !SameName(cs[x].name, name)
    decreases |cs| - from
  {
    if from == |cs| then None else if SameName(cs[from].name, name) then Some(from) else FindCommand(cs, name, from + 1)
  }
}
