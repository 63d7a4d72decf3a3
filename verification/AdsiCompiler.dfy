// The ADSI script compiler (apps/app_adsiprog.c): one line at a time it enters names in tables and
// appends to the byte records of soft keys, displays and subscripts, going back to fill in lengths
// and counts.
module AdsiCompiler {
  import opened Prelude
  import opened AdsiTables
  import opened AdsiCodes

  const MAX_RET_CODE := 20
  const MAX_SUB_LEN := 255
  const MAX_MAIN_LEN := 1600

  datatype Mode = InProgram | InKey(k: nat) | InSub(s: nat) | InIf(s: nat)

  datatype Script = Script(mode: Mode, t: Tables)

  // What memory that is left uninitialised holds: the ids of a SHOWKEYS, and the count of an
  // IFEVENT.
  datatype Stale = Stale(ids: seq<Byte>, count: Byte)

  // The tokens of a line, and what such memory holds meanwhile.
  datatype Line = Line(tokens: seq<Token>, stale: Stale)

  // The tables of words; nothing here depends on which they are.
  datatype Language = Language(
    keyCommands: seq<Command>, opCommands: seq<Command>, events: seq<string>, justify: seq<string>)

  const ADSI := Language(KEY_COMMANDS, OP_COMMANDS, EVENTS, JUSTIFY)

  const START := Script(InProgram, Tables([], [Entry("main", BLANK_SUB)], [], [], []))

  function Cut(s: string, n: nat): (r: string)
    ensures |r| <= n
  {
    if |s| <= n then s else s[..n]
  }

  // ----------------------------------------------------------------------------- outside blocks

  // The bytes of a key before its codes; byte 1 is for the length.
  function KeyHeader(k: nat, long: string, short: string): (h: seq<Byte>)
    ensures |h| == 5 + |long| + |short|
  {
    [128, 0, ByteOf(k + FIRST_KEY)] + Chars(long) + [255] + Chars(short) + [255]
  }

  // The names that a KEY line gives to the key: long and short.
  function KeyNamesOn(args: seq<Token>): (r: Option<(string, string)>)
    ensures r.Some? ==> |r.value.0| <= 18 && |r.value.1| <= 7
  {
    var short := Text(args, 2, 79);
    if !WordIs(args, 1, "IS") || short == None then None
    else if |args| == 3 then Some((Cut(short.value, 18), Cut(short.value, 7)))
    else if !WordIs(args, 3, "OR") || Text(args, 4, 79) == None then None
    else Some((Cut(Text(args, 4, 79).value, 18), Cut(short.value, 7)))
  }

  function DefineKey(s: Script, args: seq<Token>): Script {
    var name := Text(args, 0, 255);
    if name == None then s
    else
      var r := Intern(s.t.keys, name.value, MAX_KEYS, BLANK_KEY);
      var names := KeyNamesOn(args);
      if r.found == None || r.table[r.found.value].data.defined || names == None then s.(t := s.t.(keys := r.table))
      else
        var k := r.found.value;
        var header := KeyHeader(k, names.value.0, names.value.1);
        Script(InKey(k), PutKey(s.t.(keys := r.table), k, SoftKey(false, |header|, header)))
  }

  function PutKey(t: Tables, k: nat, key: SoftKey): Tables
    requires k < |t.keys|
  {
    t.(keys := t.keys[k := t.keys[k].(data := key)])
  }

  function PutSub(t: Tables, i: nat, sub: Subscript): Tables
    requires i < |t.subs|
  {
    t.(subs := t.subs[i := t.subs[i].(data := sub)])
  }

  // The bytes of a subscript before its instructions; byte 1 is for the length, byte 5 for the
  // number of instructions. Subscript 0, which is main, needs no label.
  function SubHeader(i: nat): (h: seq<Byte>)
    ensures |h| == if i == 0 then 3 else 7
  {
    if i == 0 then [130, 0, 0] else [130, 0, 0, 9, ByteOf(i), 0, 255]
  }

  function DefineSub(s: Script, args: seq<Token>): Script {
    var name := Text(args, 0, 255);
    if name == None then s
    else
      var r := Intern(s.t.subs, name.value, MAX_SUBS, BLANK_SUB);
      var t := s.t.(subs := r.table);
      if r.found == None || r.table[r.found.value].data.defined then s.(t := t)
      else
        var i := r.found.value;
        var t1 := PutSub(t, i, r.table[i].data.(data := SubHeader(i)));
        Script(if WordIs(args, 1, "IS") then InSub(i) else s.mode, t1)
  }

  function DefineName(names: seq<Entry<()>>, args: seq<Token>, max: nat): (r: seq<Entry<()>>)
    ensures names <= r && (|names| <= max ==> |r| <= max)
  {
    var name := Text(args, 0, 255);
    if name == None then names else Intern(names, name.value, max, ()).table
  }

  // The qualifiers of a DISPLAY from place i on: justification and wrap, unless one is wrong.
  function Qualifiers(justify: seq<string>, args: seq<Token>, i: nat, lrci: nat, wrap: bool): Option<(nat, bool)>
    decreases |args| - i
  {
    if i >= |args| then Some((lrci, wrap))
    else if WordIs(args, i, "JUSTIFY") then
      if i + 1 >= |args| then Some((lrci, wrap))
      else
        var j := if args[i + 1].Word? then IndexOf(justify, args[i + 1].text) else None;
        if j == None then None else Qualifiers(justify, args, i + 2, j.value, wrap)
    else if WordIs(args, i, "WRAP") then Qualifiers(justify, args, i + 1, lrci, true)
    else None
  }

  // Both columns, or one.
  function Columns(col1: string, col2: Option<string>): (c: seq<Byte>)
    ensures |c| <= 41
  {
    Chars(Cut(col1, 20)) + [255] + if col2.Some? then Chars(Cut(col2.value, 20)) else []
  }

  function DisplayData(justify: seq<string>, id: nat, args: seq<Token>): (d: seq<Byte>)
    ensures |d| <= 46
  {
    var col1, col2 := Text(args, 2, 79), Text(args, 3, 79);
    if !WordIs(args, 1, "IS") || col1 == None then []
    else
      var columns := Columns(col1.value, col2);
      var q := Qualifiers(justify, args, if col2.Some? then 4 else 3, 0, false);
      // a wrong qualifier leaves the header empty
      if q == None then [0, 0, 0, 0, 0] + columns
      else [129, ByteOf(|columns| + 3), Low(Low(q.value.0, 4) * 64 + id, 256), if q.value.1 then 0x80 else 0, 255] + columns
  }

  function DefineDisplay(justify: seq<string>, displays: seq<Entry<seq<Byte>>>, args: seq<Token>)
      : (r: seq<Entry<seq<Byte>>>)
    ensures displays <= r && (|displays| <= MAX_DISPLAYS ==> |r| <= MAX_DISPLAYS)
    ensures forall d :: |displays| <= d < |r| ==> r[d].data == DisplayData(justify, d + FIRST_DISPLAY, args)
  {
    var name := Text(args, 0, 255);
    if name == None || Lookup(displays, name.value).Some? then displays
    else Intern(displays, name.value, MAX_DISPLAYS, DisplayData(justify, |displays| + FIRST_DISPLAY, args)).table
  }

  function ProcessProgram(lang: Language, s: Script, args: seq<Token>, w: string): Script {
    var t := s.t;
    if SameName(w, "KEY") then DefineKey(s, args)
    else if SameName(w, "SUB") then DefineSub(s, args)
    else if SameName(w, "STATE") then s.(t := t.(states := DefineName(t.states, args, MAX_STATES)))
    else if SameName(w, "FLAG") then s.(t := t.(flags := DefineName(t.flags, args, MAX_FLAGS)))
    else if SameName(w, "DISPLAY") then s.(t := t.(displays := DefineDisplay(lang.justify, t.displays, args)))
    else s
  }

  // ------------------------------------------------------------------------------ inside blocks

  // What a command compiles to, if the word is one.
  function Assemble(commands: seq<Command>, events: seq<string>, w: string, args: seq<Token>, t: Tables, ids: seq<Byte>)
      : (b: Option<Built>)
    ensures b.Some? ==> Extends(t, b.value.tables)
  {
    var c := FindCommand(commands, w);
    if c == None then None else Some(Build(commands[c.value], events, args, t, ids))
  }

  // STATE_INKEY
  function ProcessKey(lang: Language, s: Script, k: nat, w: string, args: seq<Token>, stale: Stale): Script
    requires k < |s.t.keys|
  {
    var b := Assemble(lang.keyCommands, lang.events, w, args, s.t, stale.ids);
    if b.Some? then
      var key := s.t.keys[k].data;
      if |key.retstr| + |b.value.bytes| - key.initlen <= MAX_RET_CODE then
        s.(t := PutKey(b.value.tables, k, key.(retstr := key.retstr + b.value.bytes)))
      else s.(t := b.value.tables)
    else if SameName(w, "ENDKEY") then Script(InProgram, PutKey(s.t, k, EndKey(s.t.keys[k].data)))
    else s
  }

  function EndKey(key: SoftKey): SoftKey {
    key.(defined := true,
         retstr := if |key.retstr| > 1 then key.retstr[1 := ByteOf(|key.retstr| - 2)] else key.retstr)
  }

  // process_opcode: the tables afterwards, and the instruction if there was room for it.
  datatype Attempt = Attempt(t: Tables, op: Option<seq<Byte>>)

  function Opcode(lang: Language, t: Tables, i: nat, w: string, args: seq<Token>, stale: Stale): (a: Attempt)
    requires i < |t.subs|
    ensures Extends(t, a.t)
  {
    var b := Assemble(lang.opCommands, lang.events, w, args, t, stale.ids);
    if b == None then Attempt(t, None)
    else
      var room := |t.subs[i].data.data| + |b.value.bytes| + 1 <= if i > 0 then MAX_SUB_LEN else MAX_MAIN_LEN;
      Attempt(b.value.tables, if room then Some(b.value.bytes) else None)
  }

  // An instruction and the byte that separates instructions.
  function AddOp(sub: Subscript, op: seq<Byte>): Subscript {
    sub.(data := sub.data + op + [255], inscount := sub.inscount + 1)
  }

  function EndSub(i: nat, sub: Subscript): Subscript {
    sub.(defined := true, data := WithLengths(i, sub.data, sub.inscount))
  }

  function WithLengths(i: nat, data: seq<Byte>, count: nat): (r: seq<Byte>)
    ensures |r| == |data|
  {
    if |data| < |SubHeader(i)| then data
    else
      var d := data[1 := ByteOf(|data| - 2)];
      if i == 0 then d else d[5 := ByteOf(count)]
  }

  function BeginIf(sub: Subscript, event: Byte, stale: Byte): Subscript {
    sub.(data := sub.data + [1, event, stale, 255], inscount := sub.inscount + 1, ifinscount := 0, ifAt := |sub.data|)
  }

  function EndIf(sub: Subscript): Subscript {
    sub.(defined := true,
         data := if sub.ifAt + 2 < |sub.data| then sub.data[sub.ifAt + 2 := ByteOf(sub.ifinscount)] else sub.data)
  }

  function IfEvent(sub: Subscript): Byte { if sub.ifAt + 1 < |sub.data| then sub.data[sub.ifAt + 1] else 0 }

  // STATE_INSUB
  function ProcessSub(lang: Language, s: Script, i: nat, w: string, args: seq<Token>, stale: Stale): Script
    requires i < |s.t.subs|
  {
    var a := Opcode(lang, s.t, i, w, args, stale);
    if a.op.Some? then s.(t := PutSub(a.t, i, AddOp(s.t.subs[i].data, a.op.value)))
    else SubKeyword(lang, s.(t := a.t), i, w, args, stale.count)
  }

  function SubKeyword(lang: Language, s: Script, i: nat, w: string, args: seq<Token>, stale: Byte): Script
    requires i < |s.t.subs|
  {
    var sub := s.t.subs[i].data;
    if SameName(w, "ENDSUB") then Script(InProgram, PutSub(s.t, i, EndSub(i, sub)))
    else if SameName(w, "IFEVENT") && EventId(lang.events, args, 0).Some? && WordIs(args, 1, "THEN") then
      Script(InIf(i), PutSub(s.t, i, BeginIf(sub, EventId(lang.events, args, 0).value, stale)))
    else s
  }

  // STATE_INIF
  function ProcessIf(lang: Language, s: Script, i: nat, w: string, args: seq<Token>, stale: Stale): Script
    requires i < |s.t.subs|
  {
    var a := Opcode(lang, s.t, i, w, args, stale);
    if a.op.Some? then s.(t := PutSub(a.t, i, AddIfOp(s.t.subs[i].data, a.op.value)))
    else IfKeyword(s.(t := a.t), i, w, args)
  }

  function IfKeyword(s: Script, i: nat, w: string, args: seq<Token>): Script
    requires i < |s.t.subs|
  {
    var sub := s.t.subs[i].data;
    if SameName(w, "ENDIF") then Script(InSub(i), PutSub(s.t, i, EndIf(sub)))
    else if SameName(w, "GOTO") then
      var r := SubArg(args, 0, s.t.subs);
      var t1 := s.t.(subs := r.table);
      if r.found == None then s.(t := t1)
      else s.(t := PutSub(t1, i, AddIfOp(sub, [8, IfEvent(sub), ByteOf(r.found.value)])))
    else s
  }

  function AddIfOp(sub: Subscript, op: seq<Byte>): Subscript {
    AddOp(sub, op).(ifinscount := sub.ifinscount + 1)
  }

  // The block a script is in exists.
  predicate ModeOk(s: Script) {
    match s.mode
    case InProgram => true
    case InKey(k) => k < |s.t.keys|
    case InSub(i) => i < |s.t.subs|
    case InIf(i) => i < |s.t.subs|
  }

  // adsi_process
  function Process(lang: Language, s: Script, line: Line): (after: Script)
    requires ModeOk(s)
    ensures ModeOk(after)
  {
    if line.tokens == [] || !line.tokens[0].Word? then s
    else
      var w, args := line.tokens[0].text, line.tokens[1..];
      match s.mode
      case InProgram => ProcessProgram(lang, s, args, w)
      case InKey(k) => ProcessKey(lang, s, k, w, args, line.stale)
      case InSub(i) => ProcessSub(lang, s, i, w, args, line.stale)
      case InIf(i) => ProcessIf(lang, s, i, w, args, line.stale)
  }

  function Run(lang: Language, lines: seq<Line>): (s: Script)
    ensures ModeOk(s)
  {
    if lines == [] then START else Process(lang, Run(lang, lines[..|lines| - 1]), lines[|lines| - 1])
  }

  // The end of compile_script.
  function Finish(s: Script): Option<Tables> {
    if s.mode.InSub? || s.mode.InKey? || !AllDefined(s.t) then None else Some(LastMarked(s.t))
  }

  // The extension bit of the last subscript is cleared.
  function LastMarked(t: Tables): Tables {
    var last := |t.subs| - 1;
    if last < 0 || |t.subs[last].data.data| < 3 then t
    else
      var sub := t.subs[last].data;
      PutSub(t, last, sub.(data := sub.data[2 := 0x80]))
  }

  predicate AllDefined(t: Tables) {
    && (forall k :: 0 <= k < |t.keys| ==> t.keys[k].data.defined)
    && (forall i :: 0 <= i < |t.subs| ==> t.subs[i].data.defined)
  }
}
