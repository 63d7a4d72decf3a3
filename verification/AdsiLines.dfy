// What each kind of line of an ADSI script does to the records (apps/app_adsiprog.c:947-1359), byte
// by byte.
module AdsiLines {
  import opened Prelude
  import opened AdsiTables
  import opened AdsiCodes
  import opened AdsiCompiler
  import opened AdsiNames
  import opened AdsiWords

  predicate Starts(line: Line, w: string) {
    WordIs(line.tokens, 0, w)
  }

  function Args(line: Line): seq<Token>
    requires line.tokens != []
  {
    line.tokens[1..]
  }

  // Nothing but subscript i has changed, and only its record.
  predicate OnlySub(t: Tables, after: Tables, i: nat) {
    && |after.subs| == |t.subs| && after == t.(subs := after.subs)
    && forall j :: 0 <= j < |t.subs| ==> after.subs[j].name == t.subs[j].name && (j != i ==> after.subs[j] == t.subs[j])
  }

  predicate OnlyKey(t: Tables, after: Tables, k: nat) {
    && |after.keys| == |t.keys| && after == t.(keys := after.keys)
    && forall j :: 0 <= j < |t.keys| ==> after.keys[j].name == t.keys[j].name && (j != k ==> after.keys[j] == t.keys[j])
  }

  // ------------------------------------------------------------------------- commands

  // An instruction is appended with a separator, and counted, if that leaves the record within 1600
  // bytes for main and 255 for any other.
  lemma InstructionLine(lang: Language, s: Script, i: nat, line: Line)
    requires s.mode == InSub(i) && i < |s.t.subs| && Executes(lang, s, line)
    ensures var b, sub, after := BuiltFor(lang, s, line), s.t.subs[i].data, Process(lang, s, line);
      if |sub.data| + |b.bytes| + 1 <= (if i == 0 then 1600 else 255) then
        && after.mode == s.mode && OnlySub(b.tables, after.t, i)
        && after.t.subs[i].data == sub.(data := sub.data + b.bytes + [255], inscount := sub.inscount + 1)
      else Starts(line, "ENDSUB") || Starts(line, "IFEVENT") || after == s.(t := b.tables)
  {
  }

  lemma BlockInstructionLine(lang: Language, s: Script, i: nat, line: Line)
    requires s.mode == InIf(i) && i < |s.t.subs| && Executes(lang, s, line)
    ensures var b, sub, after := BuiltFor(lang, s, line), s.t.subs[i].data, Process(lang, s, line);
      if |sub.data| + |b.bytes| + 1 <= (if i == 0 then 1600 else 255) then
        && after.mode == s.mode && OnlySub(b.tables, after.t, i)
        && after.t.subs[i].data == sub.(data := sub.data + b.bytes + [255], inscount := sub.inscount + 1,
                                        ifinscount := sub.ifinscount + 1)
      else Starts(line, "ENDIF") || Starts(line, "GOTO") || after == s.(t := b.tables)
  {
  }

  // A code is appended to its key if the codes stay within 20 bytes.
  lemma CodeLine(lang: Language, s: Script, k: nat, line: Line)
    requires s.mode == InKey(k) && k < |s.t.keys| && Executes(lang, s, line)
    ensures var b, key, after := BuiltFor(lang, s, line), s.t.keys[k].data, Process(lang, s, line);
      if |key.retstr| + |b.bytes| - key.initlen <= 20 then
        && after.mode == s.mode && OnlyKey(b.tables, after.t, k)
        && after.t.keys[k].data == key.(retstr := key.retstr + b.bytes)
      else after == s.(t := b.tables)
  {
  }

  // So EXIT appends 12 and OFFHOOK 0x82.
  lemma ExitLine(s: Script, i: nat, line: Line)
    requires s.mode == InSub(i) && i < |s.t.subs| && Starts(line, "EXIT")
    requires |s.t.subs[i].data.data| + 2 <= if i == 0 then 1600 else 255
    ensures Process(ADSI, s, line).t.subs[i].data.data == s.t.subs[i].data.data + [12, 255]
  {
    var w := line.tokens[0].text;
    OpWord(Plain("EXIT", 12), w);
    InstructionLine(ADSI, s, i, line);
    assert BuiltFor(ADSI, s, line).bytes == [12];
    assert s.t.subs[i].data.data + [12] + [255] == s.t.subs[i].data.data + [12, 255];
  }

  lemma OffhookLine(s: Script, k: nat, line: Line)
    requires s.mode == InKey(k) && k < |s.t.keys| && Starts(line, "OFFHOOK")
    requires |s.t.keys[k].data.retstr| + 1 - s.t.keys[k].data.initlen <= 20
    ensures Process(ADSI, s, line).t.keys[k].data.retstr == s.t.keys[k].data.retstr + [0x82]
  {
    var w := line.tokens[0].text;
    KeyWord(Plain("OFFHOOK", 0x82), w);
    CodeLine(ADSI, s, k, line);
    assert BuiltFor(ADSI, s, line).bytes == [0x82];
  }

  // ------------------------------------------------------------------------- blocks end

  predicate NoCommandOf(lang: Language, s: Script, line: Line) {
    line.tokens != [] && line.tokens[0].Word? && FindCommand(Commands(lang, s.mode), line.tokens[0].text) == None
  }

  lemma EndKeyLine(lang: Language, s: Script, k: nat, line: Line)
    requires s.mode == InKey(k) && k < |s.t.keys| && NoCommandOf(lang, s, line)
    ensures var key, after := s.t.keys[k].data, Process(lang, s, line);
      if Starts(line, "ENDKEY") then
        && after.mode == InProgram && OnlyKey(s.t, after.t, k)
        && var ended := after.t.keys[k].data;
          && ended == key.(defined := true, retstr := ended.retstr) && |ended.retstr| == |key.retstr|
          && forall j :: 0 <= j < |key.retstr| ==>
               ended.retstr[j] == if j == 1 then (|key.retstr| - 2) % 256 else key.retstr[j]
      else after == s
  {
  }

  // ENDSUB stores the length and, except in main, the number of instructions.
  lemma EndSubLine(lang: Language, s: Script, i: nat, line: Line)
    requires s.mode == InSub(i) && i < |s.t.subs| && NoCommandOf(lang, s, line) && Starts(line, "ENDSUB")
    requires |s.t.subs[i].data.data| >= if i == 0 then 3 else 7
    ensures var sub, after := s.t.subs[i].data, Process(lang, s, line);
      && after.mode == InProgram && OnlySub(s.t, after.t, i)
      && var ended := after.t.subs[i].data;
        && ended == sub.(defined := true, data := ended.data) && |ended.data| == |sub.data|
        && forall j :: 0 <= j < |sub.data| ==>
             ended.data[j] == if j == 1 then (|sub.data| - 2) % 256
                              else if j == 5 && i > 0 then sub.inscount % 256 else sub.data[j]
  {
  }

  // IFEVENT reserves the header of its block; its count is whatever memory held.
  lemma IfEventLine(lang: Language, s: Script, i: nat, line: Line)
    requires s.mode == InSub(i) && i < |s.t.subs| && NoCommandOf(lang, s, line)
    requires Starts(line, "IFEVENT") && !Starts(line, "ENDSUB")
    ensures var sub, after, event := s.t.subs[i].data, Process(lang, s, line), EventId(lang.events, Args(line), 0);
      if event == None || !WordIs(line.tokens, 2, "THEN") then after == s
      else
        && after.mode == InIf(i) && OnlySub(s.t, after.t, i)
        && after.t.subs[i].data == Subscript(sub.defined, sub.data + [1, event.value, line.stale.count, 255],
                                             sub.inscount + 1, 0, |sub.data|)
  {
  }

  lemma EndIfLine(lang: Language, s: Script, i: nat, line: Line)
    requires s.mode == InIf(i) && i < |s.t.subs| && NoCommandOf(lang, s, line) && Starts(line, "ENDIF")
    ensures var sub, after := s.t.subs[i].data, Process(lang, s, line);
      && after.mode == InSub(i) && OnlySub(s.t, after.t, i)
      && var ended := after.t.subs[i].data;
        && ended == sub.(defined := true, data := ended.data) && |ended.data| == |sub.data|
        && forall j :: 0 <= j < |sub.data| ==>
             ended.data[j] == if j == sub.ifAt + 2 then sub.ifinscount % 256 else sub.data[j]
  {
  }

  // GOTO in a block repeats its event; it is counted without regard to the room left.
  lemma BlockGotoLine(lang: Language, s: Script, i: nat, line: Line)
    requires s.mode == InIf(i) && i < |s.t.subs| && NoCommandOf(lang, s, line)
    requires Starts(line, "GOTO") && !Starts(line, "ENDIF") && s.t.subs[i].data.ifAt + 1 < |s.t.subs[i].data.data|
    ensures var sub, after, r := s.t.subs[i].data, Process(lang, s, line), SubArg(Args(line), 0, s.t.subs);
      && after.mode == s.mode
      && if r.found == None then after.t == s.t.(subs := r.table)
         else
           && OnlySub(s.t.(subs := r.table), after.t, i)
           && after.t.subs[i].data == sub.(data := sub.data + [8, sub.data[sub.ifAt + 1], r.found.value % 256, 255],
                                           inscount := sub.inscount + 1, ifinscount := sub.ifinscount + 1)
  {
  }

  // ------------------------------------------------------------------- lines outside of blocks

  lemma KeywordsApart(w: string)
    ensures SameName(w, "SUB") ==> !SameName(w, "KEY")
    ensures SameName(w, "STATE") ==> !SameName(w, "KEY") && !SameName(w, "SUB")
    ensures SameName(w, "FLAG") ==> !SameName(w, "KEY") && !SameName(w, "SUB") && !SameName(w, "STATE")
    ensures SameName(w, "DISPLAY") ==>
      !SameName(w, "KEY") && !SameName(w, "SUB") && !SameName(w, "STATE") && !SameName(w, "FLAG")
  {
    assert |Lower("SUB")| == 3 && |Lower("KEY")| == 3 && |Lower("STATE")| == 5 && |Lower("FLAG")| == 4;
    assert |Lower("DISPLAY")| == 7 && Lower("SUB")[0] == 's' && Lower("KEY")[0] == 'k';
  }

  // A text of one-byte characters can be read back from its bytes.
  lemma CharsRead(text: string, i: nat)
    requires i < |text| && text[i] as int < 256
    ensures Chars(text)[i] as char == text[i]
  {
  }

  // The first characters of a name.
  predicate IsCut(s: string, of: string, n: nat) {
    s <= of && |s| == if |of| < n then |of| else n
  }

  // Which KEY lines name the key: IS and a string, and nothing more, or OR and a string.
  lemma NamingLines(args: seq<Token>)
    ensures KeyNamesOn(args).Some? <==>
      WordIs(args, 1, "IS") && |args| > 2 && args[2].Str?
      && (|args| == 3 || (WordIs(args, 3, "OR") && |args| > 4 && args[4].Str?))
  {
  }

  lemma NamesRead(args: seq<Token>, short: string, long: string) returns (l: string, sh: string)
    requires |args| >= 3 && WordIs(args, 1, "IS") && args[2] == Str(short)
    requires if |args| == 3 then long == short else |args| >= 5 && WordIs(args, 3, "OR") && args[4] == Str(long)
    ensures KeyNamesOn(args) == Some((l, sh)) && IsCut(l, long, 18) && IsCut(sh, short, 7)
  {
    l, sh := KeyNamesOn(args).value.0, KeyNamesOn(args).value.1;
  }

  // KEY name IS short, or KEY name IS short OR long: the long name comes first in the record.
  lemma KeyLine(lang: Language, s: Script, line: Line, name: string, short: string, long: string)
      returns (l: string, sh: string)
    requires s.mode == InProgram && Starts(line, "KEY") && |name| <= 255
    requires |line.tokens| >= 4 && line.tokens[1] == Str(name) && WordIs(line.tokens, 2, "IS") && line.tokens[3] == Str(short)
    requires if |line.tokens| == 4 then long == short
             else |line.tokens| >= 6 && WordIs(line.tokens, 4, "OR") && line.tokens[5] == Str(long)
    ensures IsCut(l, long, 18) && IsCut(sh, short, 7)
    ensures var r, after := Intern(s.t.keys, name, 62, BLANK_KEY), Process(lang, s, line);
      if r.found == None || r.table[r.found.value].data.defined then after == s.(t := s.t.(keys := r.table))
      else
        var k := r.found.value;
        && after.mode == InKey(k) && OnlyKey(s.t.(keys := r.table), after.t, k)
        && after.t.keys[k].data ==
           SoftKey(false, 5 + |l| + |sh|, [128, 0, ByteOf(k + 2)] + Chars(l) + [255] + Chars(sh) + [255])
  {
    var args := line.tokens[1..];
    assert args[0] == Str(name) && WordIs(args, 1, "IS") && args[2] == Str(short);
    assert |args| > 3 ==> WordIs(args, 3, "OR") && args[4] == Str(long);
    l, sh := NamesRead(args, short, long);
    assert Process(lang, s, line) == DefineKey(s, args);
  }

  // The header is written even if IS is missing, and then the block is not entered.
  lemma SubLine(lang: Language, s: Script, line: Line, name: string)
    requires s.mode == InProgram && Starts(line, "SUB") && |name| <= 255
    requires |line.tokens| >= 2 && line.tokens[1] == Str(name)
    ensures var r, after := Intern(s.t.subs, name, 128, BLANK_SUB), Process(lang, s, line);
      if r.found == None || r.table[r.found.value].data.defined then after == s.(t := s.t.(subs := r.table))
      else
        var i := r.found.value;
        && after.mode == (if WordIs(line.tokens, 2, "IS") then InSub(i) else InProgram)
        && OnlySub(s.t.(subs := r.table), after.t, i)
        && after.t.subs[i].data ==
           r.table[i].data.(data := if i == 0 then [130, 0, 0] else [130, 0, 0, 9, ByteOf(i), 0, 255])
  {
    KeywordsApart(line.tokens[0].text);
    var args := line.tokens[1..];
    assert args[0] == Str(name) && (WordIs(args, 1, "IS") <==> WordIs(line.tokens, 2, "IS"));
  }

  lemma StateLine(lang: Language, s: Script, line: Line, name: string)
    requires s.mode == InProgram && Starts(line, "STATE") && |name| <= 255
    requires |line.tokens| >= 2 && line.tokens[1] == Str(name)
    ensures Process(lang, s, line) == s.(t := s.t.(states := Intern(s.t.states, name, 254, ()).table))
  {
    KeywordsApart(line.tokens[0].text);
    assert line.tokens[1..][0] == Str(name);
  }

  lemma FlagLine(lang: Language, s: Script, line: Line, name: string)
    requires s.mode == InProgram && Starts(line, "FLAG") && |name| <= 255
    requires |line.tokens| >= 2 && line.tokens[1] == Str(name)
    ensures Process(lang, s, line) == s.(t := s.t.(flags := Intern(s.t.flags, name, 7, ()).table))
  {
    KeywordsApart(line.tokens[0].text);
    assert line.tokens[1..][0] == Str(name);
  }

  // -------------------------------------------------------------------------------- displays

  datatype Qualifier = Justified(j: nat) | Wrapped

  // The qualifiers that a DISPLAY line has from token i on; a JUSTIFY at its end counts for none.
  predicate Spells(justify: seq<string>, args: seq<Token>, i: nat, qs: seq<Qualifier>)
    decreases |qs|
  {
    if qs == [] then i >= |args| || (i + 1 == |args| && WordIs(args, i, "JUSTIFY"))
    else
      match qs[0]
      case Wrapped => WordIs(args, i, "WRAP") && Spells(justify, args, i + 1, qs[1..])
      case Justified(j) =>
        && WordIs(args, i, "JUSTIFY") && i + 1 < |args| && args[i + 1].Word?
        && IndexOf(justify, args[i + 1].text) == Some(j) && Spells(justify, args, i + 2, qs[1..])
  }

  // The last justification counts.
  function LastOf(qs: seq<Qualifier>, before: nat): nat {
    if qs == [] then before
    else LastOf(qs[1..], if qs[0].Justified? then qs[0].j else before)
  }

  lemma JustifyNotWrap(w: string)
    requires SameName(w, "WRAP")
    ensures !SameName(w, "JUSTIFY")
  {
    assert |Lower("WRAP")| == 4 && |Lower("JUSTIFY")| == 7;
  }

  lemma {:induction false} QualifiersSpelled(justify: seq<string>, args: seq<Token>, i: nat, lrci: nat, wrap: bool,
                                             qs: seq<Qualifier>)
    requires Spells(justify, args, i, qs)
    ensures Qualifiers(justify, args, i, lrci, wrap) == Some((LastOf(qs, lrci), wrap || Wrapped in qs))
    decreases |qs|
  {
    if qs != [] {
      assert Wrapped in qs <==> qs[0] == Wrapped || Wrapped in qs[1..];
      if qs[0].Wrapped? {
        JustifyNotWrap(args[i].text);
        QualifiersSpelled(justify, args, i + 1, lrci, true, qs[1..]);
      } else {
        QualifiersSpelled(justify, args, i + 2, qs[0].j, wrap, qs[1..]);
      }
    }
  }

  lemma {:induction false} QualifiersRead(justify: seq<string>, args: seq<Token>, i: nat, lrci: nat, wrap: bool)
      returns (qs: seq<Qualifier>)
    requires Qualifiers(justify, args, i, lrci, wrap).Some?
    ensures Spells(justify, args, i, qs)
    decreases |args| - i
  {
    qs := [];
    if i < |args| {
      if WordIs(args, i, "JUSTIFY") && i + 1 < |args| {
        var j := IndexOf(justify, args[i + 1].text).value;
        var rest := QualifiersRead(justify, args, i + 2, j, wrap);
        qs := [Justified(j)] + rest;
        assert qs[1..] == rest;
      } else if !WordIs(args, i, "JUSTIFY") {
        var rest := QualifiersRead(justify, args, i + 1, lrci, true);
        qs := [Wrapped] + rest;
        assert qs[1..] == rest;
      }
    }
  }

  // The columns of a DISPLAY line, one or two, of at most 20 characters each.
  lemma ColumnsRead(args: seq<Token>, one: string, two: Option<string>) returns (c1: string, c2: string)
    requires |args| >= 3 && args[2] == Str(one)
    requires if two.Some? then |args| >= 4 && args[3] == Str(two.value) else |args| == 3 || !args[3].Str?
    ensures IsCut(c1, one, 20) && IsCut(c2, if two.Some? then two.value else "", 20)
    ensures Text(args, 2, 79).Some? && Columns(Text(args, 2, 79).value, Text(args, 3, 79)) == Chars(c1) + [255] + Chars(c2)
  {
    var one1, two1 := Text(args, 2, 79).value, Text(args, 3, 79);
    c1, c2 := Cut(one1, 20), if two1.Some? then Cut(two1.value, 20) else "";
    assert Chars("") == [];
  }

  lemma JustifyBits(j: nat, id: nat)
    requires id < 64
    ensures Low(Low(j, 4) * 64 + id, 256) == j % 4 * 64 + id
  {
  }

  function DisplayHeader(n: nat, id: nat, qs: seq<Qualifier>): (h: seq<Byte>)
    requires n < 256 && id < 64
    ensures |h| == 5
  {
    [129, n, LastOf(qs, 0) % 4 * 64 + id, if Wrapped in qs then 0x80 else 0, 255]
  }

  // A display is its header, with the length, the id, the last justification and whether there is a
  // WRAP, and its columns.
  lemma DisplayBytes(justify: seq<string>, id: nat, args: seq<Token>, qs: seq<Qualifier>)
    requires WordIs(args, 1, "IS") && |args| >= 3 && args[2].Str? && id < 64
    requires Spells(justify, args, if |args| > 3 && args[3].Str? then 4 else 3, qs)
    ensures var columns := Columns(Text(args, 2, 79).value, Text(args, 3, 79));
      DisplayData(justify, id, args) == DisplayHeader(|columns| + 3, id, qs) + columns
  {
    QualifiersSpelled(justify, args, if |args| > 3 && args[3].Str? then 4 else 3, 0, false, qs);
    JustifyBits(LastOf(qs, 0), id);
  }

  // A line with anything else as a qualifier leaves the header at zero.
  lemma WrongQualifier(justify: seq<string>, id: nat, args: seq<Token>, i: nat)
    requires WordIs(args, 1, "IS") && |args| >= 3 && args[2].Str? && i == if |args| > 3 && args[3].Str? then 4 else 3
    requires forall qs :: !Spells(justify, args, i, qs)
    ensures var d := DisplayData(justify, id, args); |d| >= 6 && d[..5] == [0, 0, 0, 0, 0]
  {
    if Qualifiers(justify, args, i, 0, false).Some? {
      var qs := QualifiersRead(justify, args, i, 0, false);
    }
  }

  lemma NoColumns(justify: seq<string>, id: nat, args: seq<Token>)
    ensures DisplayData(justify, id, args) == [] <==> !WordIs(args, 1, "IS") || |args| < 3 || !args[2].Str?
  {
  }

  // The DISPLAY line enters a new name with these bytes; a name that is in use stays as it is.
  lemma DisplayLine(lang: Language, s: Script, line: Line, name: string)
    requires s.mode == InProgram && Starts(line, "DISPLAY") && |name| <= 255
    requires |line.tokens| >= 2 && line.tokens[1] == Str(name)
    ensures var after, n := Process(lang, s, line), |s.t.displays|;
      if Lookup(s.t.displays, name).Some? || n >= 62 then after == s
      else
        && |after.t.displays| == n + 1 && after.t.displays[..n] == s.t.displays
        && IsCut(after.t.displays[n].name, name, 39)
        && after.t.displays[n].data == DisplayData(lang.justify, n + 1, line.tokens[1..])
  {
    KeywordsApart(line.tokens[0].text);
    assert line.tokens[1..][0] == Str(name);
  }
}
