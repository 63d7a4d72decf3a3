// What a name of an ADSI script stands for (apps/app_adsiprog.c), over a whole compilation.
module AdsiNames {
  import opened Prelude
  import opened AdsiTables
  import opened AdsiCodes
  import opened AdsiCompiler
  import opened AdsiDecode

  ghost predicate NamesKept(t: Tables, after: Tables) {
    NamesGrow(t, after) && (TablesFit(t) ==> TablesFit(after))
  }

  lemma ExtendsKept(t: Tables, after: Tables)
    requires Extends(t, after)
    ensures NamesKept(t, after)
  {
  }

  lemma ProgramNames(lang: Language, s: Script, args: seq<Token>, w: string)
    ensures NamesKept(s.t, ProcessProgram(lang, s, args, w).t)
  {
    if SameName(w, "KEY") {
      DefineKeyNames(s, args);
    } else if SameName(w, "SUB") {
      DefineSubNames(s, args);
    }
  }

  lemma DefineKeyNames(s: Script, args: seq<Token>)
    ensures NamesKept(s.t, DefineKey(s, args).t)
  {
  }

  lemma DefineSubNames(s: Script, args: seq<Token>)
    ensures NamesKept(s.t, DefineSub(s, args).t)
  {
  }

  lemma KeyNamesKept(lang: Language, s: Script, k: nat, w: string, args: seq<Token>, stale: Stale)
    requires k < |s.t.keys|
    ensures NamesKept(s.t, ProcessKey(lang, s, k, w, args, stale).t)
  {
    var b := Assemble(lang.keyCommands, lang.events, w, args, s.t, stale.ids);
    if b.Some? {
      ExtendsKept(s.t, b.value.tables);
    }
  }

  lemma SubNamesKept(lang: Language, s: Script, i: nat, w: string, args: seq<Token>, stale: Stale)
    requires i < |s.t.subs|
    ensures NamesKept(s.t, ProcessSub(lang, s, i, w, args, stale).t)
  {
    ExtendsKept(s.t, Opcode(lang, s.t, i, w, args, stale).t);
  }

  lemma SubArgExtends(t: Tables, args: seq<Token>, i: nat)
    ensures Extends(t, t.(subs := SubArg(args, i, t.subs).table))
  {
  }

  lemma IfNamesKept(lang: Language, s: Script, i: nat, w: string, args: seq<Token>, stale: Stale)
    requires i < |s.t.subs|
    ensures NamesKept(s.t, ProcessIf(lang, s, i, w, args, stale).t)
  {
    var a := Opcode(lang, s.t, i, w, args, stale);
    var t1 := a.t.(subs := SubArg(args, 0, a.t.subs).table);
    SubArgExtends(a.t, args, 0);
    ExtendsKept(s.t, a.t);
    ExtendsKept(s.t, t1);
  }

  lemma LineNames(lang: Language, s: Script, line: Line)
    requires ModeOk(s)
    ensures NamesKept(s.t, Process(lang, s, line).t)
  {
    if line.tokens != [] && line.tokens[0].Word? {
      var w, args := line.tokens[0].text, line.tokens[1..];
      match s.mode
      case InProgram => ProgramNames(lang, s, args, w);
      case InKey(k) => KeyNamesKept(lang, s, k, w, args, line.stale);
      case InSub(i) => SubNamesKept(lang, s, i, w, args, line.stale);
      case InIf(i) => IfNamesKept(lang, s, i, w, args, line.stale);
    }
  }

  function TablesAfter(lang: Language, lines: seq<Line>): Tables { Run(lang, lines).t }

  lemma LastLineNames(lang: Language, lines: seq<Line>)
    requires lines != []
    ensures NamesGrow(TablesAfter(lang, lines[..|lines| - 1]), TablesAfter(lang, lines))
  {
    LineNames(lang, Run(lang, lines[..|lines| - 1]), lines[|lines| - 1]);
  }

  lemma {:induction false} RunNames(lang: Language, lines: seq<Line>, n: nat)
    requires n <= |lines|
    ensures NamesGrow(TablesAfter(lang, lines[..n]), TablesAfter(lang, lines))
    decreases |lines|
  {
    if n == |lines| {
      assert lines[..n] == lines;
    } else {
      var before := lines[..|lines| - 1];
      assert before[..n] == lines[..n];
      RunNames(lang, before, n);
      LastLineNames(lang, lines);
      NamesGrowOn(TablesAfter(lang, lines[..n]), TablesAfter(lang, before), TablesAfter(lang, lines));
    }
  }

  lemma NamesGrowOn(a: Tables, b: Tables, c: Tables)
    requires NamesGrow(a, b) && NamesGrow(b, c)
    ensures NamesGrow(a, c)
  {
    GrowsTransitively(a.keys, b.keys, c.keys);
    GrowsTransitively(a.subs, b.subs, c.subs);
    GrowsTransitively(a.states, b.states, c.states);
    GrowsTransitively(a.flags, b.flags, c.flags);
    GrowsTransitively(a.displays, b.displays, c.displays);
  }

  // An id, once given to a name, is never given up later in the script.
  lemma IdsNeverChange(lang: Language, lines: seq<Line>, n: nat, name: string)
    requires n <= |lines|
    ensures var t, after := Run(lang, lines[..n]).t, Run(lang, lines).t;
      && (Lookup(t.keys, name).Some? ==> Lookup(after.keys, name) == Lookup(t.keys, name))
      && (Lookup(t.subs, name).Some? ==> Lookup(after.subs, name) == Lookup(t.subs, name))
      && (Lookup(t.states, name).Some? ==> Lookup(after.states, name) == Lookup(t.states, name))
      && (Lookup(t.flags, name).Some? ==> Lookup(after.flags, name) == Lookup(t.flags, name))
      && (Lookup(t.displays, name).Some? ==> Lookup(after.displays, name) == Lookup(t.displays, name))
  {
    RunNames(lang, lines, n);
    var t, after := Run(lang, lines[..n]).t, Run(lang, lines).t;
    if Lookup(t.keys, name).Some? { LookupStays(t.keys, after.keys, name); }
    if Lookup(t.subs, name).Some? { LookupStays(t.subs, after.subs, name); }
    if Lookup(t.states, name).Some? { LookupStays(t.states, after.states, name); }
    if Lookup(t.flags, name).Some? { LookupStays(t.flags, after.flags, name); }
    if Lookup(t.displays, name).Some? { LookupStays(t.displays, after.displays, name); }
  }

  // The tables stay within their arrays, so ids stay within their fields.
  lemma {:induction false} TablesAlwaysFit(lang: Language, lines: seq<Line>)
    ensures TablesFit(Run(lang, lines).t)
  {
    if lines != [] {
      TablesAlwaysFit(lang, lines[..|lines| - 1]);
      LineNames(lang, Run(lang, lines[..|lines| - 1]), lines[|lines| - 1]);
    }
  }

  // ------------------------------------------------------------------------ the ids emitted

  // The commands of the block a script is in; there are none outside of blocks.
  function Commands(lang: Language, mode: Mode): seq<Command> {
    match mode
    case InProgram => []
    case InKey(_) => lang.keyCommands
    case _ => lang.opCommands
  }

  predicate Executes(lang: Language, s: Script, line: Line) {
    line.tokens != [] && line.tokens[0].Word? && FindCommand(Commands(lang, s.mode), line.tokens[0].text).Some?
  }

  function CommandOf(lang: Language, s: Script, line: Line): Command
    requires Executes(lang, s, line)
  {
    var cs := Commands(lang, s.mode);
    cs[FindCommand(cs, line.tokens[0].text).value]
  }

  function BuiltFor(lang: Language, s: Script, line: Line): Built
    requires Executes(lang, s, line)
  {
    Build(CommandOf(lang, s, line), lang.events, line.tokens[1..], s.t, line.stale.ids)
  }

  lemma BuiltGrowsInKey(lang: Language, s: Script, k: nat, line: Line)
    requires s.mode == InKey(k) && k < |s.t.keys| && Executes(lang, s, line)
    ensures NamesGrow(BuiltFor(lang, s, line).tables, Process(lang, s, line).t)
  {
  }

  lemma BuiltGrowsInSub(lang: Language, s: Script, i: nat, line: Line)
    requires s.mode == InSub(i) && i < |s.t.subs| && Executes(lang, s, line)
    ensures NamesGrow(BuiltFor(lang, s, line).tables, Process(lang, s, line).t)
  {
  }

  lemma IfKeywordNames(s: Script, i: nat, w: string, args: seq<Token>)
    requires i < |s.t.subs|
    ensures NamesGrow(s.t, IfKeyword(s, i, w, args).t)
  {
    SubArgExtends(s.t, args, 0);
  }

  lemma BuiltGrowsInIf(lang: Language, s: Script, i: nat, line: Line)
    requires s.mode == InIf(i) && i < |s.t.subs| && Executes(lang, s, line)
    ensures NamesGrow(BuiltFor(lang, s, line).tables, Process(lang, s, line).t)
  {
    IfKeywordNames(s.(t := BuiltFor(lang, s, line).tables), i, line.tokens[0].text, line.tokens[1..]);
  }

  lemma BuiltGrows(lang: Language, s: Script, line: Line)
    requires ModeOk(s) && Executes(lang, s, line)
    ensures NamesGrow(BuiltFor(lang, s, line).tables, Process(lang, s, line).t)
  {
    match s.mode
    case InProgram =>
    case InKey(k) => BuiltGrowsInKey(lang, s, k, line);
    case InSub(i) => BuiltGrowsInSub(lang, s, i, line);
    case InIf(i) => BuiltGrowsInIf(lang, s, i, line);
  }

  lemma AfterLine(lang: Language, lines: seq<Line>, n: nat)
    requires n < |lines|
    ensures Run(lang, lines[..n + 1]) == Process(lang, Run(lang, lines[..n]), lines[n])
  {
    assert lines[..n + 1][..n] == lines[..n];
  }

  // Whatever command a line of a script gives, it compiles to nothing exactly when something it needs
  // is not there, and otherwise its bytes are its code and what its arguments say, the ids in them
  // being those its names have in the tables at the end of the script and of the accepted script.
  lemma EmittedIds(lang: Language, lines: seq<Line>, n: nat)
    requires n < |lines| && Executes(lang, Run(lang, lines[..n]), lines[n])
    ensures var s, line := Run(lang, lines[..n]), lines[n];
      var c, b := CommandOf(lang, s, line), BuiltFor(lang, s, line).bytes;
      && (b == [] <==> Silent(c, lang.events, line.tokens[1..], s.t))
      && BytesRead(c, lang.events, line.tokens[1..], Run(lang, lines).t, b, line.stale.ids)
      && (Finish(Run(lang, lines)).Some? ==>
            BytesRead(c, lang.events, line.tokens[1..], Finish(Run(lang, lines)).value, b, line.stale.ids))
  {
    var s, line := Run(lang, lines[..n]), lines[n];
    var c, built := CommandOf(lang, s, line), BuiltFor(lang, s, line);
    TablesAlwaysFit(lang, lines[..n]);
    BuildRead(c, lang.events, line.tokens[1..], s.t, line.stale.ids);
    SilentIff(c, lang.events, line.tokens[1..], s.t, line.stale.ids);
    BuiltGrows(lang, s, line);
    AfterLine(lang, lines, n);
    RunNames(lang, lines, n + 1);
    NamesGrowOn(built.tables, TablesAfter(lang, lines[..n + 1]), TablesAfter(lang, lines));
    ReadStays(c, lang.events, line.tokens[1..], built.tables, Run(lang, lines).t, built.bytes, line.stale.ids);
    if Finish(Run(lang, lines)).Some? {
      FinishedNames(Run(lang, lines));
      ReadStays(c, lang.events, line.tokens[1..], Run(lang, lines).t, Finish(Run(lang, lines)).value, built.bytes,
                line.stale.ids);
    }
  }

  lemma FinishedNames(s: Script)
    requires Finish(s).Some?
    ensures NamesGrow(s.t, Finish(s).value)
  {
  }

  // ---------------------------------------------------------------------------- names that fit

  predicate AllDistinct(t: Tables) {
    Distinct(t.keys) && Distinct(t.subs) && Distinct(t.states) && Distinct(t.flags) && Distinct(t.displays)
  }

  predicate ShortArgs(args: seq<Token>) {
    forall i :: 0 <= i < |args| && args[i].Str? ==> Short(args[i].text)
  }

  lemma SubArgDistinct(args: seq<Token>, i: nat, subs: seq<Entry<Subscript>>)
    requires ShortArgs(args) && Distinct(subs)
    ensures Distinct(SubArg(args, i, subs).table)
  {
    if Text(args, i, 79).Some? {
      InternDistinct(subs, Text(args, i, 79).value, MAX_SUBS, BLANK_SUB);
    }
  }

  lemma {:induction false} KeyArgsDistinct(args: seq<Token>, keys: seq<Entry<SoftKey>>, flags: seq<Entry<()>>,
                                           ids: seq<Byte>, stale: seq<Byte>)
    requires |ids| <= 6 && ShortArgs(args) && Distinct(keys)
    ensures Distinct(KeyArgs(args, keys, flags, ids, stale).keys)
    decreases 6 - |ids|
  {
    var x := |ids|;
    if x <= 5 && x < |args| && !WordIs(args, x, "UNLESS") {
      var name := Text(args, x, 79);
      if name == None {
        KeyArgsDistinct(args, keys, flags, ids + [At(stale, x)], stale);
      } else {
        var r := Intern(keys, name.value, MAX_KEYS, BLANK_KEY);
        InternDistinct(keys, name.value, MAX_KEYS, BLANK_KEY);
        if r.found.Some? {
          KeyArgsDistinct(args, r.table, flags, ids + [ByteOf(r.found.value + FIRST_KEY)], stale);
        }
      }
    }
  }

  // No command makes a second entry for a name.
  lemma BuildDistinct(c: Command, events: seq<string>, args: seq<Token>, t: Tables, ids: seq<Byte>)
    requires ShortArgs(args) && AllDistinct(t)
    ensures AllDistinct(Build(c, events, args, t, ids).tables)
  {
    match c
    case ShowKeys(_, _) => KeyArgsDistinct(args, t.keys, t.flags, [], ids);
    case CallSub(_, _) => SubArgDistinct(args, 0, t.subs);
    case OnEvent(_, _) =>
      var states := EventStates(EventId(events, args, 0), args, t.states);
      if states.Some? {
        SubArgDistinct(args, states.value.1 + 1, t.subs);
      }
    case _ =>
  }

  lemma PutDistinct(t: Tables, k: nat, key: SoftKey)
    requires k < |t.keys| && AllDistinct(t)
    ensures AllDistinct(PutKey(t, k, key))
  {
  }

  lemma PutSubDistinct(t: Tables, i: nat, sub: Subscript)
    requires i < |t.subs| && AllDistinct(t)
    ensures AllDistinct(PutSub(t, i, sub))
  {
  }

  lemma DefineKeyDistinct(s: Script, args: seq<Token>)
    requires ShortArgs(args) && AllDistinct(s.t)
    ensures AllDistinct(DefineKey(s, args).t)
  {
    var name := Text(args, 0, 255);
    if name.Some? {
      var r := Intern(s.t.keys, name.value, MAX_KEYS, BLANK_KEY);
      InternDistinct(s.t.keys, name.value, MAX_KEYS, BLANK_KEY);
      if DefineKey(s, args).mode.InKey? && r.found.Some? {
        PutDistinct(s.t.(keys := r.table), r.found.value, DefineKey(s, args).t.keys[r.found.value].data);
      }
    }
  }

  lemma DefineSubDistinct(s: Script, args: seq<Token>)
    requires ShortArgs(args) && AllDistinct(s.t)
    ensures AllDistinct(DefineSub(s, args).t)
  {
    var name := Text(args, 0, 255);
    if name.Some? {
      var r := Intern(s.t.subs, name.value, MAX_SUBS, BLANK_SUB);
      InternDistinct(s.t.subs, name.value, MAX_SUBS, BLANK_SUB);
      if r.found.Some? {
        PutSubDistinct(s.t.(subs := r.table), r.found.value, r.table[r.found.value].data.(data := SubHeader(r.found.value)));
      }
    }
  }

  lemma ProgramDistinct(lang: Language, s: Script, args: seq<Token>, w: string)
    requires ShortArgs(args) && AllDistinct(s.t)
    ensures AllDistinct(ProcessProgram(lang, s, args, w).t)
  {
    var name := Text(args, 0, 255);
    if SameName(w, "KEY") {
      DefineKeyDistinct(s, args);
    } else if SameName(w, "SUB") {
      DefineSubDistinct(s, args);
    } else if name.Some? {
      InternDistinct(s.t.states, name.value, MAX_STATES, ());
      InternDistinct(s.t.flags, name.value, MAX_FLAGS, ());
      var data := DisplayData(lang.justify, |s.t.displays| + FIRST_DISPLAY, args);
      InternDistinct(s.t.displays, name.value, MAX_DISPLAYS, data);
    }
  }

  lemma KeyDistinct(lang: Language, s: Script, k: nat, w: string, args: seq<Token>, stale: Stale)
    requires k < |s.t.keys| && ShortArgs(args) && AllDistinct(s.t)
    ensures AllDistinct(ProcessKey(lang, s, k, w, args, stale).t)
  {
    var b := Assemble(lang.keyCommands, lang.events, w, args, s.t, stale.ids);
    var after := ProcessKey(lang, s, k, w, args, stale);
    if b.Some? {
      BuildDistinct(lang.keyCommands[FindCommand(lang.keyCommands, w).value], lang.events, args, s.t, stale.ids);
      PutDistinct(b.value.tables, k, after.t.keys[k].data);
    } else {
      PutDistinct(s.t, k, after.t.keys[k].data);
    }
  }

  lemma SubDistinct(lang: Language, s: Script, i: nat, w: string, args: seq<Token>, stale: Stale)
    requires i < |s.t.subs| && ShortArgs(args) && AllDistinct(s.t)
    ensures AllDistinct(ProcessSub(lang, s, i, w, args, stale).t)
    ensures AllDistinct(ProcessIf(lang, s, i, w, args, stale).t)
  {
    var a := Opcode(lang, s.t, i, w, args, stale);
    if Assemble(lang.opCommands, lang.events, w, args, s.t, stale.ids).Some? {
      BuildDistinct(lang.opCommands[FindCommand(lang.opCommands, w).value], lang.events, args, s.t, stale.ids);
    }
    PutSubDistinct(a.t, i, ProcessSub(lang, s, i, w, args, stale).t.subs[i].data);
    SubArgDistinct(args, 0, a.t.subs);
    PutSubDistinct(a.t, i, ProcessIf(lang, s, i, w, args, stale).t.subs[i].data);
    PutSubDistinct(a.t.(subs := SubArg(args, 0, a.t.subs).table), i, ProcessIf(lang, s, i, w, args, stale).t.subs[i].data);
  }

  // In a script whose names all fit their fields, no two entries of a table have the same name,
  // so a name stands for an id and an id for a name, whatever the case.
  lemma {:induction false} NamesStayDistinct(lang: Language, lines: seq<Line>)
    requires forall n :: 0 <= n < |lines| ==> ShortArgs(lines[n].tokens)
    ensures AllDistinct(Run(lang, lines).t)
  {
    if lines != [] {
      var before, line := lines[..|lines| - 1], lines[|lines| - 1];
      NamesStayDistinct(lang, before);
      var s := Run(lang, before);
      if line.tokens != [] && line.tokens[0].Word? {
        var w, args := line.tokens[0].text, line.tokens[1..];
        assert ShortArgs(args);
        match s.mode
        case InProgram => ProgramDistinct(lang, s, args, w);
        case InKey(k) => KeyDistinct(lang, s, k, w, args, line.stale);
        case InSub(i) => SubDistinct(lang, s, i, w, args, line.stale);
        case InIf(i) => SubDistinct(lang, s, i, w, args, line.stale);
      }
    }
  }
}
