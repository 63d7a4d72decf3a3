// The compiler of ADSI scripts as it changes struct adsi_script in place (apps/app_adsiprog.c),
// proved against the functions of AdsiCompiler.
module AdsiScript {
  import opened Prelude
  import opened AdsiTables
  import opened AdsiCodes
  import opened AdsiCompiler
  import opened AdsiBuffers
  import opened AdsiStore
  import AdsiArguments

  class Compiler {
    const lang: Language
    const keys: KeyTable
    const subs: SubTable
    const displays: DisplayTable
    const states: Table<()>
    const flags: Table<()>
    var mode: Mode

    // All tables are empty.
    constructor (lang: Language)
      ensures this.lang == lang && Valid() && View() == Script(InProgram, Tables([], [], [], [], []))
      ensures fresh(keys.Repr) && fresh(subs.Repr) && fresh(displays.Repr) && fresh({states, states.entries, flags, flags.entries})
    {
      this.lang, mode := lang, InProgram;
      states := new Table<()>(MAX_STATES, ());
      flags := new Table<()>(MAX_FLAGS, ());
      displays := new DisplayTable();
      subs := new SubTable();
      keys := new KeyTable();
      new;
      assert Apart();
      assert displays.Valid() && displays.View() == [];
      assert subs.Valid() && subs.View() == [];
    }

    // No two tables share memory.
    ghost predicate Apart() {
      && keys.Repr !! subs.Repr && keys.Repr !! displays.Repr && subs.Repr !! displays.Repr
      && Outside(this) && Outside(states) && Outside(states.entries) && Outside(flags) && Outside(flags.entries)
      && states != flags && states.entries != flags.entries
    }

    ghost predicate Outside(o: object) {
      o !in keys.Repr && o !in subs.Repr && o !in displays.Repr
    }

    ghost predicate TablesValid()
      reads keys.Repr, subs.Repr, displays.Repr, states, states.entries, flags, flags.entries
    {
      && Apart() && keys.Valid() && subs.Valid() && displays.Valid() && states.Valid() && flags.Valid()
      && states.entries.Length == MAX_STATES && flags.entries.Length == MAX_FLAGS
    }

    ghost function TablesNow(): Tables
      requires TablesValid()
      reads keys.Repr, subs.Repr, displays.Repr, states, states.entries, flags, flags.entries
    {
      Tables(keys.View(), subs.View(), states.View(), flags.View(), displays.View())
    }

    // What has been written of the key or subscript that a block is about.
    ghost predicate BlockOpen()
      requires TablesValid()
      reads this, keys.Repr, subs.Repr, displays.Repr, states, states.entries, flags, flags.entries
    {
      match mode
      case InProgram => true
      case InKey(k) => k < keys.names.num && keys.bufs[k].retstrlen > 1
      case InSub(i) => i < subs.names.num && subs.bufs[i].datalen >= |SubHeader(i)|
      case InIf(i) => i < subs.names.num && subs.bufs[i].datalen >= |SubHeader(i)| && subs.bufs[i].ifdata + 3 < subs.bufs[i].datalen
    }

    ghost predicate Valid()
      reads this, keys.Repr, subs.Repr, displays.Repr, states, states.entries, flags, flags.entries
    {
      TablesValid() && BlockOpen()
    }

    ghost function View(): Script
      requires TablesValid()
      reads this, keys.Repr, subs.Repr, displays.Repr, states, states.entries, flags, flags.entries
    {
      Script(mode, TablesNow())
    }

    // Only one of the tables has changed.
    twostate lemma KeysOnly()
      requires old(TablesValid()) && keys.Valid()
      requires unchanged(subs.Repr, displays.Repr, states, states.entries, flags, flags.entries)
      ensures TablesValid() && TablesNow() == old(TablesNow()).(keys := keys.View())
    {
    }

    twostate lemma SubsOnly()
      requires old(TablesValid()) && subs.Valid()
      requires unchanged(keys.Repr, displays.Repr, states, states.entries, flags, flags.entries)
      ensures TablesValid() && TablesNow() == old(TablesNow()).(subs := subs.View())
    {
    }

    twostate lemma DisplaysOnly()
      requires old(TablesValid()) && displays.Valid()
      requires unchanged(keys.Repr, subs.Repr, states, states.entries, flags, flags.entries)
      ensures TablesValid() && TablesNow() == old(TablesNow()).(displays := displays.View())
    {
    }

    // Only the record of key k has changed.
    twostate lemma KeyChanged(k: nat)
      requires old(TablesValid()) && k < old(keys.names.num) && keys.bufs[k].Valid()
      requires unchanged(subs.Repr, displays.Repr, states, states.entries, flags, flags.entries)
      requires forall o: object :: o in keys.Repr && o != keys.bufs[k] && o != keys.bufs[k].retstr ==> unchanged(o)
      ensures TablesValid() && TablesNow() == PutKey(old(TablesNow()), k, keys.bufs[k].View())
    {
      keys.OneChanged(k);
      KeysOnly();
    }

    // Only the record of subscript i has changed.
    twostate lemma SubChanged(i: nat)
      requires old(TablesValid()) && i < old(subs.names.num) && subs.bufs[i].Valid()
      requires unchanged(keys.Repr, displays.Repr, states, states.entries, flags, flags.entries)
      requires forall o: object :: o in subs.Repr && o != subs.bufs[i] && o != subs.bufs[i].data ==> unchanged(o)
      ensures TablesValid() && TablesNow() == PutSub(old(TablesNow()), i, subs.bufs[i].View())
    {
      subs.OneChanged(i);
      SubsOnly();
    }

    // The add_args functions.
    method AddArgs(c: Command, args: seq<Token>) returns (bytes: seq<Byte>, ghost ids: seq<Byte>)
      requires TablesValid()
      modifies keys.names, keys.names.entries, subs.names, subs.names.entries
      ensures TablesValid()
      ensures Built(bytes, TablesNow()) == Build(c, lang.events, args, old(TablesNow()), ids)
    {
      ids := [];
      match c
      case Plain(_, id) => bytes := [id];
      case Bytes(_, id, how) =>
        bytes := AdsiArguments.OwnArgs(how, id, args);
      case Flag(_, id, on) => bytes := AdsiArguments.SetFlag(id, args, flags, on);
      case ShowDisplay(_, id) => bytes := AdsiArguments.ShowDisplay(id, args, displays);
      case ShowKeys(_, id) =>
        bytes, ids := AdsiArguments.ShowKeys(id, args, keys, flags);
        KeysOnly();
      case CallSub(_, id) =>
        bytes := AdsiArguments.CallSub(args, subs);
        SubsOnly();
      case OnEvent(_, _) =>
        bytes := AdsiArguments.OnEvent(EventId(lang.events, args, 0), args, states, subs);
        SubsOnly();
    }

    method Find(commands: seq<Command>, w: string) returns (c: Option<nat>)
      ensures c == FindCommand(commands, w)
    {
      var x := 0;
      while x < |commands|
        invariant x <= |commands| && FindCommand(commands, w) == FindCommand(commands, w, x)
      {
        if SameName(commands[x].name, w) {
          return Some(x);
        }
        x := x + 1;
      }
      return None;
    }

    // The command that the word is, if any, and what it compiles to.
    method Compiled(commands: seq<Command>, w: string, args: seq<Token>) returns (bytes: Option<seq<Byte>>, ghost ids: seq<Byte>)
      requires TablesValid()
      modifies keys.names, keys.names.entries, subs.names, subs.names.entries
      ensures TablesValid() && keys.names.num >= old(keys.names.num) && subs.names.num >= old(subs.names.num)
      ensures var b := Assemble(commands, lang.events, w, args, old(TablesNow()), ids);
        if b == None then bytes == None && TablesNow() == old(TablesNow())
        else bytes == Some(b.value.bytes) && TablesNow() == b.value.tables
    {
      bytes, ids := None, [];
      var c := Find(commands, w);
      if c.Some? {
        var now;
        now, ids := AddArgs(commands[c.value], args);
        bytes := Some(now);
        assert Extends(old(TablesNow()), TablesNow());
      }
    }

    // The bytes of a code, if there is room for them.
    method AppendCode(k: nat, bytes: seq<Byte>)
      requires TablesValid() && k < keys.names.num && keys.bufs[k].retstrlen > 1
      modifies keys.bufs[k], keys.bufs[k].retstr
      ensures TablesValid() && keys.bufs[k].retstrlen > 1
      ensures var key := old(TablesNow()).keys[k].data;
        TablesNow() == if |key.retstr| + |bytes| - key.initlen > MAX_RET_CODE then old(TablesNow())
          else PutKey(old(TablesNow()), k, key.(retstr := key.retstr + bytes))
    {
      var key := keys.bufs[k];
      if key.retstrlen + |bytes| - key.initlen <= MAX_RET_CODE {
        key.AddCode(bytes);
        KeyChanged(k);
      }
    }

    // The bytes of an instruction, if there is room for them.
    method AppendOp(i: nat, bytes: seq<Byte>) returns (room: bool)
      requires TablesValid() && i < subs.names.num && subs.bufs[i].datalen >= |SubHeader(i)|
      modifies subs.bufs[i], subs.bufs[i].data
      ensures TablesValid() && subs.bufs[i].datalen >= old(subs.bufs[i].datalen) && subs.bufs[i].ifdata == old(subs.bufs[i].ifdata)
      ensures var sub := old(TablesNow()).subs[i].data;
        room == (|sub.data| + |bytes| + 1 <= if i > 0 then MAX_SUB_LEN else MAX_MAIN_LEN)
        && TablesNow() == if room then PutSub(old(TablesNow()), i, AddOp(sub, bytes)) else old(TablesNow())
    {
      var sub := subs.bufs[i];
      room := sub.datalen + |bytes| + 1 <= if i > 0 then MAX_SUB_LEN else MAX_MAIN_LEN;
      if room {
        sub.AddOp(bytes);
        assert |sub.View().data| == sub.datalen;
        SubChanged(i);
      }
    }

    // process_returncode; true if the word is a command.
    method ProcessReturncode(k: nat, w: string, args: seq<Token>) returns (known: bool, ghost ids: seq<Byte>)
      requires TablesValid() && k < keys.names.num && keys.bufs[k].retstrlen > 1
      modifies keys.names, keys.names.entries, subs.names, subs.names.entries, keys.bufs[k], keys.bufs[k].retstr
      ensures TablesValid() && k < keys.names.num && keys.bufs[k].retstrlen > 1
      ensures known == Assemble(lang.keyCommands, lang.events, w, args, old(TablesNow()), ids).Some?
      ensures View() == if known then ProcessKey(lang, old(View()), k, w, args, Stale(ids, 0)) else old(View())
    {
      var bytes;
      bytes, ids := Compiled(lang.keyCommands, w, args);
      known := bytes.Some?;
      if known {
        AppendCode(k, bytes.value);
      }
    }

    // process_opcode; true if there was such a command and room for it.
    method ProcessOpcode(i: nat, w: string, args: seq<Token>) returns (added: bool, ghost ids: seq<Byte>)
      requires TablesValid() && i < subs.names.num && subs.bufs[i].datalen >= |SubHeader(i)|
      modifies keys.names, keys.names.entries, subs.names, subs.names.entries, subs.bufs[i], subs.bufs[i].data
      ensures TablesValid() && i < subs.names.num && subs.bufs[i].datalen >= old(subs.bufs[i].datalen)
      ensures subs.bufs[i].ifdata == old(subs.bufs[i].ifdata) && (!added ==> subs.bufs[i].datalen == old(subs.bufs[i].datalen))
      ensures var a := Opcode(lang, old(TablesNow()), i, w, args, Stale(ids, 0));
        added == a.op.Some?
        && TablesNow() == if added then PutSub(a.t, i, AddOp(old(TablesNow()).subs[i].data, a.op.value)) else a.t
    {
      var bytes;
      bytes, ids := Compiled(lang.opCommands, w, args);
      added := false;
      if bytes.Some? {
        added := AppendOp(i, bytes.value);
      }
    }

    method CloseKey(k: nat)
      requires TablesValid() && k < keys.names.num && keys.bufs[k].retstrlen > 1
      modifies keys.bufs[k], keys.bufs[k].retstr
      ensures TablesValid() && TablesNow() == PutKey(old(TablesNow()), k, EndKey(old(TablesNow()).keys[k].data))
    {
      keys.bufs[k].End();
      KeyChanged(k);
    }

    method CloseSub(i: nat)
      requires TablesValid() && i < subs.names.num && subs.bufs[i].datalen >= |SubHeader(i)|
      modifies subs.bufs[i], subs.bufs[i].data
      ensures TablesValid() && TablesNow() == PutSub(old(TablesNow()), i, EndSub(i, old(TablesNow()).subs[i].data))
    {
      subs.bufs[i].End();
      SubChanged(i);
    }

    method OpenIf(i: nat, event: Byte) returns (ghost stale: Byte)
      requires TablesValid() && i < subs.names.num
      requires subs.bufs[i].datalen >= |SubHeader(i)| && subs.bufs[i].datalen + 4 <= SUB_BUFFER
      modifies subs.bufs[i], subs.bufs[i].data
      ensures TablesValid() && TablesNow() == PutSub(old(TablesNow()), i, BeginIf(old(TablesNow()).subs[i].data, event, stale))
      ensures subs.bufs[i].datalen >= |SubHeader(i)| && subs.bufs[i].ifdata + 3 < subs.bufs[i].datalen
    {
      stale := subs.bufs[i].BeginIf(event);
      assert |subs.bufs[i].View().data| == subs.bufs[i].datalen && subs.bufs[i].View().ifAt == subs.bufs[i].ifdata;
      SubChanged(i);
    }

    method CloseIf(i: nat)
      requires TablesValid() && i < subs.names.num && subs.bufs[i].ifdata + 2 < subs.bufs[i].datalen
      modifies subs.bufs[i], subs.bufs[i].data
      ensures TablesValid() && TablesNow() == PutSub(old(TablesNow()), i, EndIf(old(TablesNow()).subs[i].data))
      ensures subs.bufs[i].datalen == old(subs.bufs[i].datalen)
    {
      subs.bufs[i].EndIf();
      assert |subs.bufs[i].View().data| == subs.bufs[i].datalen;
      SubChanged(i);
    }

    // The instruction that has just been added to the subscript counts for the block as well.
    method CountInIf(i: nat, ghost t: Tables, ghost sub: Subscript, ghost op: seq<Byte>)
      requires TablesValid() && i < subs.names.num && i < |t.subs| && TablesNow() == PutSub(t, i, AddOp(sub, op))
      modifies subs.bufs[i]
      ensures subs.bufs[i].datalen == old(subs.bufs[i].datalen) && subs.bufs[i].ifdata == old(subs.bufs[i].ifdata)
      ensures TablesValid() && TablesNow() == PutSub(t, i, AddIfOp(sub, op))
    {
      subs.bufs[i].CountInIf();
      SubChanged(i);
    }

    method GotoInIf(i: nat, to: nat)
      requires TablesValid() && i < subs.names.num && subs.bufs[i].ifdata + 2 < subs.bufs[i].datalen
      requires subs.bufs[i].datalen >= |SubHeader(i)| && subs.bufs[i].datalen + 4 <= SUB_BUFFER
      modifies subs.bufs[i], subs.bufs[i].data
      ensures TablesValid() && var sub := old(TablesNow()).subs[i].data;
        TablesNow() == PutSub(old(TablesNow()), i, AddIfOp(sub, [8, IfEvent(sub), ByteOf(to)]))
      ensures subs.bufs[i].datalen >= old(subs.bufs[i].datalen) && subs.bufs[i].ifdata == old(subs.bufs[i].ifdata)
    {
      subs.bufs[i].AddIfGoto(to);
      assert |subs.bufs[i].View().data| == subs.bufs[i].datalen && subs.bufs[i].View().ifAt == subs.bufs[i].ifdata;
      SubChanged(i);
    }

    method Enter(m: Mode)
      requires TablesValid()
      modifies this
      ensures mode == m && TablesValid() && TablesNow() == old(TablesNow())
    {
      mode := m;
    }

    // The words of a subscript that are no instructions.
    method WordInSub(i: nat, w: string, args: seq<Token>) returns (ghost stale: Byte)
      requires Valid() && mode == InSub(i) && subs.bufs[i].datalen + 4 <= SUB_BUFFER
      modifies this, subs.Repr
      ensures Valid() && View() == SubKeyword(lang, old(View()), i, w, args, stale)
    {
      stale := 0;
      if SameName(w, "ENDSUB") {
        CloseSub(i);
        Enter(InProgram);
      } else if SameName(w, "IFEVENT") {
        var event := EventId(lang.events, args, 0);
        if event == None || !WordIs(args, 1, "THEN") {
          return;
        }
        stale := OpenIf(i, event.value);
        Enter(InIf(i));
      }
    }

    // The lines of a subscript.
    method LineInSub(i: nat, w: string, args: seq<Token>) returns (ghost stale: Stale)
      requires Valid() && mode == InSub(i) && subs.bufs[i].datalen + 4 <= SUB_BUFFER
      modifies this, keys.Repr, subs.Repr
      ensures Valid() && View() == ProcessSub(lang, old(View()), i, w, args, stale)
    {
      var added; ghost var ids, count := [], 0;
      added, ids := ProcessOpcode(i, w, args);
      if !added {
        count := WordInSub(i, w, args);
      }
      stale := Stale(ids, count);
    }

    // The words of an IFEVENT block that are no instructions.
    method WordInIf(i: nat, w: string, args: seq<Token>)
      requires Valid() && mode == InIf(i) && subs.bufs[i].datalen + 4 <= SUB_BUFFER
      modifies this, subs.Repr
      ensures Valid() && View() == IfKeyword(old(View()), i, w, args)
    {
      if SameName(w, "ENDIF") {
        CloseIf(i);
        Enter(InSub(i));
      } else if SameName(w, "GOTO") {
        var found := AdsiArguments.SubByArg(args, 0, subs);
        SubsOnly();
        if found.Some? {
          GotoInIf(i, found.value);
        }
      }
    }

    // An instruction of an IFEVENT block, which counts twice.
    method OpInIf(i: nat, w: string, args: seq<Token>) returns (added: bool, ghost ids: seq<Byte>)
      requires TablesValid() && i < subs.names.num && subs.bufs[i].datalen >= |SubHeader(i)|
      modifies keys.names, keys.names.entries, subs.names, subs.names.entries, subs.bufs[i], subs.bufs[i].data
      ensures TablesValid() && i < subs.names.num && subs.bufs[i].datalen >= old(subs.bufs[i].datalen)
      ensures subs.bufs[i].ifdata == old(subs.bufs[i].ifdata) && (!added ==> subs.bufs[i].datalen == old(subs.bufs[i].datalen))
      ensures var a := Opcode(lang, old(TablesNow()), i, w, args, Stale(ids, 0));
        added == a.op.Some?
        && TablesNow() == if added then PutSub(a.t, i, AddIfOp(old(TablesNow()).subs[i].data, a.op.value)) else a.t
    {
      ghost var before := TablesNow();
      added, ids := ProcessOpcode(i, w, args);
      if added {
        ghost var a := Opcode(lang, before, i, w, args, Stale(ids, 0));
        CountInIf(i, a.t, before.subs[i].data, a.op.value);
      }
    }

    // The lines of an IFEVENT block.
    method LineInIf(i: nat, w: string, args: seq<Token>) returns (ghost stale: Stale)
      requires Valid() && mode == InIf(i) && subs.bufs[i].datalen + 4 <= SUB_BUFFER
      modifies this, keys.Repr, subs.Repr
      ensures Valid() && View() == ProcessIf(lang, old(View()), i, w, args, stale)
    {
      var added; ghost var ids;
      added, ids := OpInIf(i, w, args);
      if !added {
        WordInIf(i, w, args);
      }
      stale := Stale(ids, 0);
    }

    // The lines of a soft key.
    method LineInKey(k: nat, w: string, args: seq<Token>) returns (ghost stale: Stale)
      requires Valid() && mode == InKey(k)
      modifies this, keys.Repr, subs.Repr
      ensures Valid() && View() == ProcessKey(lang, old(View()), k, w, args, stale)
    {
      var known; ghost var ids;
      known, ids := ProcessReturncode(k, w, args);
      stale := Stale(ids, 0);
      if !known && SameName(w, "ENDKEY") {
        CloseKey(k);
        Enter(InProgram);
      }
    }

    method OpenKey(k: nat, long: string, short: string)
      requires TablesValid() && k < keys.names.num && !keys.bufs[k].defined && |long| <= 18 && |short| <= 7
      modifies keys.bufs[k], keys.bufs[k].retstr
      ensures TablesValid() && keys.bufs[k].retstrlen > 1
      ensures var header := KeyHeader(k, long, short);
        TablesNow() == PutKey(old(TablesNow()), k, SoftKey(false, |header|, header))
    {
      keys.bufs[k].Begin(long, short);
      assert |keys.bufs[k].View().retstr| == keys.bufs[k].retstrlen;
      KeyChanged(k);
    }

    method OpenSub(i: nat)
      requires TablesValid() && i < subs.names.num && !subs.bufs[i].defined
      modifies subs.bufs[i], subs.bufs[i].data
      ensures TablesValid() && subs.bufs[i].datalen >= |SubHeader(i)|
      ensures TablesNow() == PutSub(old(TablesNow()), i, old(TablesNow()).subs[i].data.(data := SubHeader(i)))
    {
      subs.bufs[i].Begin();
      assert |subs.bufs[i].View().data| == subs.bufs[i].datalen;
      SubChanged(i);
    }

    // The KEY line.
    method BeginKey(args: seq<Token>)
      requires Valid() && mode == InProgram
      modifies this, keys.Repr
      ensures Valid() && View() == DefineKey(old(View()), args)
    {
      var name := Text(args, 0, 255);
      if name == None {
        return;
      }
      var found := keys.GetByName(name.value);
      KeysOnly();
      if found == None || keys.bufs[found.value].defined {
        return;
      }
      var names := KeyNamesOn(args);
      if names.Some? {
        OpenKey(found.value, names.value.0, names.value.1);
        Enter(InKey(found.value));
      }
    }

    // The SUB line.
    method BeginSub(args: seq<Token>)
      requires Valid() && mode == InProgram
      modifies this, subs.Repr
      ensures Valid() && View() == DefineSub(old(View()), args)
    {
      var name := Text(args, 0, 255);
      if name.Some? {
        var found := subs.GetByName(name.value);
        SubsOnly();
        if found.Some? && !subs.bufs[found.value].defined {
          OpenSub(found.value);
          assert TablesNow() == DefineSub(old(View()), args).t;
          if WordIs(args, 1, "IS") {
            Enter(InSub(found.value));
          }
        }
      }
    }

    // The DISPLAY line.
    method AddDisplay(args: seq<Token>)
      requires TablesValid()
      modifies displays.Repr
      ensures TablesValid()
      ensures TablesNow() == old(TablesNow()).(displays := DefineDisplay(lang.justify, old(TablesNow()).displays, args))
    {
      var name := Text(args, 0, 255);
      if name.Some? {
        var found := displays.Find(name.value);
        if found == None {
          displays.Define(lang.justify, name.value, args);
          DisplaysOnly();
        }
      }
    }

    method AddState(args: seq<Token>)
      requires TablesValid()
      modifies states, states.entries
      ensures TablesValid()
      ensures TablesNow() == old(TablesNow()).(states := DefineName(old(TablesNow()).states, args, MAX_STATES))
    {
      EnterName(states, args);
    }

    method AddFlag(args: seq<Token>)
      requires TablesValid()
      modifies flags, flags.entries
      ensures TablesValid()
      ensures TablesNow() == old(TablesNow()).(flags := DefineName(old(TablesNow()).flags, args, MAX_FLAGS))
    {
      EnterName(flags, args);
    }

    // The lines outside of blocks.
    method LineInProgram(w: string, args: seq<Token>)
      requires Valid() && mode == InProgram
      modifies this, keys.Repr, subs.Repr, displays.Repr, states, states.entries, flags, flags.entries
      ensures Valid() && View() == ProcessProgram(lang, old(View()), args, w)
    {
      if SameName(w, "KEY") {
        BeginKey(args);
      } else if SameName(w, "SUB") {
        BeginSub(args);
      } else if SameName(w, "STATE") {
        AddState(args);
      } else if SameName(w, "FLAG") {
        AddFlag(args);
      } else if SameName(w, "DISPLAY") {
        AddDisplay(args);
      }
    }

    // adsi_process
    method Process(tokens: seq<Token>) returns (ghost stale: Stale)
      requires Valid() && HasRoom(View())
      modifies this, keys.Repr, subs.Repr, displays.Repr, states, states.entries, flags, flags.entries
      ensures Valid() && View() == AdsiCompiler.Process(lang, old(View()), Line(tokens, stale))
    {
      stale := Stale([], 0);
      if tokens == [] || !tokens[0].Word? {
        return;
      }
      var w, args := tokens[0].text, tokens[1..];
      match mode
      case InProgram => LineInProgram(w, args);
      case InKey(k) => stale := LineInKey(k, w, args);
      case InSub(i) => stale := LineInSub(i, w, args);
      case InIf(i) => stale := LineInIf(i, w, args);
    }

    // The loops that resolve keys and subscripts at the end of compile_script.
    method CountUndefined() returns (err: nat)
      requires TablesValid()
      ensures err == 0 <==> AllDefined(TablesNow())
    {
      err := 0;
      for x := 0 to keys.names.num
        invariant err == 0 <==> forall k :: 0 <= k < x ==> keys.View()[k].data.defined
      {
        assert keys.View()[x].data.defined == keys.bufs[x].defined;
        if !keys.bufs[x].defined {
          err := err + 1;
        }
      }
      ghost var undefinedKeys := err;
      for x := 0 to subs.names.num
        invariant err == 0 <==> undefinedKeys == 0 && forall i :: 0 <= i < x ==> subs.View()[i].data.defined
      {
        assert subs.View()[x].data.defined == subs.bufs[x].defined;
        if !subs.bufs[x].defined {
          err := err + 1;
        }
      }
    }

    // "main" is the first subscript.
    method EnterMain()
      requires Valid() && View() == Script(InProgram, Tables([], [], [], [], []))
      modifies subs.Repr
      ensures Valid() && View() == START
    {
      FirstName("main");
      var main := subs.GetByName("main");
      SubsOnly();
    }

    // The loop over the lines. `read` says what memory held meanwhile.
    method ReadLines(lines: seq<seq<Token>>) returns (ghost read: seq<Line>)
      requires Valid() && View() == START && Roomy(lang, lines)
      modifies this, keys.Repr, subs.Repr, displays.Repr, states, states.entries, flags, flags.entries
      ensures Valid() && |read| == |lines| && Reads(read, lines) && View() == Run(lang, read)
    {
      read := [];
      for n := 0 to |lines|
        invariant Valid() && |read| == n && Reads(read, lines) && View() == Run(lang, read)
      {
        assert HasRoom(Run(lang, read));
        ghost var stale := Process(lines[n]);
        NextLine(lang, lines, read, stale);
        read := read + [Line(lines[n], stale)];
      }
    }

    // The last subscript is marked as such.
    method MarkLast()
      requires TablesValid()
      modifies subs.Repr
      ensures TablesValid() && TablesNow() == LastMarked(old(TablesNow()))
    {
      if subs.names.num > 0 {
        subs.bufs[subs.names.num - 1].EndProgram();
        SubChanged(subs.names.num - 1);
      }
    }

    // What compile_script does after the last line.
    method Resolve() returns (ok: bool)
      requires TablesValid()
      modifies subs.Repr
      ensures TablesValid() && ok == Finish(old(View())).Some?
      ensures ok ==> Finish(old(View())) == Some(TablesNow())
    {
      if mode.InSub? || mode.InKey? {
        return false;
      }
      var err := CountUndefined();
      MarkLast();
      ok := err == 0;
    }

    // compile_script, from the lines split into tokens
    method Compile(lines: seq<seq<Token>>) returns (ok: bool, ghost read: seq<Line>)
      requires Valid() && View() == Script(InProgram, Tables([], [], [], [], [])) && Roomy(lang, lines)
      modifies this, keys.Repr, subs.Repr, displays.Repr, states, states.entries, flags, flags.entries
      ensures TablesValid() && |read| == |lines| && Reads(read, lines)
      ensures ok == Finish(Run(lang, read)).Some?
      ensures ok ==> Finish(Run(lang, read)) == Some(TablesNow())
    {
      EnterMain();
      read := ReadLines(lines);
      ok := Resolve();
    }
  }

  // The lines that were read so far.
  ghost predicate Reads(read: seq<Line>, lines: seq<seq<Token>>) {
    |read| <= |lines| && forall n :: 0 <= n < |read| ==> read[n].tokens == lines[n]
  }

  lemma NextLine(lang: Language, lines: seq<seq<Token>>, read: seq<Line>, stale: Stale)
    requires |read| < |lines| && Reads(read, lines)
    ensures var next := read + [Line(lines[|read|], stale)];
      Reads(next, lines) && Run(lang, next) == Process(lang, Run(lang, read), Line(lines[|read|], stale))
  {
    var next := read + [Line(lines[|read|], stale)];
    assert next[..|read|] == read;
  }

  // At no line would IFEVENT or GOTO write past the end of a subscript.
  ghost predicate Roomy(lang: Language, lines: seq<seq<Token>>) {
    forall read :: Reads(read, lines) && |read| < |lines| ==> HasRoom(Run(lang, read))
  }

  // Room for what IFEVENT and GOTO append without looking.
  predicate HasRoom(s: Script)
    requires ModeOk(s)
  {
    (s.mode.InSub? || s.mode.InIf?) ==> |s.t.subs[s.mode.s].data.data| + 4 <= SUB_BUFFER
  }

  lemma FirstName(name: string)
    requires |name| < NAME_SIZE
    ensures Intern([], name, MAX_SUBS, BLANK_SUB).table == [Entry(name, BLANK_SUB)]
  {
  }
}
