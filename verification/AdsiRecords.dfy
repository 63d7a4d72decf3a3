// The records of soft keys and displays in a compiled ADSI script (apps/app_adsiprog.c).
module AdsiRecords {
  import opened Prelude
  import opened AdsiTables
  import opened AdsiCodes
  import opened AdsiCompiler

  const MAX_KEY_RECORD := 50
  const MAX_DISPLAY_RECORD := 46

  // What the lines of a script say about one soft key.
  datatype KeySource = KeySource(long: string, short: string, codes: seq<Byte>)

  const NO_KEY := KeySource("", "", [])

  function KeyFull(k: nat, src: KeySource): seq<Byte> { KeyHeader(k, src.long, src.short) + src.codes }

  // The record of a finished key: as said, with its length in byte 1.
  function KeyRecord(k: nat, src: KeySource): seq<Byte> {
    KeyFull(k, src)[1 := ByteOf(|KeyFull(k, src)| - 2)]
  }

  // A code belongs to the key if it leaves it within its limit.
  function ReadKey(lang: Language, t: Tables, w: string, args: seq<Token>, stale: Stale, src: KeySource): KeySource {
    var b := Assemble(lang.keyCommands, lang.events, w, args, t, stale.ids);
    if b.Some? && |src.codes| + |b.value.bytes| <= MAX_RET_CODE then src.(codes := src.codes + b.value.bytes) else src
  }

  function ReadKeys(lang: Language, s: Script, line: Line, src: seq<KeySource>): (r: seq<KeySource>)
    requires ModeOk(s) && |src| == |s.t.keys|
    ensures |r| == |src|
  {
    if line.tokens == [] || !line.tokens[0].Word? then src
    else
      var w, args := line.tokens[0].text, line.tokens[1..];
      match s.mode
      case InKey(k) => src[k := ReadKey(lang, s.t, w, args, line.stale, src[k])]
      case _ => src
  }

  // A line that opens a key gives its names; a key nothing has been said about yet has none.
  function Opened(after: Script, args: seq<Token>, src: seq<KeySource>, opens: bool): (r: seq<KeySource>)
    ensures |src| <= |after.t.keys| ==> |r| == |after.t.keys|
  {
    var padded := if |src| < |after.t.keys| then src + seq(|after.t.keys| - |src|, _ => NO_KEY) else src;
    var names := KeyNamesOn(args);
    if opens && after.mode.InKey? && after.mode.k < |padded| && names.Some? then
      padded[after.mode.k := KeySource(names.value.0, names.value.1, [])]
    else padded
  }

  function Keys(lang: Language, lines: seq<Line>): seq<KeySource> {
    if lines == [] then []
    else
      var n := |lines| - 1;
      var s, line, src := Run(lang, lines[..n]), lines[n], Keys(lang, lines[..n]);
      if |src| != |s.t.keys| then src
      else Opened(Process(lang, s, line), if line.tokens == [] then [] else line.tokens[1..], ReadKeys(lang, s, line, src),
                  s.mode.InProgram?)
  }

  // ----------------------------------------------------------------- one key while compiling

  ghost predicate KeyOk(open: bool, k: nat, key: SoftKey, src: KeySource) {
    if key.retstr == [] then !open && !key.defined
    else
      && key.initlen == 5 + |src.long| + |src.short| && |src.long| <= 18 && |src.short| <= 7
      && |src.codes| <= MAX_RET_CODE && open == !key.defined
      && key.retstr == if open then KeyFull(k, src) else KeyRecord(k, src)
  }

  ghost predicate KeysOk(mode: Mode, keys: seq<Entry<SoftKey>>, src: seq<KeySource>) {
    |src| == |keys| && forall k :: 0 <= k < |keys| ==> KeyOk(mode == InKey(k), k, keys[k].data, src[k])
  }

  lemma MoreKeys(mode: Mode, keys: seq<Entry<SoftKey>>, src: seq<KeySource>, after: seq<Entry<SoftKey>>,
                 more: seq<KeySource>)
    requires KeysOk(mode, keys, src) && keys <= after && (mode.InKey? ==> mode.k < |keys|)
    requires forall k :: |keys| <= k < |after| ==> after[k].data == BLANK_KEY
    requires src <= more && |more| == |after|
    ensures KeysOk(mode, after, more)
  {
    forall k | 0 <= k < |after|
      ensures KeyOk(mode == InKey(k), k, after[k].data, more[k])
    {
      if k < |keys| {
        assert after[k] == keys[k] && more[k] == src[k];
      }
    }
  }

  lemma OneKey(mode: Mode, mode1: Mode, keys: seq<Entry<SoftKey>>, src: seq<KeySource>, k: nat, key: SoftKey, ks: KeySource)
    requires KeysOk(mode, keys, src) && k < |keys|
    requires forall j: nat :: j != k ==> (mode == InKey(j) <==> mode1 == InKey(j))
    requires KeyOk(mode1 == InKey(k), k, key, ks)
    ensures KeysOk(mode1, keys[k := keys[k].(data := key)], src[k := ks])
  {
  }

  lemma AddCodeOk(k: nat, key: SoftKey, src: KeySource, bytes: seq<Byte>)
    requires KeyOk(true, k, key, src) && |src.codes| + |bytes| <= MAX_RET_CODE
    ensures KeyOk(true, k, key.(retstr := key.retstr + bytes), src.(codes := src.codes + bytes))
  {
    assert KeyHeader(k, src.long, src.short) + src.codes + bytes == KeyHeader(k, src.long, src.short) + (src.codes + bytes);
  }

  lemma EndKeyOk(k: nat, key: SoftKey, src: KeySource)
    requires KeyOk(true, k, key, src)
    ensures KeyOk(false, k, EndKey(key), src)
  {
  }

  lemma InKeyFollows(lang: Language, s: Script, line: Line, src: seq<KeySource>)
    requires ModeOk(s) && s.mode.InKey? && line.tokens != [] && line.tokens[0].Word?
    requires KeysOk(s.mode, s.t.keys, src)
    ensures var after := Process(lang, s, line);
      KeysOk(after.mode, after.t.keys, Opened(after, line.tokens[1..], ReadKeys(lang, s, line, src), false))
  {
    var k, w, args := s.mode.k, line.tokens[0].text, line.tokens[1..];
    var key, ks := s.t.keys[k].data, src[k];
    var b := Assemble(lang.keyCommands, lang.events, w, args, s.t, line.stale.ids);
    var after := Process(lang, s, line);
    var more := Opened(after, args, src, false);
    assert KeyOk(true, k, key, ks);
    assert Opened(after, args, ReadKeys(lang, s, line, src), false) ==
      more[k := ReadKey(lang, s.t, w, args, line.stale, ks)];
    if b.Some? {
      MoreKeys(s.mode, s.t.keys, src, b.value.tables.keys, more);
      assert b.value.tables.keys[k] == s.t.keys[k] && more[k] == ks;
      if |ks.codes| + |b.value.bytes| <= MAX_RET_CODE {
        AddCodeOk(k, key, ks, b.value.bytes);
        OneKey(s.mode, s.mode, b.value.tables.keys, more, k, key.(retstr := key.retstr + b.value.bytes),
               ks.(codes := ks.codes + b.value.bytes));
      }
    } else if SameName(w, "ENDKEY") {
      EndKeyOk(k, key, ks);
      OneKey(s.mode, InProgram, s.t.keys, src, k, EndKey(key), ks);
    }
  }

  lemma DefineKeyFollows(s: Script, args: seq<Token>, src: seq<KeySource>)
    requires s.mode == InProgram && KeysOk(s.mode, s.t.keys, src)
    ensures var after := DefineKey(s, args); KeysOk(after.mode, after.t.keys, Opened(after, args, src, true))
  {
    var name := Text(args, 0, 255);
    if name.Some? {
      var r, names := Intern(s.t.keys, name.value, MAX_KEYS, BLANK_KEY), KeyNamesOn(args);
      var more := Opened(s.(t := s.t.(keys := r.table)), args, src, false);
      MoreKeys(s.mode, s.t.keys, src, r.table, more);
      if r.found.Some? && !r.table[r.found.value].data.defined && names.Some? {
        var k := r.found.value;
        var ks := KeySource(names.value.0, names.value.1, []);
        var header := KeyHeader(k, ks.long, ks.short);
        assert KeyFull(k, ks) == header;
        OneKey(s.mode, InKey(k), r.table, more, k, SoftKey(false, |header|, header), ks);
      }
    }
  }

  lemma LineFollows(lang: Language, s: Script, line: Line, src: seq<KeySource>)
    requires ModeOk(s) && KeysOk(s.mode, s.t.keys, src)
    ensures var after := Process(lang, s, line);
      KeysOk(after.mode, after.t.keys,
             Opened(after, if line.tokens == [] then [] else line.tokens[1..], ReadKeys(lang, s, line, src),
                    s.mode.InProgram?))
  {
    var after := Process(lang, s, line);
    if line.tokens != [] && line.tokens[0].Word? {
      var w, args := line.tokens[0].text, line.tokens[1..];
      if s.mode.InKey? {
        InKeyFollows(lang, s, line, src);
      } else if s.mode.InProgram? && SameName(w, "KEY") {
        DefineKeyFollows(s, args, src);
      } else {
        var more := Opened(after, args, src, false);
        MoreKeys(s.mode, s.t.keys, src, after.t.keys, more);
      }
    }
  }

  lemma {:induction false} RunFollows(lang: Language, lines: seq<Line>)
    ensures KeysOk(Run(lang, lines).mode, Run(lang, lines).t.keys, Keys(lang, lines))
  {
    if lines != [] {
      var n := |lines| - 1;
      RunFollows(lang, lines[..n]);
      LineFollows(lang, Run(lang, lines[..n]), lines[n], Keys(lang, lines[..n]));
    }
  }

  lemma KeyRecordParts(k: nat, src: KeySource)
    requires |src.long| <= 18 && |src.short| <= 7 && |src.codes| <= MAX_RET_CODE
    ensures var r := KeyRecord(k, src);
      && 5 <= |r| <= MAX_KEY_RECORD && r[0] == 128 && r[1] == |r| - 2 && r[2] == ByteOf(k + FIRST_KEY)
      && r[3..] == Chars(src.long) + [255] + Chars(src.short) + [255] + src.codes
  {
    var head, names := [128, 0, ByteOf(k + FIRST_KEY)], Chars(src.long) + [255] + Chars(src.short) + [255];
    assert KeyFull(k, src) == head + (names + src.codes);
    assert KeyRecord(k, src)[3..] == (head + (names + src.codes))[3..];
  }

  // A key that has been defined is its names and codes, at most 50 bytes, with their number less
  // two in byte 1.
  lemma KeyLayout(lang: Language, lines: seq<Line>, k: nat)
    requires k < |Run(lang, lines).t.keys| && Run(lang, lines).t.keys[k].data.defined
    ensures |Keys(lang, lines)| == |Run(lang, lines).t.keys|
    ensures var r, src := Run(lang, lines).t.keys[k].data.retstr, Keys(lang, lines)[k];
      && 5 <= |r| <= MAX_KEY_RECORD && r[0] == 128 && r[1] == |r| - 2 && r[2] == ByteOf(k + FIRST_KEY)
      && r[3..] == Chars(src.long) + [255] + Chars(src.short) + [255] + src.codes
  {
    RunFollows(lang, lines);
    var s, src := Run(lang, lines), Keys(lang, lines)[k];
    assert KeyOk(s.mode == InKey(k), k, s.t.keys[k].data, src);
    KeyRecordParts(k, src);
  }

  // Every key record that the sender may meet fits, defined or not.
  lemma KeysFit(lang: Language, lines: seq<Line>, k: nat)
    requires k < |Run(lang, lines).t.keys|
    ensures |Run(lang, lines).t.keys[k].data.retstr| <= MAX_KEY_RECORD
  {
    RunFollows(lang, lines);
    var s, src := Run(lang, lines), Keys(lang, lines)[k];
    assert KeyOk(s.mode == InKey(k), k, s.t.keys[k].data, src);
  }

  // -------------------------------------------------------------------------------- displays

  // A display is either empty or complete up to its header, which a wrong qualifier leaves out.
  predicate DisplayOk(d: nat, data: seq<Byte>) {
    data == [] ||
    (6 <= |data| <= MAX_DISPLAY_RECORD
     && (data[0] == 0 || (data[0] == 129 && data[1] == |data| - 2 && data[2] % 64 == d + FIRST_DISPLAY && data[4] == 255)))
  }

  lemma DisplayBits(justify: nat, id: nat)
    requires id < 64 && justify < 4
    ensures Low(justify * 64 + id, 256) == justify * 64 + id && (justify * 64 + id) % 64 == id
  {
  }

  lemma DisplayDataOk(justify: seq<string>, d: nat, args: seq<Token>)
    requires d < MAX_DISPLAYS
    ensures DisplayOk(d, DisplayData(justify, d + FIRST_DISPLAY, args))
  {
    var q := Qualifiers(justify, args, if Text(args, 3, 79).Some? then 4 else 3, 0, false);
    if q.Some? {
      DisplayBits(Low(q.value.0, 4), d + FIRST_DISPLAY);
    }
  }

  ghost predicate DisplaysOk(displays: seq<Entry<seq<Byte>>>) {
    |displays| <= MAX_DISPLAYS && forall d :: 0 <= d < |displays| ==> DisplayOk(d, displays[d].data)
  }

  lemma LineDisplays(lang: Language, s: Script, line: Line)
    requires ModeOk(s) && DisplaysOk(s.t.displays)
    ensures DisplaysOk(Process(lang, s, line).t.displays)
  {
    if line.tokens != [] && line.tokens[0].Word? && s.mode.InProgram? {
      var args := line.tokens[1..];
      var after := DefineDisplay(lang.justify, s.t.displays, args);
      forall d | 0 <= d < |after|
        ensures DisplayOk(d, after[d].data)
      {
        if d < |s.t.displays| {
          assert after[d] == s.t.displays[d];
        } else {
          DisplayDataOk(lang.justify, d, args);
        }
      }
    }
  }

  // After any lines every display record is well-formed and within its limit.
  lemma {:induction false} DisplayLayout(lang: Language, lines: seq<Line>)
    ensures DisplaysOk(Run(lang, lines).t.displays)
  {
    if lines != [] {
      DisplayLayout(lang, lines[..|lines| - 1]);
      LineDisplays(lang, Run(lang, lines[..|lines| - 1]), lines[|lines| - 1]);
    }
  }
}
