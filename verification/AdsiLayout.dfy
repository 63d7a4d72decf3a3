// What the compiled records of an ADSI script look like, stated without patching: the lines of a
// script are read as a list of instructions and IFEVENT blocks for each subscript and as a list of
// codes for each soft key, and the records are these, rendered from front to back.
module AdsiLayout {
  import opened Prelude
  import opened AdsiTables
  import opened AdsiCodes
  import opened AdsiCompiler

  datatype Item = Op(bytes: seq<Byte>) | If(event: Byte, body: seq<seq<Byte>>)

  function RenderOps(ops: seq<seq<Byte>>): seq<Byte> {
    if ops == [] then [] else RenderOps(ops[..|ops| - 1]) + ops[|ops| - 1] + [255]
  }

  // The header of an IFEVENT block counts the instructions of its body.
  function RenderItem(it: Item): seq<Byte> {
    match it
    case Op(bytes) => bytes + [255]
    case If(event, body) => [1, event, ByteOf(|body|), 255] + RenderOps(body)
  }

  function Render(items: seq<Item>): seq<Byte> {
    if items == [] then [] else Render(items[..|items| - 1]) + RenderItem(items[|items| - 1])
  }

  // An IFEVENT header is one instruction.
  function Count(items: seq<Item>): nat {
    if items == [] then 0
    else Count(items[..|items| - 1]) + if items[|items| - 1].If? then 1 + |items[|items| - 1].body| else 1
  }

  function Full(i: nat, items: seq<Item>): seq<Byte> { SubHeader(i) + Render(items) }

  // The record of a finished subscript.
  function SubRecord(i: nat, items: seq<Item>): seq<Byte> { WithLengths(i, Full(i, items), Count(items)) }

  // -------------------------------------------------------------------- reading the lines

  // What a line adds to subscript i while the script is in it.
  function ReadSub(lang: Language, s: Script, i: nat, w: string, args: seq<Token>, stale: Stale, items: seq<Item>)
      : seq<Item>
    requires i < |s.t.subs|
  {
    var op := Opcode(lang, s.t, i, w, args, stale).op;
    if op.Some? then items + [Op(op.value)]
    else if !SameName(w, "ENDSUB") && SameName(w, "IFEVENT") && EventId(lang.events, args, 0).Some?
            && WordIs(args, 1, "THEN") then
      items + [If(EventId(lang.events, args, 0).value, [])]
    else items
  }

  function Within(items: seq<Item>, op: seq<Byte>): seq<Item> {
    if items == [] || items[|items| - 1].Op? then items
    else
      var last := items[|items| - 1];
      items[..|items| - 1] + [If(last.event, last.body + [op])]
  }

  function LastEvent(items: seq<Item>): Byte {
    if items == [] || items[|items| - 1].Op? then 0 else items[|items| - 1].event
  }

  // And while it is in an IFEVENT block; a GOTO there repeats the event of the block.
  function ReadIf(lang: Language, s: Script, i: nat, w: string, args: seq<Token>, stale: Stale, items: seq<Item>)
      : seq<Item>
    requires i < |s.t.subs|
  {
    var a := Opcode(lang, s.t, i, w, args, stale);
    if a.op.Some? then Within(items, a.op.value)
    else if !SameName(w, "ENDIF") && SameName(w, "GOTO") && SubArg(args, 0, a.t.subs).found.Some? then
      Within(items, [8, LastEvent(items), ByteOf(SubArg(args, 0, a.t.subs).found.value)])
    else items
  }

  function Pad<T>(xs: seq<T>, n: nat, x: T): (r: seq<T>)
    ensures |xs| <= n ==> |r| == n
    ensures xs <= r && forall i :: |xs| <= i < |r| ==> r[i] == x
  {
    if |xs| >= n then xs else xs + seq(n - |xs|, _ => x)
  }

  function ReadSubs(lang: Language, s: Script, line: Line, src: seq<seq<Item>>): (r: seq<seq<Item>>)
    requires ModeOk(s) && |src| == |s.t.subs|
  {
    var padded := Pad(src, |Process(lang, s, line).t.subs|, []);
    if line.tokens == [] || !line.tokens[0].Word? then padded
    else
      var w, args := line.tokens[0].text, line.tokens[1..];
      match s.mode
      case InSub(i) => padded[i := ReadSub(lang, s, i, w, args, line.stale, src[i])]
      case InIf(i) => padded[i := ReadIf(lang, s, i, w, args, line.stale, src[i])]
      case _ => padded
  }

  function Subs(lang: Language, lines: seq<Line>): seq<seq<Item>> {
    if lines == [] then [[]]
    else
      var n := |lines| - 1;
      var before := Subs(lang, lines[..n]);
      if |before| == |Run(lang, lines[..n]).t.subs| then ReadSubs(lang, Run(lang, lines[..n]), lines[n], before)
      else before
  }

  // ------------------------------------------------------------- one subscript while compiling

  datatype Role = Closed | Open | OpenIf

  function RoleOf(mode: Mode, i: nat): Role {
    if mode == InSub(i) then Open else if mode == InIf(i) then OpenIf else Closed
  }

  ghost predicate InBlock(i: nat, sub: Subscript, items: seq<Item>) {
    && items != [] && items[|items| - 1].If?
    && var it := items[|items| - 1];
      var done := Full(i, items[..|items| - 1]);
      && sub.ifAt == |done| && sub.ifinscount == |it.body| && |sub.data| > |done| + 3
      && sub.data == done + [1, it.event, sub.data[|done| + 2], 255] + RenderOps(it.body)
  }

  ghost predicate SubOk(role: Role, i: nat, sub: Subscript, items: seq<Item>) {
    && sub.inscount == Count(items)
    && match role
       case Open => sub.data == Full(i, items)
       case OpenIf => InBlock(i, sub, items)
       case Closed =>
         if sub.defined then sub.data == SubRecord(i, items)
         else items == [] && (sub.data == [] || sub.data == SubHeader(i))
  }

  lemma SnocItem(items: seq<Item>, it: Item)
    ensures Render(items + [it]) == Render(items) + RenderItem(it)
    ensures Count(items + [it]) == Count(items) + if it.If? then 1 + |it.body| else 1
  {
    assert (items + [it])[..|items|] == items;
  }

  lemma SnocOp(ops: seq<seq<Byte>>, op: seq<Byte>)
    ensures RenderOps(ops + [op]) == RenderOps(ops) + op + [255]
  {
    assert (ops + [op])[..|ops|] == ops;
  }

  lemma Regroup(a: seq<Byte>, b: seq<Byte>, c: seq<Byte>, d: seq<Byte>)
    ensures a + (b + (c + d)) == a + b + c + d
  {
  }

  lemma AddOpOk(i: nat, sub: Subscript, items: seq<Item>, op: seq<Byte>)
    requires SubOk(Open, i, sub, items)
    ensures SubOk(Open, i, AddOp(sub, op), items + [Op(op)])
  {
    SnocItem(items, Op(op));
    Regroup(SubHeader(i), Render(items), op, [255]);
  }

  lemma BeginIfOk(i: nat, sub: Subscript, items: seq<Item>, event: Byte, stale: Byte)
    requires SubOk(Open, i, sub, items)
    ensures SubOk(OpenIf, i, BeginIf(sub, event, stale), items + [If(event, [])])
  {
    SnocItem(items, If(event, []));
    var all, done := items + [If(event, [])], Full(i, items);
    assert all[..|items|] == items && all[|items|] == If(event, []);
    assert RenderOps([]) == [];
    assert (done + [1, event, stale, 255])[|done| + 2] == stale;
    assert done + [1, event, stale, 255] == done + [1, event, stale, 255] + [];
  }

  function Block(done: seq<Byte>, event: Byte, count: Byte, body: seq<seq<Byte>>): seq<Byte> {
    done + [1, event, count, 255] + RenderOps(body)
  }

  lemma BlockGrows(done: seq<Byte>, event: Byte, x: Byte, body: seq<seq<Byte>>, op: seq<Byte>)
    ensures Block(done, event, x, body) + op + [255] == Block(done, event, x, body + [op])
    ensures |Block(done, event, x, body)| > |done| + 3
    ensures Block(done, event, x, body)[|done| + 1] == event && Block(done, event, x, body)[|done| + 2] == x
  {
    SnocOp(body, op);
    var head, rest := [1, event, x, 255], RenderOps(body);
    assert done + head + (rest + op + [255]) == done + head + rest + op + [255];
    assert (done + head + rest)[|done| + 1] == head[1] && (done + head + rest)[|done| + 2] == head[2];
  }

  lemma WithinParts(items: seq<Item>, op: seq<Byte>)
    requires items != [] && items[|items| - 1].If?
    ensures var n := |items| - 1;
      var after := Within(items, op);
      && after != [] && |after| == n + 1 && after[..n] == items[..n]
      && after[n] == If(items[n].event, items[n].body + [op]) && Count(after) == Count(items) + 1
  {
  }

  lemma WithinOk(i: nat, sub: Subscript, items: seq<Item>, op: seq<Byte>)
    requires SubOk(OpenIf, i, sub, items)
    ensures SubOk(OpenIf, i, AddIfOp(sub, op), Within(items, op))
    ensures IfEvent(sub) == LastEvent(items)
  {
    var n := |items| - 1;
    var it, done, x := items[n], Full(i, items[..n]), sub.data[sub.ifAt + 2];
    BlockGrows(done, it.event, x, it.body, op);
    BlockGrows(done, it.event, x, it.body + [op], []);
    WithinParts(items, op);
    assert sub.data == Block(done, it.event, x, it.body);
    assert AddIfOp(sub, op).data == Block(done, it.event, x, it.body + [op]);
  }

  lemma EndIfOk(i: nat, sub: Subscript, items: seq<Item>)
    requires SubOk(OpenIf, i, sub, items)
    ensures SubOk(Open, i, EndIf(sub), items)
  {
    var n := |items| - 1;
    var it := items[n];
    var done, x, y := Full(i, items[..n]), sub.data[sub.ifAt + 2], ByteOf(|it.body|);
    PatchInside(done, 1, it.event, x, 255, RenderOps(it.body), y);
    assert EndIf(sub).data == Block(done, it.event, y, it.body);
    Regroup(SubHeader(i), Render(items[..n]), [1, it.event, y, 255], RenderOps(it.body));
  }

  lemma PatchInside(a: seq<Byte>, p: Byte, q: Byte, x: Byte, r: Byte, b: seq<Byte>, y: Byte)
    ensures (a + [p, q, x, r] + b)[|a| + 2 := y] == a + [p, q, y, r] + b
  {
  }

  lemma EndSubOk(i: nat, sub: Subscript, items: seq<Item>)
    requires SubOk(Open, i, sub, items)
    ensures SubOk(Closed, i, EndSub(i, sub), items)
  {
  }

  // ----------------------------------------------------------------------- all of the subscripts

  ghost predicate SubsOk(mode: Mode, subs: seq<Entry<Subscript>>, src: seq<seq<Item>>) {
    |src| == |subs| && forall i :: 0 <= i < |subs| ==> SubOk(RoleOf(mode, i), i, subs[i].data, src[i])
  }

  ghost predicate Blank(subs: seq<Entry<Subscript>>, after: seq<Entry<Subscript>>) {
    subs <= after && forall i :: |subs| <= i < |after| ==> after[i].data == BLANK_SUB
  }

  predicate ModeIn(mode: Mode, n: nat) {
    (mode.InSub? || mode.InIf?) ==> mode.s < n
  }

  lemma MoreSubs(mode: Mode, subs: seq<Entry<Subscript>>, src: seq<seq<Item>>, after: seq<Entry<Subscript>>)
    requires SubsOk(mode, subs, src) && Blank(subs, after) && ModeIn(mode, |subs|)
    ensures SubsOk(mode, after, Pad(src, |after|, []))
  {
    var padded: seq<seq<Item>> := Pad(src, |after|, []);
    forall i | 0 <= i < |after|
      ensures SubOk(RoleOf(mode, i), i, after[i].data, padded[i])
    {
      if i < |subs| {
        assert after[i] == subs[i] && padded[i] == src[i];
      }
    }
  }

  // Subscript i changes, and nothing else is or was open.
  lemma OneSub(mode: Mode, mode1: Mode, subs: seq<Entry<Subscript>>, src: seq<seq<Item>>, i: nat, sub: Subscript,
               items: seq<Item>)
    requires SubsOk(mode, subs, src) && i < |subs|
    requires forall j: nat :: j != i ==> RoleOf(mode, j) == RoleOf(mode1, j)
    requires SubOk(RoleOf(mode1, i), i, sub, items)
    ensures SubsOk(mode1, subs[i := subs[i].(data := sub)], src[i := items])
  {
  }

  // The same, after the table has grown.
  lemma SubChanged(mode: Mode, mode1: Mode, subs: seq<Entry<Subscript>>, src: seq<seq<Item>>,
                   after: seq<Entry<Subscript>>, i: nat, sub: Subscript, items: seq<Item>)
    requires SubsOk(mode, subs, src) && i < |subs| && Blank(subs, after) && ModeIn(mode, |subs|)
    requires forall j: nat :: j != i ==> RoleOf(mode, j) == RoleOf(mode1, j)
    requires SubOk(RoleOf(mode1, i), i, sub, items)
    ensures after[i] == subs[i] && i < |src| <= |after|
    ensures SubsOk(mode1, after[i := after[i].(data := sub)], Pad(src, |after|, [])[i := items])
  {
    MoreSubs(mode, subs, src, after);
    OneSub(mode, mode1, after, Pad(src, |after|, []), i, sub, items);
  }

  lemma SameRoles(mode: Mode, mode1: Mode, subs: seq<Entry<Subscript>>, src: seq<seq<Item>>)
    requires SubsOk(mode, subs, src) && forall j: nat :: RoleOf(mode, j) == RoleOf(mode1, j)
    ensures SubsOk(mode1, subs, src)
  {
  }

  ghost predicate Follows(lang: Language, s: Script, line: Line, src: seq<seq<Item>>)
    requires ModeOk(s) && |src| == |s.t.subs|
  {
    SubsOk(Process(lang, s, line).mode, Process(lang, s, line).t.subs, ReadSubs(lang, s, line, src))
  }

  lemma InSubFollows(lang: Language, s: Script, i: nat, w: string, args: seq<Token>, stale: Stale, src: seq<seq<Item>>)
    requires i < |s.t.subs| && s.mode == InSub(i) && SubsOk(s.mode, s.t.subs, src)
    ensures var after := ProcessSub(lang, s, i, w, args, stale);
      && i < |src| <= |after.t.subs|
      && SubsOk(after.mode, after.t.subs, Pad(src, |after.t.subs|, [])[i := ReadSub(lang, s, i, w, args, stale, src[i])])
  {
    var sub, items := s.t.subs[i].data, src[i];
    var a := Opcode(lang, s.t, i, w, args, stale);
    if a.op.Some? {
      AddOpOk(i, sub, items, a.op.value);
      SubChanged(s.mode, s.mode, s.t.subs, src, a.t.subs, i, AddOp(sub, a.op.value), items + [Op(a.op.value)]);
    } else if SameName(w, "ENDSUB") {
      EndSubOk(i, sub, items);
      SubChanged(s.mode, InProgram, s.t.subs, src, a.t.subs, i, EndSub(i, sub), items);
    } else if SameName(w, "IFEVENT") && EventId(lang.events, args, 0).Some? && WordIs(args, 1, "THEN") {
      var event := EventId(lang.events, args, 0).value;
      BeginIfOk(i, sub, items, event, stale.count);
      SubChanged(s.mode, InIf(i), s.t.subs, src, a.t.subs, i, BeginIf(sub, event, stale.count), items + [If(event, [])]);
    } else {
      Unchanged(s.mode, s.t.subs, src, a.t.subs, i);
    }
  }

  lemma Unchanged(mode: Mode, subs: seq<Entry<Subscript>>, src: seq<seq<Item>>, after: seq<Entry<Subscript>>, i: nat)
    requires SubsOk(mode, subs, src) && i < |subs| && Blank(subs, after) && ModeIn(mode, |subs|)
    ensures i < |src| <= |after| && SubsOk(mode, after, Pad(src, |after|, [])[i := src[i]])
  {
    MoreSubs(mode, subs, src, after);
    assert Pad(src, |after|, [])[i := src[i]] == Pad(src, |after|, []);
  }

  lemma InIfFollows(lang: Language, s: Script, i: nat, w: string, args: seq<Token>, stale: Stale, src: seq<seq<Item>>)
    requires i < |s.t.subs| && s.mode == InIf(i) && SubsOk(s.mode, s.t.subs, src)
    ensures var after := ProcessIf(lang, s, i, w, args, stale);
      && i < |src| <= |after.t.subs|
      && SubsOk(after.mode, after.t.subs, Pad(src, |after.t.subs|, [])[i := ReadIf(lang, s, i, w, args, stale, src[i])])
  {
    var sub, items := s.t.subs[i].data, src[i];
    var a := Opcode(lang, s.t, i, w, args, stale);
    if a.op.Some? {
      WithinOk(i, sub, items, a.op.value);
      SubChanged(s.mode, s.mode, s.t.subs, src, a.t.subs, i, AddIfOp(sub, a.op.value), Within(items, a.op.value));
    } else if SameName(w, "ENDIF") {
      EndIfOk(i, sub, items);
      SubChanged(s.mode, InSub(i), s.t.subs, src, a.t.subs, i, EndIf(sub), items);
    } else if SameName(w, "GOTO") {
      var r := SubArg(args, 0, a.t.subs);
      assert Blank(s.t.subs, r.table);
      if r.found.Some? {
        var op := [8, IfEvent(sub), ByteOf(r.found.value)];
        WithinOk(i, sub, items, op);
        SubChanged(s.mode, s.mode, s.t.subs, src, r.table, i, AddIfOp(sub, op), Within(items, op));
      } else {
        Unchanged(s.mode, s.t.subs, src, r.table, i);
      }
    } else {
      Unchanged(s.mode, s.t.subs, src, a.t.subs, i);
    }
  }

  lemma DefineSubFollows(s: Script, args: seq<Token>, src: seq<seq<Item>>)
    requires s.mode == InProgram && SubsOk(s.mode, s.t.subs, src)
    ensures var after := DefineSub(s, args);
      |src| <= |after.t.subs| && SubsOk(after.mode, after.t.subs, Pad(src, |after.t.subs|, []))
  {
    var name := Text(args, 0, 255);
    if name.Some? {
      var r := Intern(s.t.subs, name.value, MAX_SUBS, BLANK_SUB);
      var padded: seq<seq<Item>> := Pad(src, |r.table|, []);
      MoreSubs(s.mode, s.t.subs, src, r.table);
      if r.found.Some? && !r.table[r.found.value].data.defined {
        var i := r.found.value;
        var sub, mode := r.table[i].data, if WordIs(args, 1, "IS") then InSub(i) else InProgram;
        assert SubOk(Closed, i, sub, padded[i]);
        assert Full(i, []) == SubHeader(i);
        OneSub(s.mode, mode, r.table, padded, i, sub.(data := SubHeader(i)), padded[i]);
        assert padded[i := padded[i]] == padded;
      }
    } else {
      assert Pad(src, |s.t.subs|, []) == src;
    }
  }

  lemma ElsewhereFollows(lang: Language, s: Script, line: Line, src: seq<seq<Item>>)
    requires ModeOk(s) && !s.mode.InSub? && !s.mode.InIf? && line.tokens != [] && line.tokens[0].Word?
    requires SubsOk(s.mode, s.t.subs, src)
    ensures Follows(lang, s, line, src)
  {
    var after := Process(lang, s, line);
    var w, args := line.tokens[0].text, line.tokens[1..];
    if s.mode.InProgram? && !SameName(w, "KEY") && SameName(w, "SUB") {
      DefineSubFollows(s, args, src);
    } else {
      assert Blank(s.t.subs, after.t.subs);
      MoreSubs(s.mode, s.t.subs, src, after.t.subs);
      SameRoles(s.mode, after.mode, after.t.subs, Pad(src, |after.t.subs|, []));
    }
  }

  lemma LineFollows(lang: Language, s: Script, line: Line, src: seq<seq<Item>>)
    requires ModeOk(s) && SubsOk(s.mode, s.t.subs, src)
    ensures Follows(lang, s, line, src)
  {
    if line.tokens == [] || !line.tokens[0].Word? {
      assert Pad(src, |s.t.subs|, []) == src;
    } else if s.mode.InSub? {
      InSubFollows(lang, s, s.mode.s, line.tokens[0].text, line.tokens[1..], line.stale, src);
    } else if s.mode.InIf? {
      InIfFollows(lang, s, s.mode.s, line.tokens[0].text, line.tokens[1..], line.stale, src);
    } else {
      ElsewhereFollows(lang, s, line, src);
    }
  }

  lemma {:induction false} RunFollows(lang: Language, lines: seq<Line>)
    ensures SubsOk(Run(lang, lines).mode, Run(lang, lines).t.subs, Subs(lang, lines))
  {
    if lines != [] {
      var n := |lines| - 1;
      RunFollows(lang, lines[..n]);
      LineFollows(lang, Run(lang, lines[..n]), lines[n], Subs(lang, lines[..n]));
    }
  }

  // After any lines that leave no block open, every subscript that has been defined is its
  // instructions in order, each closed by a separator, with the counts its headers promise.
  lemma SubLayout(lang: Language, lines: seq<Line>, i: nat)
    requires var s := Run(lang, lines); s.mode.InProgram? && i < |s.t.subs| && s.t.subs[i].data.defined
    ensures |Subs(lang, lines)| == |Run(lang, lines).t.subs|
    ensures var sub, items := Run(lang, lines).t.subs[i].data, Subs(lang, lines)[i];
      var body := if i == 0 then 3 else 7;
      && |sub.data| >= body && sub.data[body..] == Render(items) && sub.inscount == Count(items)
      && sub.data[0] == 130 && sub.data[1] == ByteOf(|sub.data| - 2) && sub.data[2] == 0
      && (i > 0 ==> sub.data[3..7] == [9, ByteOf(i), ByteOf(Count(items)), 255])
  {
    RunFollows(lang, lines);
    var sub, items := Run(lang, lines).t.subs[i].data, Subs(lang, lines)[i];
    assert SubOk(Closed, i, sub, items);
    RecordParts(i, items);
  }

  lemma RecordParts(i: nat, items: seq<Item>)
    ensures var r, body := SubRecord(i, items), if i == 0 then 3 else 7;
      && |r| >= body && r[body..] == Render(items)
      && r[0] == 130 && r[1] == ByteOf(|r| - 2) && r[2] == 0
      && (i > 0 ==> r[3..7] == [9, ByteOf(i), ByteOf(Count(items)), 255])
  {
    var h, r := SubHeader(i), SubRecord(i, items);
    assert Full(i, items)[|h|..] == Render(items);
    assert r[|h|..] == Full(i, items)[|h|..];
  }

  // ------------------------------------------------------------------------------- segments

  // The instructions of a subscript in order, an IFEVENT header being one of them.
  function Segments(items: seq<Item>): seq<seq<Byte>> {
    if items == [] then []
    else
      var it := items[|items| - 1];
      Segments(items[..|items| - 1]) + if it.Op? then [it.bytes] else [[1, it.event, ByteOf(|it.body|)]] + it.body
  }

  lemma {:induction false} RenderOpsJoin(a: seq<seq<Byte>>, b: seq<seq<Byte>>)
    ensures RenderOps(a + b) == RenderOps(a) + RenderOps(b)
  {
    if b == [] {
      assert a + b == a;
    } else {
      var n := |b| - 1;
      RenderOpsJoin(a, b[..n]);
      assert b[..n] + [b[n]] == b && a + b == (a + b[..n]) + [b[n]];
      SnocOp(a + b[..n], b[n]);
      Regroup2(RenderOps(a), RenderOps(b[..n]), b[n], [255]);
    }
  }

  lemma Regroup2(a: seq<Byte>, b: seq<Byte>, c: seq<Byte>, d: seq<Byte>)
    ensures a + (b + c + d) == a + b + c + d
  {
  }

  lemma ItemSegments(it: Item)
    ensures RenderItem(it) == RenderOps(if it.Op? then [it.bytes] else [[1, it.event, ByteOf(|it.body|)]] + it.body)
  {
    if it.Op? {
      SnocOp([], it.bytes);
      assert [] + [it.bytes] == [it.bytes];
    } else {
      var head := [1, it.event, ByteOf(|it.body|)];
      SnocOp([], head);
      assert [] + [head] == [head] && [] + head + [255] == head + [255];
      RenderOpsJoin([head], it.body);
    }
  }

  // The bytes past the header of a subscript are as many separated segments as it counts.
  lemma {:induction false} BodyIsSegments(items: seq<Item>)
    ensures Render(items) == RenderOps(Segments(items)) && |Segments(items)| == Count(items)
  {
    if items != [] {
      var n := |items| - 1;
      BodyIsSegments(items[..n]);
      ItemSegments(items[n]);
      RenderOpsJoin(Segments(items[..n]), if items[n].Op? then [items[n].bytes] else
        [[1, items[n].event, ByteOf(|items[n].body|)]] + items[n].body);
    }
  }

  lemma LastMarkedAt(t: Tables, i: nat)
    requires i < |t.subs|
    ensures |LastMarked(t).subs| == |t.subs|
    ensures var data := t.subs[i].data.data;
      LastMarked(t).subs[i].data.data == if i == |t.subs| - 1 && |data| >= 3 then data[2 := 0x80] else data
  {
  }

  lemma ClosedRecord(i: nat, sub: Subscript, items: seq<Item>)
    requires SubOk(Closed, i, sub, items) && sub.defined
    ensures sub.data == SubRecord(i, items) && |sub.data| >= 3
  {
  }

  // A script that compiles: every subscript but one whose block is still open is its record, and the
  // last one has the bit that says so.
  lemma CompiledSubs(lang: Language, lines: seq<Line>, i: nat)
    requires Run(lang, lines).mode != InIf(i) && Finish(Run(lang, lines)).Some?
    requires i < |Run(lang, lines).t.subs|
    ensures var subs := Finish(Run(lang, lines)).value.subs;
      && |subs| == |Subs(lang, lines)|
      && var record := SubRecord(i, Subs(lang, lines)[i]);
      subs[i].data.data == if i == |subs| - 1 then record[2 := 0x80] else record
  {
    var s := Run(lang, lines);
    RunFollows(lang, lines);
    ClosedRecord(i, s.t.subs[i].data, Subs(lang, lines)[i]);
    LastMarkedAt(s.t, i);
  }
}
