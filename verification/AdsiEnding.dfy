// ADSI scripts that end inside an IFEVENT block (apps/app_adsiprog.c:1402-1413). The end of a file
// inside a subscript or a key is an error, inside a block it is not.
module AdsiEnding {
  import opened Prelude
  import opened AdsiTables
  import opened AdsiCodes
  import opened AdsiCompiler
  import opened AdsiLayout
  import opened AdsiWords

  // What a subscript lacks while its block is open: its length, its number of instructions and
  // the count of the block.
  ghost predicate Unfinished(i: nat, sub: Subscript, items: seq<Item>) {
    && items != [] && items[|items| - 1].If?
    && var at := |Full(i, items[..|items| - 1])|;
      && at + 3 < |sub.data| && sub.data[1] == 0 && (i > 0 ==> sub.data[5] == 0)
      && sub.data[at + 2 := ByteOf(|items[|items| - 1].body|)] == Full(i, items)
  }

  lemma HeaderStays(i: nat, sub: Subscript, items: seq<Item>)
    requires InBlock(i, sub, items)
    ensures sub.data[1] == 0 && (i > 0 ==> sub.data[5] == 0)
  {
    var before := items[..|items| - 1];
    var h, r := SubHeader(i), Render(before);
    assert Full(i, before) == h + r;
    assert sub.data[1] == Full(i, before)[1] == h[1];
    if i > 0 {
      assert sub.data[5] == Full(i, before)[5] == h[5];
    }
  }

  lemma OpenIfUnfinished(i: nat, sub: Subscript, items: seq<Item>)
    requires SubOk(OpenIf, i, sub, items)
    ensures Unfinished(i, sub, items)
  {
    HeaderStays(i, sub, items);
    EndIfOk(i, sub, items);
    assert EndIf(sub).data == sub.data[sub.ifAt + 2 := ByteOf(sub.ifinscount)];
  }

  // Whenever the lines end inside a block, the subscript is as far as it goes what they say, but
  // its length, its number of instructions and the count of the block have not been stored.
  lemma EndsInBlock(lang: Language, lines: seq<Line>, i: nat)
    requires Run(lang, lines).mode == InIf(i)
    ensures i < |Run(lang, lines).t.subs| == |Subs(lang, lines)|
    ensures Unfinished(i, Run(lang, lines).t.subs[i].data, Subs(lang, lines)[i])
  {
    RunFollows(lang, lines);
    OpenIfUnfinished(i, Run(lang, lines).t.subs[i].data, Subs(lang, lines)[i]);
  }

  // A script that is accepted ends outside of blocks, and then all its subscripts are complete, or
  // inside an IFEVENT block, and then just that subscript is not.
  lemma AcceptedEnds(lang: Language, lines: seq<Line>, i: nat)
    requires Finish(Run(lang, lines)).Some? && i < |Run(lang, lines).t.subs|
    ensures Run(lang, lines).mode.InProgram? || Run(lang, lines).mode.InIf?
    ensures |Run(lang, lines).t.subs| == |Subs(lang, lines)|
    ensures var s, items := Run(lang, lines), Subs(lang, lines)[i];
      if s.mode == InIf(i) then Unfinished(i, s.t.subs[i].data, items)
      else s.t.subs[i].data.data == SubRecord(i, items)
  {
    RunFollows(lang, lines);
    var s := Run(lang, lines);
    assert SubOk(RoleOf(s.mode, i), i, s.t.subs[i].data, Subs(lang, lines)[i]);
    if s.mode == InIf(i) {
      EndsInBlock(lang, lines, i);
    }
  }

  // ------------------------------------------------------------------- a script that does so

  function OpenScript(stale: Byte): seq<Line> {
    [Line([Word("SUB"), Str("main"), Word("IS")], Stale([], 0)),
     Line([Word("IFEVENT"), Word("CALLERID"), Word("THEN")], Stale([], 0)),
     Line([Word("ENDIF")], Stale([], 0)),
     Line([Word("IFEVENT"), Word("CALLERID"), Word("THEN")], Stale([], stale))]
  }

  lemma OtherName(a: string, b: string)
    requires |a| != |b| || (a != "" && LowerChar(a[0]) != LowerChar(b[0]))
    ensures !SameName(a, b)
  {
    if |a| == |b| {
      assert Lower(a)[0] != Lower(b)[0];
    } else {
      assert |Lower(a)| != |Lower(b)|;
    }
  }

  function MainOnly(mode: Mode, sub: Subscript): Script {
    Script(mode, Tables([], [Entry("main", sub)], [], [], []))
  }

  lemma SubLine()
    ensures Process(ADSI, START, Line([Word("SUB"), Str("main"), Word("IS")], Stale([], 0)))
      == MainOnly(InSub(0), BLANK_SUB.(data := [130, 0, 0]))
  {
    OtherName("SUB", "KEY");
  }

  lemma IfEventLine(sub: Subscript, stale: Byte)
    ensures Process(ADSI, MainOnly(InSub(0), sub), Line([Word("IFEVENT"), Word("CALLERID"), Word("THEN")], Stale([], stale)))
      == MainOnly(InIf(0), BeginIf(sub, 1, stale))
  {
    OtherName("IFEVENT", "ENDSUB");
    BlockWords("IFEVENT", "IFEVENT");
    EventWord(0, "CALLERID", [Word("CALLERID"), Word("THEN")], 0);
  }

  lemma EndIfLine(sub: Subscript)
    ensures Process(ADSI, MainOnly(InIf(0), sub), Line([Word("ENDIF")], Stale([], 0))) == MainOnly(InSub(0), EndIf(sub))
  {
    BlockWords("ENDIF", "ENDIF");
  }

  lemma RunSnoc(lang: Language, lines: seq<Line>, line: Line)
    ensures Run(lang, lines + [line]) == Process(lang, Run(lang, lines), line)
  {
    assert (lines + [line])[..|lines|] == lines;
  }

  lemma OpenSubs(stale: Byte)
    ensures var sub3 := EndIf(BeginIf(BLANK_SUB.(data := [130, 0, 0]), 1, 0));
      BeginIf(sub3, 1, stale) == Subscript(true, [130, 0, 0, 1, 1, 0, 255, 1, 1, stale, 255], 2, 0, 7)
  {
    assert BeginIf(BLANK_SUB.(data := [130, 0, 0]), 1, 0) == Subscript(false, [130, 0, 0, 1, 1, 0, 255], 1, 0, 3);
  }

  lemma OpenScriptSteps(stale: Byte)
    ensures Run(ADSI, OpenScript(stale)) == MainOnly(InIf(0),
      Subscript(true, [130, 0, 0, 1, 1, 0, 255, 1, 1, stale, 255], 2, 0, 7))
  {
    var l := OpenScript(stale);
    var sub1 := BLANK_SUB.(data := [130, 0, 0]);
    var sub2 := BeginIf(sub1, 1, 0);
    var sub3 := EndIf(sub2);
    RunSnoc(ADSI, [], l[0]);
    RunSnoc(ADSI, [l[0]], l[1]);
    RunSnoc(ADSI, [l[0], l[1]], l[2]);
    RunSnoc(ADSI, [l[0], l[1], l[2]], l[3]);
    assert [] + [l[0]] == [l[0]] && [l[0]] + [l[1]] == [l[0], l[1]];
    assert [l[0], l[1]] + [l[2]] == [l[0], l[1], l[2]] && [l[0], l[1], l[2]] + [l[3]] == l;
    SubLine();
    IfEventLine(sub1, 0);
    EndIfLine(sub2);
    IfEventLine(sub3, stale);
    OpenSubs(stale);
  }

  // It is not rejected, and the count sent is what happened to be in memory.
  lemma OpenBlockAccepted(stale: Byte)
    ensures var s := Run(ADSI, OpenScript(stale));
      && s.mode.InIf? && Finish(s).Some? && |Finish(s).value.subs[0].data.data| == 11
      && Finish(s).value.subs[0].data.data[9] == stale
  {
    OpenScriptSteps(stale);
  }
}
