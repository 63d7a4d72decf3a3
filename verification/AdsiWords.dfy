// The words of the ADSI script language and what they stand for (apps/app_adsiprog.c:72-108, 885-944).
module AdsiWords {
  import opened Prelude
  import opened AdsiTables
  import opened AdsiCodes
  import opened AdsiCompiler

  // The command a word stands for.
  function Meaning(cs: seq<Command>, w: string): Option<Command> {
    var x := FindCommand(cs, w);
    if x.Some? then Some(cs[x.value]) else None
  }

  predicate NamesApart(cs: seq<Command>) {
    forall x, k :: 0 <= x < k < |cs| ==> !SameName(cs[x].name, cs[k].name)
  }

  lemma {:induction false} FoundFrom(cs: seq<Command>, w: string, k: nat, from: nat)
    requires from <= k < |cs| && NamesApart(cs) && SameName(cs[k].name, w)
    ensures FindCommand(cs, w, from) == Some(k)
    decreases k - from
  {
    if from < k {
      assert !SameName(cs[from].name, cs[k].name);
      FoundFrom(cs, w, k, from + 1);
    }
  }

  lemma Means(cs: seq<Command>, c: Command, w: string)
    requires c in cs && NamesApart(cs) && SameName(c.name, w)
    ensures Meaning(cs, w) == Some(c)
  {
    var k :| 0 <= k < |cs| && cs[k] == c;
    FoundFrom(cs, w, k, 0);
  }

  // ------------------------------------------------------------------ no word stands for two

  // A number that tells words apart by their length, their first and their last letter.
  function Sum(w: string): int
    requires w != ""
  {
    10000 * |w| + 100 * LowerChar(w[0]) as int + LowerChar(w[|w| - 1]) as int
  }

  lemma SameSum(a: string, b: string)
    requires SameName(a, b) && a != ""
    ensures b != "" && Sum(a) == Sum(b)
  {
    assert |Lower(a)| == |Lower(b)| && Lower(a)[0] == Lower(b)[0] && Lower(a)[|a| - 1] == Lower(b)[|a| - 1];
  }

  predicate SumsIn(cs: seq<Command>, sums: seq<int>, from: nat, to: nat) {
    |sums| == |cs| && forall k :: from <= k < to && k < |cs| ==> cs[k].name != "" && Sum(cs[k].name) == sums[k]
  }

  predicate Different(sums: seq<int>) {
    forall x, k :: 0 <= x < k < |sums| ==> sums[x] != sums[k]
  }

  lemma ApartBySums(cs: seq<Command>, sums: seq<int>)
    requires SumsIn(cs, sums, 0, |cs|) && Different(sums)
    ensures NamesApart(cs)
  {
    forall x, k | 0 <= x < k < |cs|
      ensures !SameName(cs[x].name, cs[k].name)
    {
      assert sums[x] != sums[k];
      if SameName(cs[x].name, cs[k].name) {
        SameSum(cs[x].name, cs[k].name);
      }
    }
  }

  const KEY_SUMS: seq<int> := [
    91602, 71207, 81207, 60304, 132001, 59907, 101615, 110015, 99901, 90401, 120408, 71312, 91310, 60121,
    130101, 90101, 101901, 89949, 130116, 120116, 60014, 121621, 130021, 91615, 91601, 111716, 111714, 81603,
    100003, 50411, 80150, 80151, 50216]

  lemma KeySums1()
    ensures SumsIn(KEY_COMMANDS, KEY_SUMS, 0, 9)
  {
  }

  lemma KeySums2()
    ensures SumsIn(KEY_COMMANDS, KEY_SUMS, 9, 18)
  {
  }

  lemma KeySums3()
    ensures SumsIn(KEY_COMMANDS, KEY_SUMS, 18, 27)
  {
  }

  lemma KeySums4()
    ensures SumsIn(KEY_COMMANDS, KEY_SUMS, 27, 33)
  {
  }

  lemma KeyDifferent()
    ensures Different(KEY_SUMS)
  {
  }

  lemma KeyWordsApart()
    ensures NamesApart(KEY_COMMANDS)
  {
    KeySums1();
    KeySums2();
    KeySums3();
    KeySums4();
    KeyDifferent();
    ApartBySums(KEY_COMMANDS, KEY_SUMS);
  }

  const OP_SUMS: seq<int> := [
    91615, 121621, 130021, 60014, 91601, 111716, 111714, 81216, 81603, 100003, 60121, 50216]

  lemma OpSums()
    ensures SumsIn(OP_COMMANDS, OP_SUMS, 0, 12)
  {
  }

  lemma OpDifferent()
    ensures Different(OP_SUMS)
  {
  }

  lemma OpWordsApart()
    ensures NamesApart(OP_COMMANDS)
  {
    OpSums();
    OpDifferent();
    ApartBySums(OP_COMMANDS, OP_SUMS);
  }

  // What each word of a soft key stands for, in any case.
  lemma KeyWord(c: Command, w: string)
    requires SameName(c.name, w) && c in [
      Bytes("SENDDTMF", 0, SendDtmf), Plain("ONHOOK", 0x81), Plain("OFFHOOK", 0x82), Plain("FLASH", 0x83),
      Plain("WAITDIALTONE", 0x84), Plain("BLANK", 0x86), Plain("SENDCHARS", 0x87), Plain("CLEARCHARS", 0x88),
      Plain("BACKSPACE", 0x89), Bytes("GOTOLINE", 0x8b, GotoLine), Bytes("GOTOLINEREL", 0x8c, GotoLineRel),
      Plain("PAGEUP", 0x8d), Plain("PAGEDOWN", 0x8e), Bytes("DELAY", 0x90, SendDelay),
      Plain("DIALPULSEONE", 0x91), Plain("DATAMODE", 0x92), Plain("VOICEMODE", 0x93),
      Bytes("CLEARCB1", 0x95, Operand(0)), Bytes("DIGITCOLLECT", 0x96, Operand(0xf)),
      Bytes("DIGITDIRECT", 0x96, Operand(0x7)), Plain("CLEAR", 0x97), ShowDisplay("SHOWDISPLAY", 0x98),
      Bytes("CLEARDISPLAY", 0x98, Operand(0)), ShowKeys("SHOWKEYS", 0x99), Bytes("SETSTATE", 0x9a, SetState),
      Bytes("TIMERSTART", 0x9b, StartTimer), Bytes("TIMERCLEAR", 0x9b, ClearTimer),
      Flag("SETFLAG", 0x9c, true), Flag("CLEARFLAG", 0x9c, false), CallSub("GOTO", 0x9d),
      Plain("EVENT22", 0x9e), Plain("EVENT23", 0x9f), Plain("EXIT", 0xa0)]
    ensures Meaning(KEY_COMMANDS, w) == Some(c)
  {
    assert c in KEY_COMMANDS;
    KeyWordsApart();
    Means(KEY_COMMANDS, c, w);
  }

  // And of a subscript.
  lemma OpWord(c: Command, w: string)
    requires SameName(c.name, w) && c in [
      ShowKeys("SHOWKEYS", 2), ShowDisplay("SHOWDISPLAY", 3), Bytes("CLEARDISPLAY", 3, Operand(0)),
      Plain("CLEAR", 5), Bytes("SETSTATE", 6, SetState), Bytes("TIMERSTART", 7, StartTimer),
      Bytes("TIMERCLEAR", 7, ClearTimer), OnEvent("ONEVENT", 8), Flag("SETFLAG", 10, true),
      Flag("CLEARFLAG", 10, false), Bytes("DELAY", 11, SendDelay), Plain("EXIT", 12)]
    ensures Meaning(OP_COMMANDS, w) == Some(c)
  {
    assert c in OP_COMMANDS;
    OpWordsApart();
    Means(OP_COMMANDS, c, w);
  }

  // The words that end or open a block are no commands there.
  lemma NotAmong(cs: seq<Command>, sums: seq<int>, w: string)
    requires SumsIn(cs, sums, 0, |cs|) && w != "" && Sum(w) !in sums
    ensures FindCommand(cs, w) == None
  {
    var c := FindCommand(cs, w);
    assert c.Some? ==> sums[c.value] in sums;
    if c.Some? {
      SameSum(w, cs[c.value].name);
    }
  }

  lemma BlockWords(w: string, word: string)
    requires (word == "ENDSUB" || word == "IFEVENT" || word == "ENDIF" || word == "GOTO") && SameName(word, w)
    ensures FindCommand(OP_COMMANDS, w) == None
  {
    OpSums();
    SameSum(word, w);
    NotAmong(OP_COMMANDS, OP_SUMS, w);
  }

  lemma EndKeyWord(w: string)
    requires SameName("ENDKEY", w)
    ensures FindCommand(KEY_COMMANDS, w) == None
  {
    KeySums1();
    KeySums2();
    KeySums3();
    KeySums4();
    SameSum("ENDKEY", w);
    NotAmong(KEY_COMMANDS, KEY_SUMS, w);
  }

  // --------------------------------------------------------------- events and justifications

  lemma {:induction false} IndexFound(words: seq<string>, w: string, k: nat)
    requires k < |words| && SameName(words[k], w)
    requires forall x, y :: 0 <= x < y < |words| ==> !SameName(words[x], words[y])
    ensures IndexOf(words, w) == Some(k)
  {
    if k > 0 {
      assert !SameName(words[0], words[k]);
      var rest := words[1..];
      assert rest[k - 1] == words[k];
      forall x, y | 0 <= x < y < |rest|
        ensures !SameName(rest[x], rest[y])
      {
        assert rest[x] == words[x + 1] && rest[y] == words[y + 1];
      }
      IndexFound(rest, w, k - 1);
    }
  }

  const EVENT_SUMS: seq<int> := [
      90000, 51905, 111114, 100314, 100203, 50601, 81207, 60019, 49921, 80303, 90101, 71508, 81001, 81514,
      160103, 51503, 131503, 121603, 100003, 61714, 60601, 80150, 80151, 60000]

  lemma EventSums()
    ensures |EVENTS| == |EVENT_SUMS|
    ensures forall k :: 0 <= k < |EVENTS| ==> EVENTS[k] != "" && Sum(EVENTS[k]) == EVENT_SUMS[k]
  {
  }

  lemma EventsDifferent()
    ensures Different(EVENT_SUMS)
  {
  }

  lemma EventsApart(x: nat, y: nat)
    requires x < y < |EVENTS|
    ensures !SameName(EVENTS[x], EVENTS[y])
  {
    EventSums();
    EventsDifferent();
    assert EVENT_SUMS[x] != EVENT_SUMS[y];
    if SameName(EVENTS[x], EVENTS[y]) {
      SameSum(EVENTS[x], EVENTS[y]);
    }
  }

  // The events by their numbers.
  lemma EventWord(k: nat, w: string, args: seq<Token>, i: nat)
    requires k < 24 && i < |args| && args[i] == Word(w) && SameName(w, [
      "CALLERID", "VMWI", "NEARANSWER", "FARANSWER", "ENDOFRING", "IDLE", "OFFHOOK", "CIDCW", "BUSY",
      "FARRING", "DIALTONE", "RECALL", "MESSAGE", "REORDER", "DISTINCTIVERING", "RING", "REMINDERRING",
      "SPECIALRING", "CODEDRING", "TIMER", "INUSE", "EVENT22", "EVENT23", "CPEID"][k])
    ensures EventId(EVENTS, args, i) == Some(k + 1)
  {
    forall x, y | 0 <= x < y < |EVENTS|
      ensures !SameName(EVENTS[x], EVENTS[y])
    {
      EventsApart(x, y);
    }
    IndexFound(EVENTS, w, k);
  }

  lemma JustifyWord(k: nat, w: string)
    requires k < 4 && SameName(w, ["CENTER", "RIGHT", "LEFT", "INDENT"][k])
    ensures IndexOf(JUSTIFY, w) == Some(k)
  {
    assert JUSTIFY == ["CENTER", "RIGHT", "LEFT", "INDENT"];
    forall x, y | 0 <= x < y < 4
      ensures !SameName(JUSTIFY[x], JUSTIFY[y])
    {
      assert Sum("CENTER") == 70014 && Sum("RIGHT") == 61516 && Sum("LEFT") == 50916 && Sum("INDENT") == 70616;
      if SameName(JUSTIFY[x], JUSTIFY[y]) {
        SameSum(JUSTIFY[x], JUSTIFY[y]);
      }
    }
    IndexFound(JUSTIFY, w, k);
  }
}
