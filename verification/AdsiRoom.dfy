// How long the subscripts of an ADSI script can get (apps/app_adsiprog.c:976-1010, 1279-1352). An
// instruction is only added if there is room for it, what IFEVENT and GOTO add is not checked.
module AdsiRoom {
  import opened Prelude
  import opened AdsiTables
  import opened AdsiCodes
  import opened AdsiCompiler
  import opened AdsiBuffers
  import opened AdsiScript

  predicate IsUnchecked(tokens: seq<Token>) {
    WordIs(tokens, 0, "IFEVENT") || WordIs(tokens, 0, "GOTO")
  }

  function Unchecked(lines: seq<seq<Token>>): nat {
    if lines == [] then 0
    else Unchecked(lines[..|lines| - 1]) + if IsUnchecked(lines[|lines| - 1]) then 1 else 0
  }

  predicate Within(t: Tables, n: nat) {
    forall i :: 0 <= i < |t.subs| ==> |t.subs[i].data.data| <= MAX_MAIN_LEN + 4 * n
  }

  lemma InSubWithin(lang: Language, s: Script, i: nat, w: string, args: seq<Token>, stale: Stale, n: nat)
    requires i < |s.t.subs| && Within(s.t, n)
    ensures Within(ProcessSub(lang, s, i, w, args, stale).t, if SameName(w, "IFEVENT") then n + 1 else n)
  {
    var a := Opcode(lang, s.t, i, w, args, stale);
    assert Within(a.t, n);
  }

  lemma InIfWithin(lang: Language, s: Script, i: nat, w: string, args: seq<Token>, stale: Stale, n: nat)
    requires i < |s.t.subs| && Within(s.t, n)
    ensures Within(ProcessIf(lang, s, i, w, args, stale).t, if SameName(w, "GOTO") then n + 1 else n)
  {
    var a := Opcode(lang, s.t, i, w, args, stale);
    assert Within(a.t, n);
  }

  lemma InKeyWithin(lang: Language, s: Script, k: nat, w: string, args: seq<Token>, stale: Stale, n: nat)
    requires k < |s.t.keys| && Within(s.t, n)
    ensures Within(ProcessKey(lang, s, k, w, args, stale).t, n)
  {
  }

  lemma InProgramWithin(lang: Language, s: Script, args: seq<Token>, w: string, n: nat)
    requires Within(s.t, n)
    ensures Within(ProcessProgram(lang, s, args, w).t, n)
  {
  }

  lemma LineWithin(lang: Language, s: Script, line: Line, n: nat)
    requires ModeOk(s) && Within(s.t, n)
    ensures Within(AdsiCompiler.Process(lang, s, line).t, n + if IsUnchecked(line.tokens) then 1 else 0)
  {
    if line.tokens != [] && line.tokens[0].Word? {
      var w, args := line.tokens[0].text, line.tokens[1..];
      match s.mode
      case InProgram => InProgramWithin(lang, s, args, w, n);
      case InKey(k) => InKeyWithin(lang, s, k, w, args, line.stale, n);
      case InSub(i) => InSubWithin(lang, s, i, w, args, line.stale, n);
      case InIf(i) => InIfWithin(lang, s, i, w, args, line.stale, n);
    }
  }

  // Four bytes at most for each line that is not checked, beyond what the largest limit allows.
  lemma {:induction false} RunWithin(lang: Language, read: seq<Line>, lines: seq<seq<Token>>)
    requires |read| == |lines| && Reads(read, lines)
    ensures Within(Run(lang, read).t, Unchecked(lines))
  {
    if read != [] {
      var last := |read| - 1;
      RunWithin(lang, read[..last], lines[..last]);
      LineWithin(lang, Run(lang, read[..last]), read[last], Unchecked(lines[..last]));
    }
  }

  lemma {:induction false} UncheckedPrefix(lines: seq<seq<Token>>, n: nat)
    requires n <= |lines|
    ensures Unchecked(lines[..n]) <= Unchecked(lines)
  {
    if n < |lines| {
      UncheckedPrefix(lines[..|lines| - 1], n);
      assert lines[..|lines| - 1][..n] == lines[..n];
    } else {
      assert lines[..n] == lines;
    }
  }

  // With 111 such lines or fewer no subscript can overflow.
  lemma FewUncheckedRoomy(lang: Language, lines: seq<seq<Token>>)
    requires MAX_MAIN_LEN + 4 * Unchecked(lines) + 4 <= SUB_BUFFER
    ensures Roomy(lang, lines)
  {
    forall read | Reads(read, lines) && |read| < |lines|
      ensures HasRoom(Run(lang, read))
    {
      RunWithin(lang, read, lines[..|read|]);
      UncheckedPrefix(lines, |read|);
    }
  }
}
