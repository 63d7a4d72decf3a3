// The records of an ADSI script in the byte arrays of struct adsi_soft_key, adsi_subscript and
// adsi_display (apps/app_adsiprog.c): appended to at a cursor, and patched through an index.
module AdsiBuffers {
  import opened Prelude
  import opened AdsiTables
  import opened AdsiCodes
  import opened AdsiCompiler

  const KEY_BUFFER := 80
  const SUB_BUFFER := 2048
  const DISPLAY_BUFFER := 70

  method MemCpy(buf: array<Byte>, at: nat, bytes: seq<Byte>)
    requires at + |bytes| <= buf.Length
    modifies buf
    ensures buf[..at + |bytes|] == old(buf[..at]) + bytes
    ensures forall j :: 0 <= j < at ==> buf[j] == old(buf[j])
  {
    for i := 0 to |bytes|
      invariant forall j :: 0 <= j < at ==> buf[j] == old(buf[j])
      invariant forall j :: 0 <= j < i ==> buf[at + j] == bytes[j]
    {
      buf[at + i] := bytes[i];
    }
  }

  // The key at place k of its table.
  class KeyBuffer {
    const k: nat
    const retstr: array<Byte>
    var defined: bool
    var initlen: nat
    var retstrlen: nat

    constructor (k: nat)
      ensures Valid() && View() == BLANK_KEY && this.k == k && fresh(retstr)
    {
      this.k, defined, initlen, retstrlen := k, false, 0, 0;
      retstr := new Byte[KEY_BUFFER](_ => 0);
    }

    ghost predicate Valid()
      reads this, retstr
    {
      && retstr.Length == KEY_BUFFER && initlen <= 30 && retstrlen <= initlen + MAX_RET_CODE
      && (!defined ==> retstr[1] == 0)
    }

    function View(): SoftKey
      requires Valid()
      reads this, retstr
    {
      SoftKey(defined, initlen, retstr[..retstrlen])
    }

    // The bytes that come before the codes; the length stays as it was in memory.
    method Begin(long: string, short: string)
      requires Valid() && !defined && |long| <= 18 && |short| <= 7
      modifies this, retstr
      ensures Valid()
      ensures var header := KeyHeader(k, long, short); View() == SoftKey(false, |header|, header)
    {
      retstr[0] := 128;
      retstr[2] := ByteOf(k + FIRST_KEY);
      assert retstr[..3] == [128, 0, ByteOf(k + FIRST_KEY)];
      MemCpy(retstr, 3, Chars(long));
      retstrlen := |long| + 3;
      MemCpy(retstr, retstrlen, [255]);
      retstrlen := retstrlen + 1;
      MemCpy(retstr, retstrlen, Chars(short));
      retstrlen := retstrlen + |short|;
      MemCpy(retstr, retstrlen, [255]);
      retstrlen := retstrlen + 1;
      initlen := retstrlen;
    }

    method AddCode(bytes: seq<Byte>)
      requires Valid() && retstrlen > 1 && retstrlen + |bytes| - initlen <= MAX_RET_CODE
      modifies this, retstr
      ensures Valid() && View() == old(View()).(retstr := old(View()).retstr + bytes)
    {
      MemCpy(retstr, retstrlen, bytes);
      retstrlen := retstrlen + |bytes|;
    }

    method End()
      requires Valid() && retstrlen > 1
      modifies this, retstr
      ensures Valid() && View() == EndKey(old(View()))
    {
      defined := true;
      retstr[1] := ByteOf(retstrlen - 2);
    }
  }

  // The subscript at place i of its table.
  class SubBuffer {
    const i: nat
    const data: array<Byte>
    var defined: bool
    var datalen: nat
    var inscount: nat
    var ifinscount: nat
    var ifdata: nat

    constructor (i: nat)
      ensures Valid() && View() == BLANK_SUB && this.i == i && fresh(data)
    {
      this.i, defined, datalen, inscount, ifinscount, ifdata := i, false, 0, 0, 0, 0;
      data := new Byte[SUB_BUFFER](_ => 0);
    }

    ghost predicate Valid()
      reads this, data
    {
      && data.Length == SUB_BUFFER && datalen <= SUB_BUFFER
      && (!defined ==> data[1] == 0 && (i > 0 ==> data[5] == 0))
    }

    function View(): Subscript
      requires Valid()
      reads this, data
    {
      Subscript(defined, data[..datalen], inscount, ifinscount, ifdata)
    }

    // The header; length and number of instructions stay as they were in memory.
    method Begin()
      requires Valid() && !defined
      modifies this, data
      ensures Valid() && View() == old(View()).(data := SubHeader(i))
    {
      data[0] := 130;
      data[2] := 0;
      datalen := 3;
      if i > 0 {
        data[3] := 9;
        data[4] := ByteOf(i);
        data[6] := 255;
        datalen := 7;
      }
    }

    // An instruction and the byte that separates instructions.
    method AddOp(bytes: seq<Byte>)
      requires Valid() && datalen >= |SubHeader(i)| && datalen + |bytes| + 1 <= SUB_BUFFER
      modifies this, data
      ensures Valid() && View() == AdsiCompiler.AddOp(old(View()), bytes)
    {
      MemCpy(data, datalen, bytes);
      datalen := datalen + |bytes|;
      MemCpy(data, datalen, [255]);
      datalen := datalen + 1;
      inscount := inscount + 1;
    }

    method CountInIf()
      requires Valid()
      modifies this`ifinscount
      ensures Valid() && View() == old(View()).(ifinscount := old(ifinscount) + 1)
    {
      ifinscount := ifinscount + 1;
    }

    method End()
      requires Valid() && datalen >= |SubHeader(i)|
      modifies this, data
      ensures Valid() && View() == EndSub(i, old(View()))
    {
      defined := true;
      data[1] := ByteOf(datalen - 2);
      if i > 0 {
        data[5] := ByteOf(inscount);
      }
    }

    // The extension bit of the last subscript, whether or not the header has been written.
    method EndProgram()
      requires Valid()
      modifies data
      ensures Valid() && View() == old(View()).(data := if datalen < 3 then old(View()).data else old(View()).data[2 := 0x80])
    {
      data[2] := 0x80;
    }

    // The header of a block is reserved; its count is whatever the buffer holds there.
    method BeginIf(event: Byte) returns (ghost stale: Byte)
      requires Valid() && datalen >= |SubHeader(i)| && datalen + 4 <= SUB_BUFFER
      modifies this, data
      ensures Valid() && View() == AdsiCompiler.BeginIf(old(View()), event, stale)
    {
      stale := data[datalen + 2];
      ifinscount := 0;
      ifdata := datalen;
      data[ifdata] := 1;
      data[ifdata + 1] := event;
      data[ifdata + 3] := 255;
      datalen := datalen + 4;
      inscount := inscount + 1;
    }

    // The count is filled in.
    method EndIf()
      requires Valid() && ifdata + 2 < datalen
      modifies this, data
      ensures Valid() && View() == AdsiCompiler.EndIf(old(View()))
    {
      defined := true;
      data[ifdata + 2] := ByteOf(ifinscount);
    }

    // GOTO inside a block repeats the event of the block.
    method AddIfGoto(sub: nat)
      requires Valid() && ifdata + 2 < datalen && datalen >= |SubHeader(i)| && datalen + 4 <= SUB_BUFFER
      modifies this, data
      ensures Valid() && View() == AddIfOp(old(View()), [8, IfEvent(old(View())), ByteOf(sub)])
    {
      assert old(View()).data[ifdata + 1] == data[ifdata + 1];
      AddOp([8, data[ifdata + 1], ByteOf(sub)]);
      ifinscount := ifinscount + 1;
    }
  }

  // The display at place d of its table.
  class DisplayBuffer {
    const d: nat
    const data: array<Byte>
    var datalen: nat

    constructor (d: nat)
      ensures Valid() && View() == [] && this.d == d && fresh(data)
    {
      this.d, datalen := d, 0;
      data := new Byte[DISPLAY_BUFFER](_ => 0);
    }

    ghost predicate Valid()
      reads this, data
    {
      && data.Length == DISPLAY_BUFFER && datalen <= DISPLAY_BUFFER
      && (datalen == 0 ==> forall j :: 0 <= j < 5 ==> data[j] == 0)
    }

    function View(): seq<Byte>
      requires Valid()
      reads this, data
    {
      data[..datalen]
    }

    // The loop over the qualifiers.
    static method ReadQualifiers(justify: seq<string>, args: seq<Token>, start: nat)
        returns (good: bool, lrci: nat, wrap: bool)
      ensures Qualifiers(justify, args, start, 0, false) == if good then Some((lrci, wrap)) else None
    {
      lrci, wrap := 0, false;
      var i := start;
      while i < |args|
        invariant Qualifiers(justify, args, start, 0, false) == Qualifiers(justify, args, i, lrci, wrap)
        decreases |args| - i
      {
        if WordIs(args, i, "JUSTIFY") {
          if i + 1 >= |args| {
            break;
          }
          var j := if args[i + 1].Word? then IndexOf(justify, args[i + 1].text) else None;
          if j == None {
            return false, lrci, wrap;
          }
          lrci := j.value;
          i := i + 2;
        } else if WordIs(args, i, "WRAP") {
          wrap := true;
          i := i + 1;
        } else {
          return false, lrci, wrap;
        }
      }
      return true, lrci, wrap;
    }

    // The columns, after room for the header.
    method WriteColumns(col1: string, col2: Option<string>)
      requires Valid() && datalen == 0
      modifies this, data
      ensures Valid() && 5 < datalen && View() == [0, 0, 0, 0, 0] + Columns(col1, col2)
    {
      assert data[..5] == [0, 0, 0, 0, 0];
      MemCpy(data, 5, Chars(Cut(col1, 20)));
      datalen := |Cut(col1, 20)| + 5;
      MemCpy(data, datalen, [255]);
      datalen := datalen + 1;
      if col2.Some? {
        MemCpy(data, datalen, Chars(Cut(col2.value, 20)));
        datalen := datalen + |Cut(col2.value, 20)|;
      }
    }

    method WriteHeader(lrci: nat, wrap: bool)
      requires Valid() && 5 < datalen
      modifies data
      ensures Valid()
      ensures View() ==
        [129, ByteOf(datalen - 2), Low(Low(lrci, 4) * 64 + (d + FIRST_DISPLAY), 256), if wrap then 0x80 else 0, 255]
        + old(View()[5..])
    {
      data[0] := 129;
      data[1] := ByteOf(datalen - 2);
      data[2] := Low(Low(lrci, 4) * 64 + (d + FIRST_DISPLAY), 256);
      data[3] := if wrap then 0x80 else 0;
      data[4] := 255;
    }

    // What follows the name on a DISPLAY line.
    method Define(justify: seq<string>, args: seq<Token>)
      requires Valid() && datalen == 0
      modifies this, data
      ensures Valid() && View() == DisplayData(justify, d + FIRST_DISPLAY, args)
    {
      var col1, col2 := Text(args, 2, 79), Text(args, 3, 79);
      if !WordIs(args, 1, "IS") || col1 == None {
        return;
      }
      WriteColumns(col1.value, col2);
      ghost var columns := Columns(col1.value, col2);
      assert View()[5..] == columns;
      var good, lrci, wrap := ReadQualifiers(justify, args, if col2.Some? then 4 else 3);
      if good {
        WriteHeader(lrci, wrap);
      }
    }
  }
}
