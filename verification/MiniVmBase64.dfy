// The base64 encoder for mail attachments (apps/app_minivm.c).
//
// The encoding and its inverse follow section 4 of RFC 4648; the limit of 76 characters a line is
// that of section 6.8 of RFC 2045. Bit operations of the source are written as arithmetic: x >> 2
// is x / 4, x & 3 is x % 4, and an | of parts that share no bit is a sum.
module MiniVmBase64 {
  import opened Prelude

  const BASE_MAX_INLINE := 256
  const BASE_LINE_LEN := 72
  const EOL := "\r\n"

  type Sextet = v: int | 0 <= v < 64

  function Digit(v: Sextet): char {
    if v < 26 then 'A' + v as char
    else if v < 52 then 'a' + (v - 26) as char
    else if v < 62 then '0' + (v - 52) as char
    else if v == 62 then '+' else '/'
  }

  function Value(c: char): Option<Sextet> {
    if 'A' <= c <= 'Z' then Some((c - 'A') as int)
    else if 'a' <= c <= 'z' then Some((c - 'a') as int + 26)
    else if '0' <= c <= '9' then Some((c - '0') as int + 52)
    else if c == '+' then Some(62)
    else if c == '/' then Some(63) else None
  }

  function Group(a: Byte, b: Byte, c: Byte, n: nat): (g: string)
    requires 1 <= n <= 3
    ensures |g| == 4
  {
    [Digit(a / 4), Digit(a % 4 * 16 + b / 16),
     if n < 2 then '=' else Digit(b % 16 * 4 + c / 64), if n < 3 then '=' else Digit(c % 64)]
  }

  function Encode(content: seq<Byte>): (s: string)
    ensures |s| % 4 == 0
  {
    match |content|
    case 0 => ""
    case 1 => Group(content[0], 0, 0, 1)
    case 2 => Group(content[0], content[1], 0, 2)
    case _ => Group(content[0], content[1], content[2], 3) + Encode(content[3..])
  }

  // One, two or three bytes of a group of four characters.
  function DecodeGroup(g: string): Option<seq<Byte>>
    requires |g| == 4
  {
    var a, b, c, d := Value(g[0]), Value(g[1]), Value(g[2]), Value(g[3]);
    if a.None? || b.None? then None
    else if g[2] == '=' && g[3] == '=' then
      if b.value % 16 == 0 then Some([a.value * 4 + b.value / 16]) else None
    else if c.None? then None
    else if g[3] == '=' then
      if c.value % 4 == 0 then Some([a.value * 4 + b.value / 16, b.value % 16 * 16 + c.value / 4]) else None
    else if d.None? then None
    else Some([a.value * 4 + b.value / 16, b.value % 16 * 16 + c.value / 4, c.value % 4 * 64 + d.value])
  }

  // A decoder; padding is allowed in the last group only.
  function Decode(s: string): Option<seq<Byte>> {
    if s == "" then Some([])
    else if |s| < 4 then None
    else
      match (DecodeGroup(s[..4]), Decode(s[4..]))
      case (Some(first), Some(rest)) => if |first| < 3 && s[4..] != "" then None else Some(first + rest)
      case _ => None
  }

  // What the encoder writes when `len` characters are on the current line already.
  function Folded(s: string, len: nat := 0): string {
    if s == "" then EOL
    else if len >= BASE_LINE_LEN then EOL + [s[0]] + Folded(s[1..], 1)
    else [s[0]] + Folded(s[1..], len + 1)
  }

  // The alphabet of RFC 4648, table 1, and the test vectors of its section 10.
  lemma Alphabet(v: Sextet)
    ensures Digit(v) == if v < 26 then "ABCDEFGHIJKLMNOPQRSTUVWXYZ"[v]
                        else if v < 52 then "abcdefghijklmnopqrstuvwxyz"[v - 26] else "0123456789+/"[v - 52]
  {
  }

  lemma TestVectors()
    ensures Encode([]) == "" && Encode([102]) == "Zg==" && Encode([102, 111]) == "Zm8="
    ensures Encode([102, 111, 111]) == "Zm9v" && Encode([102, 111, 111, 98]) == "Zm9vYg=="
    ensures Encode([102, 111, 111, 98, 97]) == "Zm9vYmE=" && Encode([102, 111, 111, 98, 97, 114]) == "Zm9vYmFy"
  {
    assert Group(102, 0, 0, 1) == "Zg==" && Group(102, 111, 0, 2) == "Zm8=" && Group(102, 111, 111, 3) == "Zm9v";
    assert Group(98, 0, 0, 1) == "Yg==" && Group(98, 97, 0, 2) == "YmE=" && Group(98, 97, 114, 3) == "YmFy";
    assert [102, 111, 111, 98][3..] == [98] && [102, 111, 111, 98, 97][3..] == [98, 97];
    assert [102, 111, 111, 98, 97, 114][3..] == [98, 97, 114] && [102, 111, 111][3..] == [] && [98, 97, 114][3..] == [];
  }

  // ------------------------------------------------------------------------------ round trip

  lemma ValueOfDigit(v: Sextet)
    ensures Value(Digit(v)) == Some(v) && Digit(v) != '=' && Digit(v) != '\r' && Digit(v) != '\n'
  {
  }

  // Splitting three bytes into four sextets and putting them together again.
  lemma Sextets(a: Byte, b: Byte, c: Byte)
    ensures var v1, v2 := a % 4 * 16 + b / 16, b % 16 * 4 + c / 64;
      && v1 % 16 == b / 16 && v2 % 4 == c / 64 && a / 4 * 4 + v1 / 16 == a
      && v1 % 16 * 16 + v2 / 4 == b && v2 % 4 * 64 + c % 64 == c
  {
    var v1, v2 := a % 4 * 16 + b / 16, b % 16 * 4 + c / 64;
    assert v1 / 16 == a % 4 && v1 % 16 == b / 16;
    assert v2 / 4 == b % 16 && v2 % 4 == c / 64;
  }

  lemma GroupRoundTrip(a: Byte, b: Byte, c: Byte, n: nat)
    requires 1 <= n <= 3 && (n < 2 ==> b == 0) && (n < 3 ==> c == 0)
    ensures DecodeGroup(Group(a, b, c, n)) == Some([a, b, c][..n])
  {
    var v1, v2 := a % 4 * 16 + b / 16, b % 16 * 4 + c / 64;
    ValueOfDigit(a / 4);
    ValueOfDigit(v1);
    ValueOfDigit(v2);
    ValueOfDigit(c % 64);
    Sextets(a, b, c);
    assert [a, b, c][..1] == [a] && [a, b, c][..2] == [a, b] && [a, b, c][..3] == [a, b, c];
  }

  lemma {:induction false} DecodeEncode(content: seq<Byte>)
    ensures Decode(Encode(content)) == Some(content)
  {
    var n := if |content| < 3 then |content| else 3;
    if n > 0 {
      var at := (i: nat) => if i < n then content[i] else 0;
      var g, tail := Group(at(0), at(1), at(2), n), Encode(content[n..]);
      GroupRoundTrip(at(0), at(1), at(2), n);
      DecodeEncode(content[n..]);
      assert Encode(content) == g + tail;
      assert (g + tail)[..4] == g && (g + tail)[4..] == tail;
      assert [at(0), at(1), at(2)][..n] == content[..n];
      assert content[..n] + content[n..] == content;
    }
  }

  lemma DigitOfValue(c: char)
    requires Value(c).Some?
    ensures Digit(Value(c).value) == c && c != '='
  {
  }

  lemma DecodedGroup(g: string)
    requires |g| == 4 && DecodeGroup(g).Some?
    ensures var d := DecodeGroup(g).value;
      1 <= |d| <= 3 && g == Group(d[0], if |d| > 1 then d[1] else 0, if |d| > 2 then d[2] else 0, |d|)
  {
    var d := DecodeGroup(g).value;
    DigitOfValue(g[0]);
    DigitOfValue(g[1]);
    var a, b := Value(g[0]).value, Value(g[1]).value;
    assert d[0] / 4 == a && d[0] % 4 == b / 16;
    if g[2] != '=' || g[3] != '=' {
      DigitOfValue(g[2]);
      var c := Value(g[2]).value;
      assert d[1] / 16 == b % 16 && d[1] % 16 == c / 4;
      if g[3] != '=' {
        DigitOfValue(g[3]);
        assert d[2] / 64 == c % 4 && d[2] % 64 == Value(g[3]).value;
      }
    }
  }

  // The other direction: the decoder accepts nothing but what the encoder writes.
  lemma {:induction false} EncodeDecode(s: string)
    requires Decode(s).Some?
    ensures Encode(Decode(s).value) == s
  {
    if s != "" {
      var g, tail := s[..4], s[4..];
      var d, rest := DecodeGroup(g).value, Decode(tail).value;
      DecodedGroup(g);
      EncodeDecode(tail);
      assert g + tail == s;
      if |d| < 3 {
        assert d + rest == d;
      } else {
        assert (d + rest)[3..] == rest;
      }
    }
  }

  predicate NoCrlf(s: string) { '\r' !in s && '\n' !in s }

  lemma {:induction false} EncodedPlain(content: seq<Byte>)
    ensures NoCrlf(Encode(content))
  {
    if |content| >= 3 {
      EncodedPlain(content[3..]);
    }
  }

  // Every CR LF pair of a text deleted.
  function DeleteCrlf(s: string): string {
    if |s| < 2 then s
    else if s[..2] == EOL then DeleteCrlf(s[2..])
    else [s[0]] + DeleteCrlf(s[1..])
  }

  lemma DeleteEol(t: string)
    ensures DeleteCrlf(EOL + t) == DeleteCrlf(t)
  {
    assert (EOL + t)[..2] == EOL && (EOL + t)[2..] == t;
  }

  lemma DeleteOther(c: char, t: string)
    requires c != '\r'
    ensures DeleteCrlf([c] + t) == [c] + DeleteCrlf(t)
  {
    assert ([c] + t)[1..] == t;
    if t != "" {
      assert ([c] + t)[..2][0] != EOL[0];
    }
  }

  lemma {:induction false} DeleteFolded(s: string, len: nat)
    requires NoCrlf(s)
    ensures DeleteCrlf(Folded(s, len)) == s
    decreases |s|
  {
    if s == "" {
      DeleteEol("");
      assert EOL + "" == EOL;
    } else {
      var n := if len >= BASE_LINE_LEN then 1 else len + 1;
      var tail := [s[0]] + Folded(s[1..], n);
      DeleteFolded(s[1..], n);
      DeleteOther(s[0], Folded(s[1..], n));
      if len >= BASE_LINE_LEN {
        assert Folded(s, len) == EOL + tail;
        DeleteEol(tail);
      }
    }
  }

  // Whatever the file holds, a mail reader gets it back.
  lemma AttachmentRoundTrip(content: seq<Byte>)
    ensures Decode(DeleteCrlf(Folded(Encode(content)))) == Some(content)
  {
    EncodedPlain(content);
    DeleteFolded(Encode(content), 0);
    DecodeEncode(content);
  }

  // ----------------------------------------------------------------------------------- lines

  function Joined(lines: seq<string>): string {
    if lines == [] then "" else lines[0] + EOL + Joined(lines[1..])
  }

  // Full lines of 72 characters and a last one of at most 72, empty only for an empty text.
  predicate WellFolded(lines: seq<string>) {
    && |lines| > 0
    && (forall i :: 0 <= i < |lines| - 1 ==> |lines[i]| == 72)
    && |lines[|lines| - 1]| <= 72
    && (|lines| > 1 ==> lines[|lines| - 1] != "")
    && (forall i :: 0 <= i < |lines| ==> NoCrlf(lines[i]))
  }

  function LinesFrom(s: string, line: string): (lines: seq<string>)
    requires |line| <= BASE_LINE_LEN && NoCrlf(s) && NoCrlf(line)
    ensures |lines| > 0
    decreases |s|
  {
    if s == "" then [line]
    else if |line| == BASE_LINE_LEN then [line] + LinesFrom(s[1..], [s[0]])
    else LinesFrom(s[1..], line + [s[0]])
  }

  lemma {:induction false} LinesFolded(s: string, line: string)
    requires |line| <= BASE_LINE_LEN && NoCrlf(s) && NoCrlf(line)
    ensures Joined(LinesFrom(s, line)) == line + Folded(s, |line|)
    ensures (forall i :: 0 <= i < |LinesFrom(s, line)| - 1 ==> |LinesFrom(s, line)[i]| == BASE_LINE_LEN)
    ensures WellFolded(LinesFrom(s, line))
    decreases |s|
  {
    var ls := LinesFrom(s, line);
    if s == "" {
      assert Joined(ls[1..]) == "";
    } else if |line| == BASE_LINE_LEN {
      LinesFolded(s[1..], [s[0]]);
      assert ls[1..] == LinesFrom(s[1..], [s[0]]);
    } else {
      LinesFolded(s[1..], line + [s[0]]);
      assert line + [s[0]] + Folded(s[1..], |line| + 1) == line + Folded(s, |line|);
    }
  }

  // The output is a sequence of well folded lines, none longer than the 76 characters of RFC 2045.
  lemma OutputLines(content: seq<Byte>) returns (lines: seq<string>)
    ensures Folded(Encode(content)) == Joined(lines) && WellFolded(lines)
    ensures forall line <- lines :: |line| <= 76
  {
    EncodedPlain(content);
    lines := LinesFrom(Encode(content), "");
    LinesFolded(Encode(content), "");
    assert "" + Folded(Encode(content)) == Folded(Encode(content));
  }

  // ----------------------------------------------------------------------- the code in place

  // A file being read; every read may stop short, at end of file it gives nothing.
  class InFile {
    var rest: seq<Byte>

    constructor (content: seq<Byte>)
      ensures rest == content
    {
      rest := content;
    }

    method Fread(buf: array<Byte>, size: nat) returns (l: nat)
      requires 0 < size <= buf.Length
      modifies this, buf
      ensures l <= size && l <= |old(rest)| && (l == 0 <==> old(rest) == [])
      ensures buf[..l] == old(rest[..l]) && rest == old(rest[l..])
    {
      l := 0;
      if rest != [] {
        l :| 1 <= l <= size && l <= |rest|;
      }
      for i := 0 to l
        modifies buf
        invariant buf[..i] == rest[..i]
      {
        buf[i] := rest[i];
      }
      rest := rest[l..];
    }
  }

  class OutFile {
    var text: string

    constructor ()
      ensures text == ""
    {
      text := "";
    }
  }

  class B64BaseIo {
    var iocp: nat
    var iolen: nat
    var linelength: nat
    var ateof: bool
    const iobuf: array<Byte>

    constructor ()
      ensures Valid() && fresh(iobuf) && linelength == 0 && !ateof && Pending() == []
    {
      iocp, iolen, linelength, ateof := BASE_MAX_INLINE, 0, 0, false;
      iobuf := new Byte[BASE_MAX_INLINE];
    }

    ghost predicate Valid()
      reads this
    {
      iobuf.Length == BASE_MAX_INLINE && iolen <= BASE_MAX_INLINE && (ateof ==> iocp >= iolen)
    }

    ghost function Pending(): seq<Byte>
      requires Valid()
      reads this, iobuf
    {
      if iocp < iolen then iobuf[iocp..iolen] else []
    }

    // What is still to come of the file: the rest of the buffer, then the rest of the file.
    ghost function Unread(fi: InFile): seq<Byte>
      requires Valid()
      reads this, iobuf, fi
    {
      Pending() + fi.rest
    }

    ghost predicate Reading(fi: InFile)
      reads this, fi
    {
      Valid() && (ateof ==> fi.rest == [])
    }

    // b64_inbuf
    method InBuf(fi: InFile) returns (more: bool)
      requires Reading(fi) && iocp >= iolen
      modifies this`iocp, this`iolen, this`ateof, iobuf, fi
      ensures Reading(fi) && Unread(fi) == old(fi.rest)
      ensures more <==> old(fi.rest) != []
      ensures more ==> iocp < iolen
    {
      if ateof {
        return false;
      }
      var l := fi.Fread(iobuf, BASE_MAX_INLINE);
      if l <= 0 {
        ateof := true;
        return false;
      }
      iolen := l;
      iocp := 0;
      return true;
    }

    // b64_inchar
    method InChar(fi: InFile) returns (c: Option<Byte>)
      requires Reading(fi)
      modifies this`iocp, this`iolen, this`ateof, iobuf, fi
      ensures Reading(fi)
      ensures var unread := old(Unread(fi));
        if unread == [] then c == None && Unread(fi) == []
        else c == Some(unread[0]) && Unread(fi) == unread[1..]
    {
      if iocp >= iolen {
        var more := InBuf(fi);
        if !more {
          return None;
        }
      }
      ghost var buffered, unread := iobuf[iocp..iolen], Unread(fi);
      assert unread == buffered + fi.rest;
      c := Some(iobuf[iocp]);
      iocp := iocp + 1;
      assert Pending() == buffered[1..] && Unread(fi) == unread[1..];
    }

    // b64_ochar
    method OChar(c: char, so: OutFile)
      requires linelength <= BASE_LINE_LEN
      modifies this`linelength, so
      ensures linelength <= BASE_LINE_LEN
      ensures forall tail: string :: so.text + Folded(tail, linelength) == old(so.text) + Folded([c] + tail, old(linelength))
    {
      if linelength >= BASE_LINE_LEN {
        so.text := so.text + EOL;
        linelength := 0;
      }
      so.text := so.text + [c];
      linelength := linelength + 1;
      forall tail: string
        ensures so.text + Folded(tail, linelength) == old(so.text) + Folded([c] + tail, old(linelength))
      {
        assert ([c] + tail)[1..] == tail;
      }
    }
  }

  predicate IsTable(t: seq<char>) {
    |t| == BASE_MAX_INLINE && forall v: Sextet :: t[v] == Digit(v)
  }

  method FillTable() returns (dtable: array<char>)
    ensures fresh(dtable) && IsTable(dtable[..])
  {
    dtable := new char[BASE_MAX_INLINE];
    for i := 0 to 9
      invariant forall v :: 0 <= v < i || 9 <= v < i + 9 || 26 <= v < 26 + i || 35 <= v < 26 + i + 9 ==>
        dtable[v] == Digit(v)
    {
      dtable[i] := 'A' + i as char;
      dtable[i + 9] := 'J' + i as char;
      dtable[26 + i] := 'a' + i as char;
      dtable[26 + i + 9] := 'j' + i as char;
    }
    for i := 0 to 8
      invariant forall v :: 0 <= v < i + 18 || 26 <= v < 26 + i + 18 ==> dtable[v] == Digit(v)
    {
      dtable[i + 18] := 'S' + i as char;
      dtable[26 + i + 18] := 's' + i as char;
    }
    for i := 0 to 10
      invariant forall v :: 0 <= v < 52 + i ==> dtable[v] == Digit(v)
    {
      dtable[52 + i] := '0' + i as char;
    }
    dtable[62] := '+';
    dtable[63] := '/';
  }

  // Up to three bytes of the file; fewer only at its end.
  method ReadGroup(bio: B64BaseIo, fi: InFile) returns (igroup: array<Byte>, n: nat)
    requires bio.Reading(fi)
    modifies bio`iocp, bio`iolen, bio`ateof, bio.iobuf, fi
    ensures bio.Reading(fi) && fresh(igroup) && igroup.Length == 3
    ensures var unread := old(bio.Unread(fi));
      && n <= 3 && n <= |unread| && (n < 3 ==> n == |unread|) && bio.Unread(fi) == unread[n..]
      && forall i :: 0 <= i < 3 ==> igroup[i] == if i < n then unread[i] else 0
  {
    ghost var unread := bio.Unread(fi);
    igroup := new Byte[3](i => 0);
    n := 0;
    while n < 3
      invariant n <= 3 && n <= |unread| && bio.Reading(fi) && bio.Unread(fi) == unread[n..]
      invariant forall i :: 0 <= i < 3 ==> igroup[i] == if i < n then unread[i] else 0
    {
      var c := bio.InChar(fi);
      if c == None {
        break;
      }
      igroup[n] := c.value;
      n := n + 1;
    }
  }

  method FormGroup(dtable: array<char>, igroup: array<Byte>, n: nat) returns (ogroup: array<char>)
    requires IsTable(dtable[..]) && igroup.Length == 3 && 1 <= n <= 3
    ensures fresh(ogroup) && ogroup[..] == Group(igroup[0], igroup[1], igroup[2], n)
  {
    assert forall v: Sextet :: dtable[v] == dtable[..][v] == Digit(v);
    ogroup := new char[4];
    ogroup[0] := dtable[igroup[0] / 4];
    ogroup[1] := dtable[igroup[0] % 4 * 16 + igroup[1] / 16];
    ogroup[2] := dtable[igroup[1] % 16 * 4 + igroup[2] / 64];
    ogroup[3] := dtable[igroup[2] % 64];
    if n < 3 {
      ogroup[3] := '=';
      if n < 2 {
        ogroup[2] := '=';
      }
    }
  }

  method WriteGroup(bio: B64BaseIo, ogroup: array<char>, so: OutFile, ghost tail: string)
    requires ogroup.Length == 4 && bio.linelength <= BASE_LINE_LEN
    modifies bio`linelength, so
    ensures bio.linelength <= BASE_LINE_LEN
    ensures so.text + Folded(tail, bio.linelength) == old(so.text) + Folded(ogroup[..] + tail, old(bio.linelength))
  {
    ghost var group, rest := ogroup[..], ogroup[..] + tail;
    ghost var goal := so.text + Folded(rest, bio.linelength);
    for i := 0 to 4
      invariant bio.linelength <= BASE_LINE_LEN && ogroup[..] == group
      invariant rest == group[i..] + tail && so.text + Folded(rest, bio.linelength) == goal
    {
      assert rest == [group[i]] + (group[i + 1..] + tail);
      rest := group[i + 1..] + tail;
      bio.OChar(ogroup[i], so);
    }
    assert rest == tail;
  }

  lemma FirstGroup(content: seq<Byte>, igroup: seq<Byte>, n: nat)
    requires |igroup| == 3 && 1 <= n <= 3 && n <= |content| && (n < 3 ==> n == |content|)
    requires forall i :: 0 <= i < 3 ==> igroup[i] == if i < n then content[i] else 0
    ensures Encode(content) == Group(igroup[0], igroup[1], igroup[2], n) + Encode(content[n..])
  {
    assert igroup[0] == content[0];
  }

  // What the output file holds, and what will be written for the rest of the input.
  ghost function Outcome(bio: B64BaseIo, fi: InFile, so: OutFile): string
    requires bio.Valid()
    reads bio, bio.iobuf, fi, so
  {
    so.text + Folded(Encode(bio.Unread(fi)), bio.linelength)
  }

  // The body of the loop of base_encode.
  method EncodeGroup(bio: B64BaseIo, dtable: array<char>, fi: InFile, so: OutFile) returns (hiteof: bool)
    requires bio.Reading(fi) && bio.linelength <= BASE_LINE_LEN && IsTable(dtable[..])
    modifies bio, bio.iobuf, fi, so
    ensures bio.Reading(fi) && bio.linelength <= BASE_LINE_LEN
    ensures Outcome(bio, fi, so) == old(Outcome(bio, fi, so))
    ensures if hiteof then bio.Unread(fi) == [] else |bio.Unread(fi)| < old(|bio.Unread(fi)|)
  {
    ghost var unread, written, len := bio.Unread(fi), so.text, bio.linelength;
    ghost var table := dtable[..];
    var igroup, n := ReadGroup(bio, fi);
    assert dtable[..] == table;
    hiteof := n < 3;
    if n > 0 {
      FirstGroup(unread, igroup[..], n);
      var ogroup := FormGroup(dtable, igroup, n);
      assert Encode(unread) == ogroup[..] + Encode(bio.Unread(fi));
      WriteGroup(bio, ogroup, so, Encode(bio.Unread(fi)));
      assert so.text + Folded(Encode(bio.Unread(fi)), bio.linelength) == written + Folded(Encode(unread), len);
    }
  }

  // base_encode; `fi` is null when the file cannot be opened.
  method BaseEncode(fi: InFile?, so: OutFile) returns (res: int)
    modifies fi, so
    ensures fi == null ==> res == -1 && so.text == old(so.text)
    ensures fi != null ==> res == 1 && so.text == old(so.text) + Folded(Encode(old(fi.rest)))
  {
    if fi == null {
      return -1;
    }
    var bio := new B64BaseIo();
    var dtable := FillTable();
    assert bio.Unread(fi) == fi.rest;
    ghost var goal, table := Outcome(bio, fi, so), dtable[..];
    var hiteof := false;
    while !hiteof
      invariant bio.Reading(fi) && bio.linelength <= BASE_LINE_LEN && dtable[..] == table
      invariant hiteof ==> bio.Unread(fi) == []
      invariant Outcome(bio, fi, so) == goal
      decreases |bio.Unread(fi)|, !hiteof
    {
      hiteof := EncodeGroup(bio, dtable, fi, so);
    }
    so.text := so.text + EOL;
    res := 1;
  }
}
