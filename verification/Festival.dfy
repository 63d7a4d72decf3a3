// Receiving a waveform from the Festival server (apps/app_festival.c).
//
// The server ends a file with a key, and hides an accidental key in the data by stuffing an 'X'
// into it. The receiver watches for the key with a match counter that never falls back.
module Festival {
  import opened Prelude

  const KEY := "ft_StUfF_key"
  const FIRST_BUFFER := 1024

  // The receiver: what it has written to the buffer and how many bytes of the key it holds back.
  datatype Receiver = Receiver(data: string, k: nat) {
    predicate Valid() { k <= |KEY| }

    predicate Done() { k == |KEY| }

    // Everything received so far, the held back bytes included.
    function Seen(): string
      requires Valid()
    {
      data + KEY[..k]
    }
  }

  const START := Receiver("", 0)

  // One byte in the loop body.
  function Receive(r: Receiver, c: char): (after: Receiver)
    requires r.Valid() && !r.Done()
    ensures after.Valid()
  {
    if KEY[r.k] == c then r.(k := r.k + 1)
    else if c == 'X' && r.k + 1 == |KEY| then Receiver(r.Seen(), 0)
    else Receiver(r.Seen() + [c], 0)
  }

  datatype Fed = Fed(receiver: Receiver, unread: string)

  // The loop: it stops at the key or at the end of the stream.
  function Feed(r: Receiver, stream: string): (fed: Fed)
    requires r.Valid()
    ensures fed.receiver.Valid() && |fed.unread| <= |stream|
    ensures !fed.receiver.Done() ==> fed.unread == ""
    decreases |stream|
  {
    if r.Done() || stream == "" then Fed(r, stream) else Feed(Receive(r, stream[0]), stream[1..])
  }

  // The match counter on data that is not stuffed; it starts again where the sender puts an 'X'.
  function NextMatch(k: nat, c: char): (n: nat)
    requires k + 1 < |KEY|
    ensures n + 1 < |KEY|
  {
    if KEY[k] != c || k + 2 == |KEY| then 0 else k + 1
  }

  function FinalMatch(data: string, k: nat := 0): (n: nat)
    requires k + 1 < |KEY|
    ensures n + 1 < |KEY|
  {
    if data == "" then k else FinalMatch(data[1..], NextMatch(k, data[0]))
  }

  // The sender: an 'X' each time all but the last byte of the key have gone out.
  function Stuff(data: string, k: nat := 0): string
    requires k + 1 < |KEY|
  {
    if data == "" then ""
    else if KEY[k] == data[0] && k + 2 == |KEY| then [data[0], 'X'] + Stuff(data[1..], 0)
    else [data[0]] + Stuff(data[1..], NextMatch(k, data[0]))
  }

  // All but the last byte of the key in the data: an X behind it is dropped, the last byte of the key
  // ends the data before it, and any other byte is data like the rest.
  lemma KeyAsData(data: string, ke: string, c: char, rest: string)
    requires ke == "ft_StUfF_ke"
    ensures Feed(Receiver(data, 0), ke + [c] + rest) ==
      if c == 'X' then Feed(Receiver(data + ke, 0), rest)
      else if c == 'y' then Fed(Receiver(data, 12), rest)
      else Feed(Receiver(data + ke + [c], 0), rest)
  {
    assert KEY[..11] == ke && KEY[11] == 'y';
    var held := Receiver(data, 11);
    HeldBack(data, 11, [c] + rest);
    assert ke + ([c] + rest) == ke + [c] + rest && ([c] + rest)[1..] == rest;
    assert held.Seen() == data + ke;
  }

  // The first n bytes of the key are held back.
  lemma {:induction false} HeldBack(data: string, n: nat, rest: string)
    requires n < |KEY|
    ensures Feed(Receiver(data, 0), KEY[..n] + rest) == Feed(Receiver(data, n), rest)
    decreases n
  {
    HeldFrom(data, 0, n, rest);
    assert KEY[0..n] == KEY[..n];
  }

  lemma {:induction false} HeldFrom(data: string, k: nat, n: nat, rest: string)
    requires k <= n < |KEY|
    ensures Feed(Receiver(data, k), KEY[k..n] + rest) == Feed(Receiver(data, n), rest)
    decreases n - k
  {
    if k == n {
      assert KEY[k..n] + rest == rest;
    } else {
      assert (KEY[k..n] + rest)[0] == KEY[k] && (KEY[k..n] + rest)[1..] == KEY[k + 1..n] + rest;
      HeldFrom(data, k + 1, n, rest);
    }
  }

  // ------------------------------------------------------------------------- round trip

  lemma {:induction false} FeedSplit(r: Receiver, a: string, b: string)
    requires r.Valid()
    requires !Feed(r, a).receiver.Done()
    ensures Feed(r, a + b) == Feed(Feed(r, a).receiver, b)
    decreases |a|
  {
    if a == "" {
      assert a + b == b;
    } else {
      assert (a + b)[1..] == a[1..] + b;
      FeedSplit(Receive(r, a[0]), a[1..], b);
    }
  }

  // The stuffed data leaves the receiver having seen exactly the data, its counter where the
  // sender's is.
  lemma {:induction false} FeedStuffed(r: Receiver, data: string)
    requires r.k + 1 < |KEY|
    ensures var after := Feed(r, Stuff(data, r.k)).receiver;
      after.k == FinalMatch(data, r.k) && after.Seen() == r.Seen() + data
    decreases |data|
  {
    if data != "" {
      var r1, tail := Receive(r, data[0]), Stuff(data[1..], NextMatch(r.k, data[0]));
      SeenOne(r, data[0]);
      if KEY[r.k] == data[0] && r.k + 2 == |KEY| {
        var r2 := Receive(r1, 'X');
        FeedTwo(r, data[0], 'X', tail);
        FeedStuffed(r2, data[1..]);
        assert r2.Seen() == r1.Seen();
      } else {
        assert Stuff(data, r.k)[1..] == tail;
        FeedStuffed(r1, data[1..]);
      }
      assert r.Seen() + [data[0]] + data[1..] == r.Seen() + data;
    } else {
      assert r.Seen() + data == r.Seen();
    }
  }

  lemma SeenOne(r: Receiver, c: char)
    requires r.k + 1 < |KEY|
    ensures Receive(r, c).Seen() == r.Seen() + [c]
  {
    assert KEY[..r.k] + [KEY[r.k]] == KEY[..r.k + 1];
    if KEY[r.k] == c {
      assert r.data + KEY[..r.k + 1] == r.Seen() + [c];
    }
  }

  lemma FeedTwo(r: Receiver, c: char, d: char, tail: string)
    requires r.Valid() && !r.Done() && !Receive(r, c).Done()
    ensures Feed(r, [c, d] + tail) == Feed(Receive(Receive(r, c), d), tail)
  {
    assert ([c, d] + tail)[1..] == [d] + tail && ([d] + tail)[1..] == tail;
  }

  lemma {:induction false} KeyEndsIt(data: string, k: nat, rest: string)
    requires k <= |KEY|
    ensures Feed(Receiver(data, k), KEY[k..] + rest) == Fed(Receiver(data, |KEY|), rest)
    decreases |KEY| - k
  {
    if k == |KEY| {
      assert KEY[k..] + rest == rest;
    } else {
      assert (KEY[k..] + rest)[1..] == KEY[k + 1..] + rest;
      KeyEndsIt(data, k + 1, rest);
    }
  }

  predicate TakenForData(r: Receiver, s: string)
    requires r.Valid()
  {
    Feed(r, s).receiver == Receiver(r.Seen() + s, 0)
  }

  lemma {:induction false} NoMatch(data: string, s: string)
    requires 'f' !in s
    ensures TakenForData(Receiver(data, 0), s)
    decreases |s|
  {
    if s == "" {
      assert data + s == data;
    } else {
      assert data + KEY[..0] + [s[0]] == data + [s[0]];
      NoMatch(data + [s[0]], s[1..]);
      assert data + [s[0]] + s[1..] == data + s;
    }
  }

  lemma Misses(r: Receiver, c: char, d: char)
    requires 0 < r.k && r.k + 1 < |KEY| && KEY[r.k] != c && d != 'f'
    ensures TakenForData(r, [c, d])
  {
    var r1 := Receiver(r.Seen() + [c], 0);
    FeedTwo(r, c, d, "");
    assert [c, d] + "" == [c, d];
    assert Receive(r, c) == r1;
    assert r1.Seen() + [d] == r.Seen() + [c, d];
    assert Receive(r1, d) == Receiver(r1.Seen() + [d], 0);
  }

  lemma MissesLate(r: Receiver, c: char, d: char)
    requires r.k + 2 < |KEY| && KEY[r.k] == c && KEY[r.k + 1] != d
    ensures TakenForData(r, [c, d])
  {
    var r1 := r.(k := r.k + 1);
    FeedTwo(r, c, d, "");
    assert [c, d] + "" == [c, d];
    assert Receive(r, c) == r1;
    assert KEY[..r.k + 1] == KEY[..r.k] + [c];
    assert r1.Seen() + [d] == r.Seen() + [c, d];
    assert Receive(r1, d) == Receiver(r1.Seen() + [d], 0);
  }

  lemma TakenInTurn(r: Receiver, a: string, b: string)
    requires r.Valid() && TakenForData(r, a) && TakenForData(Receiver(r.Seen() + a, 0), b)
    ensures TakenForData(r, a + b)
  {
    FeedSplit(r, a, b);
    assert r.Seen() + (a + b) == r.Seen() + a + KEY[..0] + b;
  }

  lemma MissedInParts(r: Receiver, a: string, b: string, c: string, d: string)
    requires r.Valid() && TakenForData(r, a) && 'f' !in b && 'f' !in d
    requires |c| == 2 && c[0] == KEY[0] && c[1] != KEY[1]
    ensures TakenForData(r, a + b + c + d)
  {
    NoMatch(r.Seen() + a, b);
    TakenInTurn(r, a, b);
    MissesLate(Receiver(r.Seen() + (a + b), 0), c[0], c[1]);
    assert c == [c[0], c[1]];
    TakenInTurn(r, a + b, c);
    NoMatch(r.Seen() + (a + b + c), d);
    TakenInTurn(r, a + b + c, d);
  }

  // A key that arrives when the counter is not 0 is taken for data.
  lemma KeyMissed(r: Receiver)
    requires 0 < r.k && r.k + 1 < |KEY|
    ensures TakenForData(r, KEY)
  {
    var a, b, c, d := KEY[..2], KEY[2..6], KEY[6..8], KEY[8..];
    assert a == [KEY[0], KEY[1]];
    if r.k == 6 {
      MissesLate(r, KEY[0], KEY[1]);
    } else {
      Misses(r, KEY[0], KEY[1]);
    }
    MissedInParts(r, a, b, c, d);
    assert a + b + c + d == KEY;
  }

  // The file arrives, and the receiver stops right behind its key, exactly when the match counter
  // ends at 0; otherwise the key itself is taken for data and the receiver goes on reading.
  lemma RoundTripIff(data: string, rest: string)
    ensures Feed(START, Stuff(data) + KEY + rest) == Fed(Receiver(data, |KEY|), rest) <==> FinalMatch(data) == 0
    ensures FinalMatch(data) != 0 ==>
      Feed(START, Stuff(data) + KEY + rest) == Feed(Receiver(data + KEY, 0), rest)
  {
    var after := Feed(START, Stuff(data)).receiver;
    FeedStuffed(START, data);
    assert START.Seen() + data == data;
    FeedSplit(START, Stuff(data), KEY + rest);
    assert Stuff(data) + KEY + rest == Stuff(data) + (KEY + rest);
    if FinalMatch(data) == 0 {
      assert KEY[..0] == "" && after.data + "" == after.data;
      assert KEY[0..] == KEY;
      KeyEndsIt(data, 0, rest);
    } else {
      KeyMissed(after);
      FeedSplit(after, KEY, rest);
      DataOnlyGrows(Receiver(data + KEY, 0), rest);
    }
  }

  lemma {:induction false} DataOnlyGrows(r: Receiver, s: string)
    requires r.Valid()
    ensures r.data <= Feed(r, s).receiver.data
    decreases |s|
  {
    if !r.Done() && s != "" {
      DataOnlyGrows(Receive(r, s[0]), s[1..]);
    }
  }

  // The shortest file that does not arrive: a single 'f'.
  lemma SingleByteFails()
    ensures FinalMatch("f") == 1
    ensures Feed(START, Stuff("f") + KEY).receiver == Receiver("f" + KEY, 0)
  {
    FeedStuffed(START, "f");
    FeedSplit(START, Stuff("f"), KEY);
    KeyMissed(Feed(START, Stuff("f")).receiver);
  }

  // If the stream ends before the key, exactly what the counter holds back is lost.
  lemma CutOff(data: string)
    ensures Feed(START, Stuff(data)).receiver.data + KEY[..FinalMatch(data)] == data
  {
    FeedStuffed(START, data);
    assert START.Seen() + data == data;
  }

  // --------------------------------------------------------------------- the code in place

  // socket_receive_file_to_buff; `memory` is the largest buffer the allocator grants.
  method SocketReceiveFileToBuff(stream: string, memory: nat)
      returns (result: Option<array<char>>, size: nat, used: nat)
    ensures used <= |stream|
    // room for the terminator that is written later
    ensures result.Some? ==> size < result.value.Length
    ensures result.Some? ==>
      var fed := Feed(START, stream);
      result.value[..size] == fed.receiver.data && stream[used..] == fed.unread
    ensures memory >= FIRST_BUFFER && 4 * memory >= 5 * |stream| ==> result.Some?
  {
    var bufflen := FIRST_BUFFER;
    size, used := 0, 0;
    if memory < bufflen {
      return None, size, used;
    }
    var buff := new char[bufflen];
    var k := 0;
    while k < |KEY| && used < |stream|
      invariant used <= |stream| && k <= |KEY| && size + k <= used
      invariant bufflen == buff.Length >= FIRST_BUFFER && size + k + 1 <= bufflen
      invariant fresh(buff)
      invariant Feed(START, stream) == Feed(Receiver(buff[..size], k), stream[used..])
      decreases |stream| - used
    {
      var c := stream[used];
      ghost var before, unread := Receiver(buff[..size], k), stream[used..];
      used := used + 1;
      if size + k + 1 >= bufflen {
        bufflen := bufflen + bufflen / 4;
        if bufflen > memory {
          return None, size, used;
        }
        buff := Realloc(buff, bufflen);
      }
      assert Receiver(buff[..size], k) == before;
      if KEY[k] == c {
        k := k + 1;
      } else if c == 'X' && k + 1 == |KEY| {
        size := Flush(buff, size, k);
        k := 0;
      } else {
        size := Flush(buff, size, k);
        k := 0;
        buff[size] := c;
        size := size + 1;
      }
      assert Receiver(buff[..size], k) == Receive(before, c);
      assert unread[1..] == stream[used..] && Feed(before, unread) == Feed(Receive(before, c), unread[1..]);
    }
    result := Some(buff);
  }

  method Realloc(buff: array<char>, length: nat) returns (moved: array<char>)
    requires buff.Length <= length
    ensures fresh(moved) && moved.Length == length && moved[..buff.Length] == buff[..]
  {
    moved := new char[length];
    for i := 0 to buff.Length
      invariant forall j :: 0 <= j < i ==> moved[j] == buff[j]
    {
      moved[i] := buff[i];
    }
  }

  // The bytes of the key that were held back.
  method Flush(buff: array<char>, start: nat, k: nat) returns (size: nat)
    requires k <= |KEY| && start + k <= buff.Length
    modifies buff
    ensures size == start + k && buff[..size] == old(buff[..start]) + KEY[..k]
    ensures buff[size..] == old(buff[start + k..])
  {
    size := start;
    for i := 0 to k
      invariant size == start + i
      invariant buff[..size] == old(buff[..start]) + KEY[..i]
      invariant buff[start + k..] == old(buff[start + k..])
    {
      buff[size] := KEY[i];
      size := size + 1;
    }
  }
}
