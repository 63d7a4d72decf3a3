// How adsi_prog (apps/app_adsiprog.c) sends the records of keys and displays to the phone: as many
// as fit go into one message.
module AdsiSender {
  import opened Prelude
  import opened AdsiTables
  import opened AdsiCodes
  import opened AdsiCompiler
  import opened AdsiRecords
  import AdsiBuffers

  const MAX_MESSAGE := 253
  const BUFFER := 1024

  type Record = seq<Byte>

  function Flat(records: seq<Record>): seq<Byte> {
    if records == [] then [] else records[0] + Flat(records[1..])
  }

  // The messages for the records that are left when `buf` has been collected.
  function Pack(records: seq<Record>, buf: seq<Byte>): seq<seq<Byte>> {
    if records == [] then if buf == [] then [] else [buf]
    else if |buf| + |records[0]| > MAX_MESSAGE then [buf] + Pack(records[1..], records[0])
    else Pack(records[1..], buf + records[0])
  }

  predicate AllFit(records: seq<Record>) {
    forall i :: 0 <= i < |records| ==> |records[i]| <= 253
  }

  // ------------------------------------------------------------------- everything, in order

  lemma {:induction false} PackFlat(records: seq<Record>, buf: seq<Byte>)
    ensures Flat(Pack(records, buf)) == buf + Flat(records)
    decreases |records|
  {
    if records == [] {
      assert buf != [] ==> [buf][1..] == [];
    } else if |buf| + |records[0]| > MAX_MESSAGE {
      var rest := Pack(records[1..], records[0]);
      PackFlat(records[1..], records[0]);
      assert ([buf] + rest)[1..] == rest;
    } else {
      PackFlat(records[1..], buf + records[0]);
      assert buf + records[0] + Flat(records[1..]) == buf + Flat(records);
    }
  }

  // No message is empty or too long.
  lemma {:induction false} PackFits(records: seq<Record>, buf: seq<Byte>)
    requires AllFit(records) && |buf| <= MAX_MESSAGE
    ensures forall i :: 0 <= i < |Pack(records, buf)| ==> 1 <= |Pack(records, buf)[i]| <= 253
    decreases |records|
  {
    if records != [] {
      if |buf| + |records[0]| > MAX_MESSAGE {
        PackFits(records[1..], records[0]);
      } else {
        PackFits(records[1..], buf + records[0]);
      }
    }
  }

  // ------------------------------------------------------------------------ no record is split

  function Join(groups: seq<seq<Record>>): seq<Record> {
    if groups == [] then [] else groups[0] + Join(groups[1..])
  }

  function Messages(groups: seq<seq<Record>>): (m: seq<seq<Byte>>)
    ensures |m| == |groups|
  {
    if groups == [] then [] else [Flat(groups[0])] + Messages(groups[1..])
  }

  lemma {:induction false} FlatSnoc(records: seq<Record>, r: Record)
    ensures Flat(records + [r]) == Flat(records) + r
  {
    if records == [] {
      assert [] + [r] == [r] && [r][1..] == [];
    } else {
      FlatSnoc(records[1..], r);
      assert (records + [r])[1..] == records[1..] + [r];
    }
  }

  // The records behind each message; `group` are those collected so far.
  lemma {:induction false} PackGroups(records: seq<Record>, group: seq<Record>) returns (groups: seq<seq<Record>>)
    requires Flat(group + records) != [] && AllFit(records) && |Flat(group)| <= MAX_MESSAGE
    ensures Messages(groups) == Pack(records, Flat(group)) && Join(groups) == group + records
    decreases |records|
  {
    if records == [] {
      groups := [group];
      assert group + records == group && groups[1..] == [];
    } else if |Flat(group)| + |records[0]| > MAX_MESSAGE {
      var first := [records[0]];
      assert first + records[1..] == records;
      assert first[1..] == [] && Flat(first) == records[0];
      var rest := PackGroups(records[1..], [records[0]]);
      groups := [group] + rest;
      assert groups[1..] == rest;
    } else {
      FlatSnoc(group, records[0]);
      assert group + [records[0]] + records[1..] == group + records;
      groups := PackGroups(records[1..], group + [records[0]]);
    }
  }

  // Each message is a run of whole records, and the runs make up all records in order.
  lemma NoRecordSplit(records: seq<Record>) returns (groups: seq<seq<Record>>)
    requires AllFit(records)
    ensures Messages(groups) == Pack(records, [])
    ensures if Flat(records) == [] then groups == [] else Join(groups) == records
  {
    if Flat(records) == [] {
      groups := [];
      PackFlat(records, []);
      PackEmpty(records);
    } else {
      assert [] + records == records;
      groups := PackGroups(records, []);
    }
  }

  lemma {:induction false} PackEmpty(records: seq<Record>)
    requires Flat(records) == []
    ensures Pack(records, []) == []
  {
    if records != [] {
      assert [] + records[0] == [];
      PackEmpty(records[1..]);
    }
  }

  // ---------------------------------------------------------------------- no fewer messages

  // How many messages, by lengths alone.
  function Number(records: seq<Record>, bytes: nat): nat {
    if records == [] then if bytes == 0 then 0 else 1
    else if bytes + |records[0]| > MAX_MESSAGE then 1 + Number(records[1..], |records[0]|)
    else Number(records[1..], bytes + |records[0]|)
  }

  lemma {:induction false} PackNumber(records: seq<Record>, buf: seq<Byte>)
    ensures |Pack(records, buf)| == Number(records, |buf|)
    decreases |records|
  {
    if records != [] {
      PackNumber(records[1..], records[0]);
      PackNumber(records[1..], buf + records[0]);
    }
  }

  // A fuller buffer needs no fewer messages, and at most one more.
  lemma {:induction false} NumberGrows(records: seq<Record>, a: nat, b: nat)
    requires AllFit(records) && a <= b <= MAX_MESSAGE
    ensures Number(records, a) <= Number(records, b) <= 1 + Number(records, a)
    decreases |records|
  {
    if records != [] {
      var r, rest := |records[0]|, records[1..];
      if b + r <= MAX_MESSAGE {
        NumberGrows(rest, a + r, b + r);
      } else if a + r <= MAX_MESSAGE {
        NumberGrows(rest, r, a + r);
      }
    }
  }

  lemma {:induction false} GroupFits(group: seq<Record>, rest: seq<Record>, bytes: nat)
    requires bytes + |Flat(group)| <= MAX_MESSAGE
    ensures Number(group + rest, bytes) == Number(rest, bytes + |Flat(group)|)
    decreases |group|
  {
    if group == [] {
      assert group + rest == rest;
    } else {
      assert (group + rest)[1..] == group[1..] + rest;
      GroupFits(group[1..], rest, bytes + |group[0]|);
    }
  }

  predicate Packing(groups: seq<seq<Record>>) {
    forall i :: 0 <= i < |groups| ==> |Flat(groups[i])| <= 253
  }

  // No other way to put whole records into messages in order needs fewer.
  lemma {:induction false} Fewest(records: seq<Record>, groups: seq<seq<Record>>)
    requires AllFit(records) && Packing(groups) && Join(groups) == records
    ensures |Pack(records, [])| <= |groups|
    decreases |groups|
  {
    PackNumber(records, []);
    if groups != [] {
      var group, rest := groups[0], Join(groups[1..]);
      assert AllFit(rest) by {
        assert forall i :: 0 <= i < |rest| ==> rest[i] == records[|group| + i];
      }
      Fewest(rest, groups[1..]);
      PackNumber(rest, []);
      GroupFits(group, rest, 0);
      NumberGrows(rest, 0, |Flat(group)|);
    }
  }

  // ------------------------------------------------------------------- the records of a script

  function KeyRecords(t: Tables): (r: seq<Record>)
    ensures |r| == |t.keys|
  {
    seq(|t.keys|, k requires 0 <= k < |t.keys| => t.keys[k].data.retstr)
  }

  function DisplayRecords(t: Tables): (r: seq<Record>)
    ensures |r| == |t.displays|
  {
    seq(|t.displays|, d requires 0 <= d < |t.displays| => t.displays[d].data)
  }

  // Whatever the script, its key and display records meet the limit the messages rely on.
  lemma RecordsFit(lang: Language, lines: seq<Line>)
    ensures AllFit(KeyRecords(Run(lang, lines).t)) && AllFit(DisplayRecords(Run(lang, lines).t))
  {
    var t := Run(lang, lines).t;
    forall k | 0 <= k < |t.keys|
      ensures |KeyRecords(t)[k]| <= MAX_MESSAGE
    {
      KeysFit(lang, lines, k);
    }
    DisplayLayout(lang, lines);
    forall d | 0 <= d < |t.displays|
      ensures |DisplayRecords(t)[d]| <= MAX_MESSAGE
    {
      assert DisplayOk(d, t.displays[d].data);
    }
  }

  // ------------------------------------------------------------------------ the code in place

  // The phone takes `accepts` messages.
  class Phone {
    const accepts: nat
    var messages: seq<seq<Byte>>

    constructor (accepts: nat)
      ensures this.accepts == accepts && messages == []
    {
      this.accepts, messages := accepts, [];
    }

    method Transmit(buf: array<Byte>, bytes: nat) returns (failed: bool)
      requires bytes <= buf.Length
      modifies this`messages
      ensures failed == (|old(messages)| >= accepts)
      ensures messages == if failed then old(messages) else old(messages) + [buf[..bytes]]
    {
      failed := |messages| >= accepts;
      if !failed {
        messages := messages + [buf[..bytes]];
      }
    }
  }

  // One of the loops of adsi_prog. If a message is refused, those before it have been sent.
  method SendRecords(phone: Phone, records: seq<Record>) returns (ok: bool)
    requires AllFit(records) && |phone.messages| <= phone.accepts
    modifies phone`messages
    ensures ok <==> |old(phone.messages)| + |Pack(records, [])| <= phone.accepts
    ensures phone.messages <= old(phone.messages) + Pack(records, [])
    ensures |phone.messages| == if ok then |old(phone.messages)| + |Pack(records, [])| else phone.accepts
  {
    ghost var all := phone.messages + Pack(records, []);
    var buf, bytes := new Byte[BUFFER], 0;
    assert buf[..0] == [] && records[0..] == records;
    for x := 0 to |records|
      invariant bytes <= MAX_MESSAGE && |phone.messages| <= phone.accepts
      invariant phone.messages + Pack(records[x..], buf[..bytes]) == all
    {
      ghost var rest := records[x..];
      assert rest[0] == records[x] && rest[1..] == records[x + 1..];
      if bytes + |records[x]| > MAX_MESSAGE {
        ghost var sent, tail := phone.messages, Pack(rest[1..], records[x]);
        assert all == sent + ([buf[..bytes]] + tail) == sent + [buf[..bytes]] + tail;
        var failed := phone.Transmit(buf, bytes);
        if failed {
          return false;
        }
        bytes := 0;
      }
      ghost var before := buf[..bytes];
      assert bytes == 0 ==> before + records[x] == records[x];
      assert phone.messages + Pack(rest[1..], before + records[x]) == all;
      AdsiBuffers.MemCpy(buf, bytes, records[x]);
      bytes := bytes + |records[x]|;
      assert buf[..bytes] == before + records[x];
    }
    assert records[|records|..] == [];
    if bytes > 0 {
      assert Pack([], buf[..bytes]) == [buf[..bytes]];
      var failed := phone.Transmit(buf, bytes);
      if failed {
        return false;
      }
    }
    return true;
  }
}
