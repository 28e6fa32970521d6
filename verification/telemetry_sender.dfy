/** The ground simulator's telemetry sender, which cuts a file of space packets into datagrams. */
module TelemetrySender {
  import opened Concatenation
  import opened Octets
  import opened SbnClient

  const HEADER: nat := 6

  /** A space packet's length field is its size less seven (section 4.1.3.5 of CCSDS 133.0-B-2). */
  predicate IsPacket(p: seq<byte>) { |p| > 6 && Read16(p, 4) + 7 == |p| }

  predicate AllPackets(ps: seq<seq<byte>>) { forall i :: 0 <= i < |ps| ==> IsPacket(ps[i]) }

  function Zeros(n: nat): seq<byte> { seq(n, _ => 0) }

  /** The datagrams sent for a file. */
  function Split(file: seq<byte>): (ps: seq<seq<byte>>)
    decreases |file|
  {
    if |file| < HEADER then []
    else
      var n: nat := Read16(file, 4) + 7;
      if n <= |file| then [file[..n]] + Split(file[n..]) else [file + Zeros(n - |file|)]
  }

  /** Fill the packet from the file at `pos`, as far as the file goes. */
  method ReadInto(file: seq<byte>, pos: nat, packet: array<byte>) returns (read: nat)
    requires pos <= |file|
    modifies packet
    ensures read == if pos + packet.Length <= |file| then packet.Length else |file| - pos
    ensures forall k :: 0 <= k < packet.Length ==> packet[k] == if pos + k < |file| then file[pos + k] else old(packet[k])
  {
    read := if pos + packet.Length <= |file| then packet.Length else |file| - pos;
    var i := 0;
    while i < read
      invariant 0 <= i <= read
      invariant forall k :: 0 <= k < packet.Length ==> packet[k] == if k < i then file[pos + k] else old(packet[k])
    {
      packet[i] := file[pos + i];
      i := i + 1;
    }
  }

  class Sender {
    var tmCounter: nat

    constructor ()
      ensures tmCounter == 0
    {
      tmCounter := 0;
    }

    /** Send the packets of a file, read a header at a time. */
    method SendTm(file: seq<byte>) returns (sent: seq<seq<byte>>)
      modifies this
      ensures sent == Split(file) && tmCounter == |sent| + 1
    {
      hide Split, Read16;
      tmCounter := 1;
      sent := [];
      var pos := 0;
      assert file[0..] == file;
      while pos + HEADER <= |file|
        invariant 0 <= pos <= |file|
        invariant sent + Split(file[pos..]) == Split(file)
        invariant tmCounter == |sent| + 1
        decreases |file| - pos
      {
        var length := Read16(file, pos + 4);
        var packet := new byte[length + 7](_ => 0);
        var read := ReadInto(file, pos, packet);
        SplitOne(file, pos, packet[..]);
        sent := sent + [packet[..]];
        pos := pos + read;
        tmCounter := tmCounter + 1;
      }
      SplitShort(file[pos..]);
    }
  }

  /** The next datagram: the packet at `pos`, or what is left of it followed by zeros. */
  lemma SplitOne(file: seq<byte>, pos: nat, packet: seq<byte>)
    requires pos + HEADER <= |file| && |packet| == Read16(file, pos + 4) + 7
    requires forall k :: 0 <= k < |packet| ==> packet[k] == if pos + k < |file| then file[pos + k] else 0
    ensures var next := if pos + |packet| <= |file| then pos + |packet| else |file|;
      Split(file[pos..]) == [packet] + Split(file[next..])
  {
    var rest, n := file[pos..], |packet|;
    assert Read16(rest, 4) + 7 == n;
    hide Read16;
    if n <= |rest| {
      assert packet == rest[..n];
      assert rest[n..] == file[pos + n..];
    } else {
      assert packet == rest + Zeros(n - |rest|);
      assert file[|file|..] == [];
    }
  }

  lemma SplitShort(file: seq<byte>)
    requires |file| < HEADER
    ensures Split(file) == []
  {
  }

  lemma PacketFirst(p: seq<byte>, rest: seq<byte>)
    requires IsPacket(p)
    ensures Split(p + rest) == [p] + Split(rest)
  {
    var file := p + rest;
    assert file[4] == p[4] && file[5] == p[5];
    assert file[..|p|] == p && file[|p|..] == rest;
  }

  /** A file of packets, with at most five stray bytes at its end, is sent packet by packet. */
  lemma {:induction false} SplitConcat(ps: seq<seq<byte>>, tail: seq<byte>)
    requires AllPackets(ps) && |tail| < 6
    ensures Split(Concat(ps) + tail) == ps
  {
    if ps == [] {
      assert Concat(ps) + tail == tail;
    } else {
      assert Concat(ps) + tail == ps[0] + (Concat(ps[1..]) + tail);
      PacketFirst(ps[0], Concat(ps[1..]) + tail);
      SplitConcat(ps[1..], tail);
    }
  }

  lemma ConcatOne(p: seq<byte>)
    ensures Concat([p]) == p
  {
  }

  datatype Remains = Remains(padding: nat, tail: seq<byte>)

  /** Zeros added to a cut-off last packet, or bytes too few for a header left unsent. */
  function Unsent(file: seq<byte>): Remains
    decreases |file|
  {
    if |file| < HEADER then Remains(0, file)
    else
      var n: nat := Read16(file, 4) + 7;
      if n <= |file| then Unsent(file[n..]) else Remains(n - |file|, [])
  }

  /** The datagrams are packets by their own length fields and, put together, are the file without
      a tail of at most five bytes, or the file padded with zeros. */
  predicate Reassembles(file: seq<byte>)
  {
    var u := Unsent(file);
    && AllPackets(Split(file)) && |u.tail| < 6 && (u.padding > 0 ==> u.tail == [])
    && Concat(Split(file)) + u.tail == file + Zeros(u.padding)
  }

  lemma ShortReassembles(file: seq<byte>)
    requires |file| < HEADER
    ensures Reassembles(file)
  {
    assert Concat([]) + file == file + Zeros(0);
  }

  lemma CutReassembles(file: seq<byte>)
    requires |file| >= HEADER && Read16(file, 4) + 7 > |file|
    ensures Reassembles(file)
  {
    var padded := file + Zeros(Read16(file, 4) + 7 - |file|);
    assert padded[4] == file[4] && padded[5] == file[5];
    ConcatOne(padded);
    assert padded + [] == padded;
  }

  lemma WholeReassembles(p: seq<byte>, rest: seq<byte>)
    requires IsPacket(p) && Reassembles(rest)
    ensures Reassembles(p + rest)
  {
    PacketFirst(p, rest);
    ConcatMore(p, Split(rest));
    var file, u := p + rest, Unsent(rest);
    assert file[4] == p[4] && file[5] == p[5] && file[|p|..] == rest;
    assert Unsent(file) == u;
    hide Read16, Concat, Split, Unsent, Zeros;
    Associative(p, Concat(Split(rest)), u.tail);
    Associative(p, rest, Zeros(u.padding));
  }

  lemma Associative(a: seq<byte>, b: seq<byte>, c: seq<byte>)
    ensures (a + b) + c == a + (b + c)
  {
  }

  /** What is sent for any file whatever reassembles it. */
  lemma {:induction false} ConcatSplit(file: seq<byte>)
    ensures Reassembles(file)
    decreases |file|
  {
    hide Reassembles, Split, Concat;
    if |file| < HEADER {
      ShortReassembles(file);
    } else {
      var n: nat := Read16(file, 4) + 7;
      if n <= |file| {
        var p, rest := file[..n], file[n..];
        assert p[4] == file[4] && p[5] == file[5] && p + rest == file;
        ConcatSplit(rest);
        WholeReassembles(p, rest);
      } else {
        CutReassembles(file);
      }
    }
  }

  /** The datagrams reproduce the file exactly if and only if it is a series of packets, and then
      the datagrams are those packets. */
  lemma {:induction false} SentExactly(file: seq<byte>)
    ensures Concat(Split(file)) == file <==> exists ps: seq<seq<byte>> :: AllPackets(ps) && Concat(ps) == file
    ensures forall ps: seq<seq<byte>> :: AllPackets(ps) && Concat(ps) == file ==> Split(file) == ps
  {
    ConcatSplit(file);
    forall ps: seq<seq<byte>> | AllPackets(ps) && Concat(ps) == file ensures Split(file) == ps {
      SplitConcat(ps, []);
      assert Concat(ps) + [] == file;
    }
  }

  lemma {:induction false} ConcatSlice(ps: seq<seq<byte>>, i: nat)
    requires i < |ps|
    ensures var from := |Concat(ps[..i])|;
      from + |ps[i]| <= |Concat(ps)| && Concat(ps)[from..from + |ps[i]|] == ps[i]
      && (i + 1 < |ps| && ps[i + 1] != [] ==> from + |ps[i]| < |Concat(ps)|)
  {
    if i == 0 {
      assert Concat(ps) == ps[0] + Concat(ps[1..]);
      if |ps| > 1 {
        assert Concat(ps[1..]) == ps[1] + Concat(ps[1..][1..]);
      }
    } else {
      ConcatSlice(ps[1..], i - 1);
      assert ps[..i][1..] == ps[1..][..i - 1];
      var from := |Concat(ps[1..][..i - 1])|;
      assert Concat(ps) == ps[0] + Concat(ps[1..]);
      assert Concat(ps)[|ps[0]| + from..|ps[0]| + from + |ps[i]|] == Concat(ps[1..])[from..from + |ps[i]|];
    }
  }

  /** Every datagram but the last is the next slice of the file; the last one is too, up to the
      end of the file, and zeros from there. */
  lemma EachSentIsSlice(file: seq<byte>, i: nat)
    requires i < |Split(file)|
    ensures var p, from := Split(file)[i], |Concat(Split(file)[..i])|;
      && from <= |file| && (i + 1 < |Split(file)| ==> from + |p| <= |file|)
      && (from + |p| <= |file| ==> p == file[from..from + |p|])
      && (from + |p| > |file| ==> |file| - from <= |p| && p[..|file| - from] == file[from..] && forall k :: |file| - from <= k < |p| ==> p[k] == 0)
  {
    ConcatSplit(file);
    PaddingIsLast(file, i);
    var ps, u := Split(file), Unsent(file);
    ConcatSlice(ps, i);
    var from, p := |Concat(ps[..i])|, ps[i];
    hide Split, Concat, Unsent, IsPacket;
    var whole := file + Zeros(u.padding);
    assert whole == Concat(ps) + u.tail;
    assert p == whole[from..from + |p|];
  }

  lemma {:induction false} PaddingIsLast(file: seq<byte>, i: nat)
    requires i < |Split(file)|
    ensures var from := |Concat(Split(file)[..i])|;
      from <= |file| && (i + 1 < |Split(file)| ==> from + |Split(file)[i]| <= |file|)
    decreases i
  {
    var n: nat := Read16(file, 4) + 7;
    if i > 0 {
      var rest := file[n..];
      PaddingIsLast(rest, i - 1);
      assert Split(file)[..i][1..] == Split(rest)[..i - 1];
    }
  }

  // ------------------------------------------------------------ with the client's packets

  function Payloads(fs: seq<Frame>): (ps: seq<seq<byte>>)
    ensures |ps| == |fs| && forall i :: 0 <= i < |fs| ==> ps[i] == fs[i].payload
  {
    seq(|fs|, i requires 0 <= i < |fs| => fs[i].payload)
  }

  /** The client's sensor packets, however many, are packets; concatenated in a file, they are sent
      one by one as they were built. */
  lemma SensorPacketsSplit(counter: nat, first: nat, n: nat, sense: nat -> Readings)
    ensures var ps := Payloads(Reports(counter, first, n, sense)); AllPackets(ps) && Split(Concat(ps)) == ps
  {
    var fs := Reports(counter, first, n, sense);
    var ps := Payloads(fs);
    forall i | 0 <= i < n ensures IsPacket(ps[i]) {
      SensorPacketFields((counter + i + 1) % SEQUENCE_COUNTS, sense(first + i));
    }
    SplitConcat(ps, []);
    assert Concat(ps) + [] == Concat(ps);
  }
}
