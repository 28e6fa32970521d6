/** The Raspberry Pi's Software Bus Network client: framing, dispatch and sensor telemetry. */
module SbnClient {
  import opened Concatenation
  import opened Octets

  const SBN_SUB_MSG: byte := 0x01
  const SBN_APP_MSG: byte := 0x03
  const SBN_PROTO_MSG: byte := 0x04
  const PROCESSOR_ID: uint32 := 100
  const PROTOCOL_VERSION: byte := 1
  const DATA_IN_MID: uint16 := 0x0902
  const DATA_OUT_MID: uint16 := 0x1902
  const HEADER_SIZE: nat := 7

  // ------------------------------------------------------------ frames

  datatype Frame = Frame(kind: byte, processor: uint32, payload: seq<byte>)

  /** The size field is 16 bits: a longer payload cannot be framed. */
  predicate Framable(f: Frame) { |f.payload| < 0x1_0000 }

  function Header(size: uint16, kind: byte, processor: uint32): (h: seq<byte>)
    ensures |h| == HEADER_SIZE
  {
    Bytes16(size) + [kind] + Bytes32(processor)
  }

  /** A header byte by byte: the size, the kind and the processor, most significant bytes first. */
  lemma HeaderBytes(size: uint16, kind: byte, processor: uint32)
    ensures var h := Header(size, kind, processor);
      Weighed([h[0], h[1]]) == size && h[2] == kind && Weighed([h[3], h[4], h[5], h[6]]) == processor
  {
    var h := Header(size, kind, processor);
    assert h == [] + Bytes16(size) + ([kind] + Bytes32(processor));
    ReadsBack16(size, [], [kind] + Bytes32(processor));
    assert h == (Bytes16(size) + [kind]) + Bytes32(processor) + [];
    ReadsBack32(processor, Bytes16(size) + [kind], []);
    MostSignificantFirst(h, 0);
    MostSignificantFirst(h, 3);
  }

  datatype Result<T> = Ok(value: T) | StructError

  /** The client's own header packer, which raises an error when the size does not fit. */
  function PackHeader(kind: byte, size: nat): Result<seq<byte>>
  {
    if size < 0x1_0000 then Ok(Header(size, kind, PROCESSOR_ID)) else StructError
  }

  /** The packer succeeds exactly on payloads that fit, and then its header makes one whole frame. */
  lemma PackedHeaderFrames(kind: byte, payload: seq<byte>)
    ensures PackHeader(kind, |payload|).Ok? <==> |payload| < 0x1_0000
    ensures PackHeader(kind, |payload|).Ok? ==>
      Parse(PackHeader(kind, |payload|).value + payload) == Parsed([Frame(kind, PROCESSOR_ID, payload)], [])
  {
    if |payload| < 0x1_0000 {
      var f := Frame(kind, PROCESSOR_ID, payload);
      ParsePack([f], []);
      assert PackAll([f]) + [] == Pack(f) == PackHeader(kind, |payload|).value + payload;
    }
  }

  function Pack(f: Frame): seq<byte>
    requires Framable(f)
  {
    Header(|f.payload|, f.kind, f.processor) + f.payload
  }

  predicate AllFramable(fs: seq<Frame>) { forall i :: 0 <= i < |fs| ==> Framable(fs[i]) }

  function PackAll(fs: seq<Frame>): seq<byte>
    requires AllFramable(fs)
  {
    if fs == [] then [] else Pack(fs[0]) + PackAll(fs[1..])
  }

  /** A whole frame stands at the front of the buffer. */
  predicate Complete(b: seq<byte>)
  {
    |b| >= HEADER_SIZE && |b| >= HEADER_SIZE + Read16(b, 0)
  }

  function FirstFrame(b: seq<byte>): (f: Frame)
    requires Complete(b)
    ensures Framable(f)
  {
    Frame(b[2], Read32(b, 3), b[HEADER_SIZE..HEADER_SIZE + Read16(b, 0)])
  }

  function AfterFirst(b: seq<byte>): (rest: seq<byte>)
    requires Complete(b)
    ensures |rest| + HEADER_SIZE <= |b|
  {
    b[HEADER_SIZE + Read16(b, 0)..]
  }

  datatype Parsed = Parsed(frames: seq<Frame>, leftover: seq<byte>)

  /** A byte stream as the frames it holds and what is left of it. */
  function Parse(b: seq<byte>): (p: Parsed)
    ensures AllFramable(p.frames) && !Complete(p.leftover)
    decreases |b|
  {
    if Complete(b) then
      var rest := Parse(AfterFirst(b));
      Parsed([FirstFrame(b)] + rest.frames, rest.leftover)
    else Parsed([], b)
  }

  // ------------------------------------------------------------ parsing undoes packing

  lemma PackedFirst(f: Frame, tail: seq<byte>)
    requires Framable(f)
    ensures Complete(Pack(f) + tail) && FirstFrame(Pack(f) + tail) == f && AfterFirst(Pack(f) + tail) == tail
  {
    var n := |f.payload|;
    var b := Pack(f) + tail;
    assert b == [] + Bytes16(n) + ([f.kind] + Bytes32(f.processor) + f.payload + tail);
    ReadsBack16(n, [], [f.kind] + Bytes32(f.processor) + f.payload + tail);
    assert b == (Bytes16(n) + [f.kind]) + Bytes32(f.processor) + (f.payload + tail);
    ReadsBack32(f.processor, Bytes16(n) + [f.kind], f.payload + tail);
    assert b[2] == f.kind;
    assert b == Header(n, f.kind, f.processor) + f.payload + tail;
  }

  lemma FirstPacked(b: seq<byte>)
    requires Complete(b)
    ensures Pack(FirstFrame(b)) + AfterFirst(b) == b
  {
    var n := Read16(b, 0);
    SpellsBack16(b, 0);
    SpellsBack32(b, 3);
    hide Read16, Read32, Bytes16, Bytes32;
    assert Header(n, b[2], Read32(b, 3)) == b[0..2] + [b[2]] + b[3..7] == b[..HEADER_SIZE];
  }

  /** Framing is faithful both ways: any list of framable frames, followed by anything that is not
      yet a whole frame, parses to exactly that list and that remainder ... */
  lemma {:induction false} ParsePack(fs: seq<Frame>, tail: seq<byte>)
    requires AllFramable(fs) && !Complete(tail)
    ensures Parse(PackAll(fs) + tail) == Parsed(fs, tail)
  {
    if fs == [] {
      assert PackAll(fs) + tail == tail;
    } else {
      var rest := PackAll(fs[1..]) + tail;
      assert PackAll(fs) + tail == Pack(fs[0]) + rest;
      PackedFirst(fs[0], rest);
      ParsePack(fs[1..], tail);
    }
  }

  /** ... and any byte stream is the frames it parses to, packed again, and its remainder. */
  lemma {:induction false} PackParse(b: seq<byte>)
    ensures PackAll(Parse(b).frames) + Parse(b).leftover == b
    decreases |b|
  {
    if Complete(b) {
      FirstPacked(b);
      PackParse(AfterFirst(b));
      var rest := Parse(AfterFirst(b));
      assert ([FirstFrame(b)] + rest.frames)[1..] == rest.frames;
    }
  }

  /** The remainder kept between receives is at most one byte short of the largest frame. */
  lemma LeftoverBound(b: seq<byte>)
    ensures |Parse(b).leftover| < HEADER_SIZE + 0xFFFF
  {
  }

  /** ... and that bound is reached. */
  lemma LeftoverBoundReached(kind: byte, processor: uint32)
    ensures var b := Header(0xFFFF, kind, processor) + seq(0xFFFE, _ => 0);
      Parse(b).leftover == b && |b| == HEADER_SIZE + 0xFFFF - 1
  {
    var rest: seq<byte> := [kind] + Bytes32(processor) + seq(0xFFFE, _ => 0);
    var b: seq<byte> := Header(0xFFFF, kind, processor) + seq(0xFFFE, _ => 0);
    assert b == [] + Bytes16(0xFFFF) + rest;
    ReadsBack16(0xFFFF, [], rest);
  }

  // ------------------------------------------------------------ chunks

  lemma CompleteGrows(a: seq<byte>, b: seq<byte>)
    requires Complete(a)
    ensures Complete(a + b) && FirstFrame(a + b) == FirstFrame(a) && AfterFirst(a + b) == AfterFirst(a) + b
  {
    var ab := a + b;
    assert forall i :: 0 <= i < HEADER_SIZE ==> ab[i] == a[i];
    var n := HEADER_SIZE + Read16(a, 0);
    assert ab[HEADER_SIZE..n] == a[HEADER_SIZE..n];
    assert ab[n..] == a[n..] + b;
  }

  /** Parsing can stop at any byte and go on from its remainder. */
  lemma {:induction false} ParseAppend(a: seq<byte>, b: seq<byte>)
    ensures Parse(a + b) == Parsed(Parse(a).frames + Parse(Parse(a).leftover + b).frames, Parse(Parse(a).leftover + b).leftover)
    decreases |a|
  {
    hide Complete, FirstFrame, AfterFirst, Framable;
    if Complete(a) {
      CompleteGrows(a, b);
      ParseAppend(AfterFirst(a), b);
    } else {
      assert [] + Parse(a + b).frames == Parse(a + b).frames;
    }
  }

  /** What a connection delivers before its peer closes it, which shows as an empty receive. */
  function Stream(chunks: seq<seq<byte>>): seq<byte>
  {
    if chunks == [] || chunks[0] == [] then [] else chunks[0] + Stream(chunks[1..])
  }

  lemma {:induction false} StreamPrefix(chunks: seq<seq<byte>>, i: nat)
    requires i < |chunks| && forall j :: 0 <= j < i ==> chunks[j] != []
    ensures Stream(chunks[..i + 1]) == Stream(chunks[..i]) + chunks[i]
    ensures chunks[i] == [] ==> Stream(chunks) == Stream(chunks[..i])
  {
    if i == 0 {
      assert chunks[..1][1..] == [];
    } else {
      var rest := chunks[1..];
      StreamPrefix(rest, i - 1);
      assert chunks[..i + 1][1..] == rest[..i];
      assert chunks[..i][1..] == rest[..i - 1];
    }
  }

  // ------------------------------------------------------------ commands

  predicate HasSecondaryHeader(id: uint16) { (id / 0x800) % 2 == 1 }

  /** The message data handed to the command handler; none for any other message. */
  function CommandData(payload: seq<byte>): seq<byte>
  {
    if |payload| < 6 then []
    else
      var id := Read16(payload, 0);
      var offset := if HasSecondaryHeader(id) && |payload| >= 16 then 16 else 6;
      if id % 0x800 == DATA_OUT_MID || id == DATA_OUT_MID then payload[offset..] else []
  }

  /** The first data byte of every message that reaches the command handler with data. */
  function CommandOf(f: Frame): seq<byte>
  {
    if f.kind == SBN_APP_MSG && CommandData(f.payload) != [] then [CommandData(f.payload)[0]] else []
  }

  function Commands(fs: seq<Frame>): seq<byte>
  {
    if fs == [] then [] else CommandOf(fs[0]) + Commands(fs[1..])
  }

  /** Which byte is the command: the one after the 16 header bytes, or the one after the 6 of a
      message too short for a secondary header. An id that only matches once masked cannot occur,
      and messages of exactly 6 or 16 bytes carry no command. */
  lemma CommandExactly(f: Frame, cmd: byte)
    ensures CommandOf(f) == [cmd] <==>
      && f.kind == 3 && |f.payload| >= 7 && |f.payload| != 16 && f.payload[0] == 0x19 && f.payload[1] == 0x02
      && cmd == f.payload[if |f.payload| > 16 then 16 else 6]
    ensures |f.payload| >= 6 ==> Read16(f.payload, 0) % 0x800 != DATA_OUT_MID
  {
    if |f.payload| >= 6 {
      MostSignificantFirst(f.payload, 0);
    }
    if |f.payload| >= 6 && Read16(f.payload, 0) == DATA_OUT_MID {
      assert DATA_OUT_MID / 0x800 == 3;
      assert HasSecondaryHeader(DATA_OUT_MID);
    }
  }

  // ------------------------------------------------------------ sensor telemetry

  const SEQUENCE_COUNTS: nat := 0x4000

  /** One set of readings; the four floats are kept as the bytes they are packed to. */
  datatype Reading = Reading(seconds: uint32, subseconds: uint16, floats: seq<byte>, camera: byte, network: byte)

  type Readings = r: Reading | |r.floats| == 16 witness Reading(0, 0, seq(16, _ => 0), 0, 0)

  function NextCount(counter: nat): (c: nat) { (counter + 1) % SEQUENCE_COUNTS }

  function SensorPacket(count: nat, r: Readings): (p: seq<byte>)
    requires count < SEQUENCE_COUNTS
    ensures |p| == 62
  {
    Bytes16(DATA_IN_MID) + Bytes16(0xC000 + count) + Bytes16(46 + 10 - 1)
    + (Bytes32(r.seconds) + Bytes16(r.subseconds) + Bytes32(0))
    + (Bytes32(r.seconds) + SensorData(r))
  }

  function SensorFrame(count: nat, r: Readings): (f: Frame)
    requires count < SEQUENCE_COUNTS
    ensures Framable(f)
  {
    Frame(SBN_APP_MSG, PROCESSOR_ID, SensorPacket(count, r))
  }

  lemma Reads(a: seq<byte>, n: uint32, c: seq<byte>, b: seq<byte>, i: nat)
    requires b == a + Bytes32(n) + c && i == |a|
    ensures i + 4 <= |b| && Read32(b, i) == n && b[..i] == a && b[i + 4..] == c
  {
    ReadsBack32(n, a, c);
  }

  lemma Reads2(a: seq<byte>, n: uint16, c: seq<byte>, b: seq<byte>, i: nat)
    requires b == a + Bytes16(n) + c && i == |a|
    ensures i + 2 <= |b| && Read16(b, i) == n && b[..i] == a && b[i + 2..] == c
  {
    ReadsBack16(n, a, c);
  }

  /** Every sensor packet's length field is its size less seven, and its sequence field holds
      flags 11 and its count (sections 4.1.3.4 and 4.1.3.5 of CCSDS 133.0-B-2). */
  lemma SensorPacketFields(count: nat, r: Readings)
    requires count < SEQUENCE_COUNTS
    ensures var p := SensorPacket(count, r);
      Read16(p, 0) == 0x0902 && Read16(p, 2) / 0x4000 == 3 && Read16(p, 2) % 0x4000 == count && Read16(p, 4) + 7 == |p| == 62
  {
    var p := SensorPacket(count, r);
    assert p[0..2] == Bytes16(DATA_IN_MID) && p[2..4] == Bytes16(0xC000 + count) && p[4..6] == Bytes16(55);
    assert p[0] == p[0..2][0] && p[1] == p[0..2][1];
    assert p[2] == p[2..4][0] && p[3] == p[2..4][1];
    assert p[4] == p[4..6][0] && p[5] == p[4..6][1];
  }

  /** What a packet reports, read where its reader expects it. */
  predicate Reads62(p: seq<byte>, r: Readings)
    requires |p| == 62
  {
    && Read32(p, 6) == r.seconds && Read16(p, 10) == r.subseconds && Read32(p, 12) == 0 && Read32(p, 16) == r.seconds
    && p[20..36] == r.floats && p[36] == r.camera && p[37] == r.network && forall k :: 38 <= k < 62 ==> p[k] == 0
  }

  /** Every field after the primary header reads back: the time in the secondary header and again in
      front of the data, the four floats, the camera before the network, and 24 bytes of zeros. */
  lemma SensorPacketReads(count: nat, r: Readings)
    requires count < SEQUENCE_COUNTS
    ensures Reads62(SensorPacket(count, r), r)
  {
    hide Read16, Read32, Bytes16, Bytes32;
    var p := SensorPacket(count, r);
    var primary := Bytes16(DATA_IN_MID) + Bytes16(0xC000 + count) + Bytes16(46 + 10 - 1);
    var data := SensorData(r);
    var last := Bytes32(r.seconds) + data;
    Reads(primary, r.seconds, Bytes16(r.subseconds) + Bytes32(0) + last, p, 6);
    Reads2(primary + Bytes32(r.seconds), r.subseconds, Bytes32(0) + last, p, 10);
    Reads(primary + Bytes32(r.seconds) + Bytes16(r.subseconds), 0, last, p, 12);
    Reads(primary + Bytes32(r.seconds) + Bytes16(r.subseconds) + Bytes32(0), r.seconds, data, p, 16);
    SensorDataReads(r, p);
  }

  /** The data after the time. */
  function SensorData(r: Readings): (d: seq<byte>)
    ensures |d| == 42
  {
    r.floats + [r.camera, r.network] + seq(24, _ => 0)
  }

  lemma SensorDataReads(r: Readings, p: seq<byte>)
    requires |p| == 62 && p[20..] == SensorData(r)
    ensures p[20..36] == r.floats && p[36] == r.camera && p[37] == r.network && forall k :: 38 <= k < 62 ==> p[k] == 0
  {
    var d := SensorData(r);
    assert p[20..36] == d[..16] && p[36] == d[16] && p[37] == d[17];
    forall k | 38 <= k < 62 ensures p[k] == 0 {
      assert p[k] == d[k - 20];
    }
  }

  /** The frames of the next `n` status reports of a client whose counter is `counter`, when the
      sensors give `sense(i)` for the i-th report it makes and `first` have been made. */
  function Reports(counter: nat, first: nat, n: nat, sense: nat -> Readings): (fs: seq<Frame>)
    ensures |fs| == n && AllFramable(fs)
  {
    var fs := seq(n, k requires 0 <= k < n => SensorFrame((counter + k + 1) % SEQUENCE_COUNTS, sense(first + k)));
    assert forall i :: 0 <= i < n ==> fs[i] == SensorFrame((counter + i + 1) % SEQUENCE_COUNTS, sense(first + i));
    fs
  }

  /** So the k-th report from now on carries the k-th count from now and the readings then taken. */
  lemma ReportReads(counter: nat, first: nat, n: nat, sense: nat -> Readings, k: nat)
    requires k < n
    ensures var f := Reports(counter, first, n, sense)[k];
      && f.kind == 3 && f.processor == 100 && |f.payload| == 62
      && Read16(f.payload, 0) == 0x0902 && Read16(f.payload, 2) == 0xC000 + (counter + k + 1) % 0x4000 && Read16(f.payload, 4) == 55
      && Reads62(f.payload, sense(first + k))
  {
    var count := (counter + k + 1) % SEQUENCE_COUNTS;
    SensorPacketFields(count, sense(first + k));
    SensorPacketReads(count, sense(first + k));
    hide SensorPacket, Reads62, Read16;
  }

  lemma Remainder(a: nat, b: nat)
    ensures (a % SEQUENCE_COUNTS + b) % SEQUENCE_COUNTS == (a + b) % SEQUENCE_COUNTS
  {
  }

  lemma SameRemainderIff(a: nat, b: nat)
    requires a <= b
    ensures a % SEQUENCE_COUNTS == b % SEQUENCE_COUNTS <==> (b - a) % SEQUENCE_COUNTS == 0
  {
  }

  /** Two reports carry the same count exactly when a multiple of 2^14 apart: within any window of
      2^14 reports no count repeats. */
  lemma CountsDistinct(counter: nat, first: nat, n: nat, sense: nat -> Readings, j: nat, k: nat)
    requires j < k < n
    ensures var p, q := Reports(counter, first, n, sense)[j].payload, Reports(counter, first, n, sense)[k].payload;
      |p| == |q| == 62 && (Read16(p, 2) == Read16(q, 2) <==> (k - j) % SEQUENCE_COUNTS == 0)
  {
    var a, b := counter + j + 1, counter + k + 1;
    hide SensorPacket, Read16;
    SensorPacketFields(a % SEQUENCE_COUNTS, sense(first + j));
    SensorPacketFields(b % SEQUENCE_COUNTS, sense(first + k));
    SameRemainderIff(a, b);
  }

  lemma ReportsGrow(counter: nat, first: nat, n: nat, sense: nat -> Readings)
    ensures Reports(counter, first, n + 1, sense) ==
            [SensorFrame(NextCount(counter), sense(first))] + Reports(NextCount(counter), first + 1, n, sense)
  {
    hide SensorFrame;
    var long, short := Reports(counter, first, n + 1, sense), Reports(NextCount(counter), first + 1, n, sense);
    forall k | 0 <= k < n ensures long[k + 1] == short[k] {
      Remainder(counter + 1, k + 1);
    }
  }

  // ------------------------------------------------------------ the client

  /** The client as its peers see it: bytes sent, subscriptions, commands acted on; and the counter
      and number of reports that shape the next one. */
  datatype Peer = Peer(subscriptions: set<nat>, counter: nat, reports: nat, outgoing: seq<byte>, executed: seq<byte>)

  function Reported(p: Peer, sense: nat -> Readings): Peer
  {
    var c := NextCount(p.counter);
    p.(counter := c, reports := p.reports + 1, outgoing := p.outgoing + Pack(SensorFrame(c, sense(p.reports))))
  }

  /** One delivered frame: command 1 asks for a status report, 2 and 3 switch the camera. */
  function Handled(p: Peer, f: Frame, sense: nat -> Readings): Peer
  {
    var cmd := CommandOf(f);
    var p1 := if cmd != [] && cmd[0] in {1, 2, 3} then p.(executed := p.executed + cmd) else p;
    if cmd == [1] then Reported(p1, sense) else p1
  }

  function HandledAll(p: Peer, fs: seq<Frame>, sense: nat -> Readings): Peer
    decreases |fs|
  {
    if fs == [] then p else HandledAll(Handled(p, fs[0], sense), fs[1..], sense)
  }

  function CountOf(cmds: seq<byte>, cmd: byte): nat
  {
    if cmds == [] then 0 else (if cmds[0] == cmd then 1 else 0) + CountOf(cmds[1..], cmd)
  }

  function Known(cmds: seq<byte>): seq<byte>
  {
    if cmds == [] then [] else (if cmds[0] in {1, 2, 3} then [cmds[0]] else []) + Known(cmds[1..])
  }

  /** The known commands are 1, 2 and 3: each is kept as often as it comes, and no other is ... */
  lemma {:induction false} KnownExactly(cmds: seq<byte>, cmd: byte)
    ensures multiset(Known(cmds))[cmd] == if 1 <= cmd <= 3 then multiset(cmds)[cmd] else 0
  {
    if cmds != [] {
      var c, rest := cmds[0], cmds[1..];
      KnownExactly(rest, cmd);
      assert Known(cmds) == (if 1 <= c <= 3 then [c] else []) + Known(rest);
      hide Known;
      assert cmds == [c] + rest;
      OneByteMore(c, rest, cmd);
      OneByteMore(c, Known(rest), cmd);
    }
  }

  lemma OneByteMore(c: byte, rest: seq<byte>, cmd: byte)
    ensures multiset([c] + rest)[cmd] == multiset(rest)[cmd] + if c == cmd then 1 else 0
    ensures [] + rest == rest
  {
  }

  /** Commands are counted as often as they come. */
  lemma {:induction false} CountExactly(cmds: seq<byte>, cmd: byte)
    ensures CountOf(cmds, cmd) == multiset(cmds)[cmd]
  {
    if cmds != [] {
      CountExactly(cmds[1..], cmd);
      assert cmds == [cmds[0]] + cmds[1..];
      OneByteMore(cmds[0], cmds[1..], cmd);
    }
  }

  /** ... and they are kept in order. */
  lemma {:induction false} KnownInOrder(cmds: seq<byte>, more: seq<byte>)
    ensures Known(cmds + more) == Known(cmds) + Known(more)
  {
    if cmds == [] {
      assert cmds + more == more;
    } else {
      KnownInOrder(cmds[1..], more);
      assert (cmds + more)[1..] == cmds[1..] + more;
    }
  }

  lemma CommandIsOneByte(f: Frame)
    ensures |CommandOf(f)| <= 1
  {
  }

  lemma CommandsMore(f: Frame, rest: seq<Frame>)
    ensures var cmd, cs := CommandOf(f), Commands(rest);
      && Commands([f] + rest) == cmd + cs
      && CountOf(cmd + cs, 1) == CountOf(cs, 1) + (if cmd == [1] then 1 else 0)
      && Known(cmd + cs) == (if cmd != [] && cmd[0] in {1, 2, 3} then cmd else []) + Known(cs)
  {
    CommandIsOneByte(f);
    var cmd, cs := CommandOf(f), Commands(rest);
    assert ([f] + rest)[1..] == rest;
    if cmd == [] {
      assert cmd + cs == cs;
    } else {
      assert (cmd + cs)[1..] == cs && cmd == [cmd[0]];
    }
  }

  lemma HandledOne(p: Peer, f: Frame, rest: seq<Frame>, sense: nat -> Readings)
    ensures var p1, n, m := Handled(p, f, sense), CountOf(Commands([f] + rest), 1), CountOf(Commands(rest), 1);
      && p1.executed + Known(Commands(rest)) == p.executed + Known(Commands([f] + rest))
      && n == m + (if CommandOf(f) == [1] then 1 else 0)
      && p1.reports == p.reports + n - m && p1.subscriptions == p.subscriptions
  {
    CommandsMore(f, rest);
    hide CommandOf, Commands, SensorFrame, Pack, Known, CountOf;
    var cmd := CommandOf(f);
    assert (p.executed + cmd) + Known(Commands(rest)) == p.executed + (cmd + Known(Commands(rest)));
  }

  lemma PackOne(f: Frame, fs: seq<Frame>)
    requires Framable(f) && AllFramable(fs)
    ensures AllFramable([f] + fs) && PackAll([f] + fs) == Pack(f) + PackAll(fs)
  {
    assert ([f] + fs)[1..] == fs;
  }

  /** Handling any frames executes exactly the known commands among them, in order, and answers
      every status request with one report, the counts running on. */
  lemma {:induction false} HandledAllEffect(p: Peer, fs: seq<Frame>, sense: nat -> Readings)
    requires p.counter < SEQUENCE_COUNTS
    ensures var q, n := HandledAll(p, fs, sense), CountOf(Commands(fs), 1);
      && q.executed == p.executed + Known(Commands(fs))
      && q.outgoing == p.outgoing + PackAll(Reports(p.counter, p.reports, n, sense))
      && q.counter == (p.counter + n) % SEQUENCE_COUNTS && q.reports == p.reports + n
      && q.subscriptions == p.subscriptions
    decreases |fs|
  {
    hide CommandOf, Known, Pack, Reports, Handled, Commands, PackAll;
    if fs == [] {
      NoCommands();
      NoReports(p.counter, p.reports, sense);
    } else {
      var p1, rest := Handled(p, fs[0], sense), fs[1..];
      assert fs == [fs[0]] + rest;
      HandledOne(p, fs[0], rest, sense);
      HandledReports(p, fs[0], CountOf(Commands(rest), 1), sense);
      HandledAllEffect(p1, rest, sense);
    }
  }

  /** A status request adds its report in front of those that follow. */
  lemma HandledReports(p: Peer, f: Frame, m: nat, sense: nat -> Readings)
    requires p.counter < SEQUENCE_COUNTS
    ensures var p1, n := Handled(p, f, sense), m + if CommandOf(f) == [1] then 1 else 0;
      && p1.outgoing + PackAll(Reports(p1.counter, p1.reports, m, sense))
         == p.outgoing + PackAll(Reports(p.counter, p.reports, n, sense))
      && p1.counter < SEQUENCE_COUNTS && (p1.counter + m) % SEQUENCE_COUNTS == (p.counter + n) % SEQUENCE_COUNTS
  {
    hide SensorFrame, CommandOf, Pack, PackAll, Reports;
    if CommandOf(f) == [1] {
      var c := NextCount(p.counter);
      var one, rest := SensorFrame(c, sense(p.reports)), Reports(c, p.reports + 1, m, sense);
      ReportsGrow(p.counter, p.reports, m, sense);
      PackOne(one, rest);
      Remainder(p.counter + 1, m);
      assert (p.outgoing + Pack(one)) + PackAll(rest) == p.outgoing + (Pack(one) + PackAll(rest));
    }
  }

  lemma NoReports(counter: nat, first: nat, sense: nat -> Readings)
    ensures Reports(counter, first, 0, sense) == [] && PackAll([]) == []
  {
  }

  lemma NoCommands()
    ensures Known([]) == [] && CountOf([], 1) == 0 && Commands([]) == []
  {
  }

  /** A client with nothing sent yet: what it sends parses, at its peer, to exactly its reports,
      one for each status request it was sent. */
  lemma PeerReadsReports(p: Peer, fs: seq<Frame>, sense: nat -> Readings)
    requires p.counter < SEQUENCE_COUNTS && p.outgoing == []
    ensures Parse(HandledAll(p, fs, sense).outgoing) ==
            Parsed(Reports(p.counter, p.reports, CountOf(Commands(fs), 1), sense), [])
  {
    HandledAllEffect(p, fs, sense);
    var rs := Reports(p.counter, p.reports, CountOf(Commands(fs), 1), sense);
    ParsePack(rs, []);
    assert p.outgoing + PackAll(rs) == PackAll(rs) + [];
  }

  lemma {:induction false} HandledAllAppend(p: Peer, fs: seq<Frame>, gs: seq<Frame>, sense: nat -> Readings)
    ensures HandledAll(p, fs + gs, sense) == HandledAll(HandledAll(p, fs, sense), gs, sense)
    decreases |fs|
  {
    hide Handled;
    if fs == [] {
      assert fs + gs == gs;
    } else {
      assert (fs + gs)[1..] == fs[1..] + gs;
      HandledAllAppend(Handled(p, fs[0], sense), fs[1..], gs, sense);
    }
  }

  /** Handling a stream can stop after any byte and go on from the buffer it left. */
  lemma HandlingGoesOn(p: Peer, stream: seq<byte>, data: seq<byte>, sense: nat -> Readings)
    ensures var before, after := Parse(stream), Parse(Parse(stream).leftover + data);
      && HandledAll(p, Parse(stream + data).frames, sense) == HandledAll(HandledAll(p, before.frames, sense), after.frames, sense)
      && Parse(stream + data).leftover == after.leftover
  {
    hide Parse;
    ParseAppend(stream, data);
    HandledAllAppend(p, Parse(stream).frames, Parse(Parse(stream).leftover + data).frames, sense);
  }

  lemma NothingReceived(p: Peer, sense: nat -> Readings)
    ensures Stream([]) == [] && Parse([]) == Parsed([], []) && HandledAll(p, [], sense) == p
  {
  }

  /** The two fixed messages, byte by byte. */
  lemma FixedMessages(id: uint16)
    ensures Pack(Frame(SBN_PROTO_MSG, PROCESSOR_ID, [PROTOCOL_VERSION])) == [0, 1, 4, 0, 0, 0, 100, 1]
    ensures Pack(Frame(SBN_SUB_MSG, PROCESSOR_ID, Bytes16(1) + Bytes16(id))) ==
            [0, 4, 1, 0, 0, 0, 100, 0, 1, id / 256, id % 256]
  {
  }

  class Client {
    var subscriptions: set<nat>
    var counter: nat
    var reports: nat
    var outgoing: seq<byte>
    var executed: seq<byte>
    const sense: nat -> Readings

    ghost function Contents(): Peer
      reads this
    {
      Peer(subscriptions, counter, reports, outgoing, executed)
    }

    constructor (sense: nat -> Readings)
      ensures Contents() == Peer({}, 0, 0, [], []) && this.sense == sense
    {
      subscriptions, counter, reports, outgoing, executed := {}, 0, 0, [], [];
      this.sense := sense;
    }

    method SendProtocol()
      modifies this
      ensures Contents() == old(Contents()).(outgoing := old(outgoing) + Pack(Frame(SBN_PROTO_MSG, PROCESSOR_ID, [PROTOCOL_VERSION])))
    {
      outgoing := outgoing + (Header(1, SBN_PROTO_MSG, PROCESSOR_ID) + [PROTOCOL_VERSION]);
    }

    /** Subscribing again sends nothing. */
    method Subscribe(id: uint16)
      modifies this
      ensures Contents() == if id in old(subscriptions) then old(Contents()) else
        old(Contents()).(subscriptions := old(subscriptions) + {id},
                         outgoing := old(outgoing) + Pack(Frame(SBN_SUB_MSG, PROCESSOR_ID, Bytes16(1) + Bytes16(id))))
    {
      if id !in subscriptions {
        subscriptions := subscriptions + {id};
        var payload := Bytes16(1) + Bytes16(id);
        outgoing := outgoing + (Header(|payload|, SBN_SUB_MSG, PROCESSOR_ID) + payload);
      }
    }

    method GetNextSequence() returns (c: nat)
      modifies this`counter
      ensures counter == NextCount(old(counter)) && c == counter
    {
      counter := (counter + 1) % SEQUENCE_COUNTS;
      return counter;
    }

    method SendStatus()
      modifies this
      ensures Contents() == Reported(old(Contents()), sense)
    {
      var r := sense(reports);
      var c := GetNextSequence();
      var message := SensorPacket(c, r);
      outgoing := outgoing + (Header(|message|, SBN_APP_MSG, PROCESSOR_ID) + message);
      reports := reports + 1;
    }

    method HandleMessage(f: Frame)
      modifies this
      ensures Contents() == Handled(old(Contents()), f, sense)
    {
      if f.kind == SBN_APP_MSG {
        HandleAppMessage(f);
      }
    }

    method HandleAppMessage(f: Frame)
      requires f.kind == SBN_APP_MSG
      modifies this
      ensures Contents() == Handled(old(Contents()), f, sense)
    {
      if |f.payload| < 6 {
        return;
      }
      var id := Read16(f.payload, 0);
      var offset := 6;
      if HasSecondaryHeader(id) && |f.payload| >= 16 {
        offset := 16;
      }
      var data := f.payload[offset..];
      if id % 0x800 == DATA_OUT_MID || id == DATA_OUT_MID {
        HandleCommand(f, data);
      }
    }

    method HandleCommand(ghost f: Frame, data: seq<byte>)
      requires data == CommandData(f.payload) && f.kind == SBN_APP_MSG
      modifies this
      ensures Contents() == Handled(old(Contents()), f, sense)
    {
      if |data| < 1 {
        return;
      }
      var cmd := data[0];
      if cmd == 1 || cmd == 2 || cmd == 3 {
        executed := executed + [cmd];
      }
      if cmd == 1 {
        SendStatus();
      }
    }

    /** Receive until the peer closes: whatever the chunks, the frames of the stream are handled in
        order and its remainder is left in the buffer. */
    method ReceiveLoop(chunks: seq<seq<byte>>) returns (buffer: seq<byte>)
      modifies this
      ensures Contents() == HandledAll(old(Contents()), Parse(Stream(chunks)).frames, sense)
      ensures buffer == Parse(Stream(chunks)).leftover
    {
      hide Parse, Handled, HandledAll, Stream;
      NothingReceived(old(Contents()), sense);
      buffer := [];
      var i := 0;
      var closed := false;
      while i < |chunks| && !closed
        invariant 0 <= i <= |chunks|
        invariant chunks[..0] == [] && forall j :: 0 <= j < i ==> chunks[j] != []
        invariant closed ==> i < |chunks| && chunks[i] == []
        invariant Parse(Stream(chunks[..i])).leftover == buffer
        invariant Contents() == HandledAll(old(Contents()), Parse(Stream(chunks[..i])).frames, sense)
        decreases |chunks| - i, !closed
      {
        StreamPrefix(chunks, i);
        var data := chunks[i];
        if data == [] {
          closed := true;
        } else {
          HandlingGoesOn(old(Contents()), Stream(chunks[..i]), data, sense);
          buffer := buffer + data;
          buffer := HandleBuffer(buffer);
          i := i + 1;
        }
      }
      if closed {
        StreamPrefix(chunks, i);
      } else {
        assert chunks[..i] == chunks;
      }
    }

    /** Handle every whole frame in the buffer, and return what remains. */
    method HandleBuffer(data: seq<byte>) returns (buffer: seq<byte>)
      modifies this
      ensures Contents() == HandledAll(old(Contents()), Parse(data).frames, sense)
      ensures buffer == Parse(data).leftover
    {
      buffer := data;
      while |buffer| >= HEADER_SIZE
        invariant HandledAll(Contents(), Parse(buffer).frames, sense) == HandledAll(old(Contents()), Parse(data).frames, sense)
        invariant Parse(buffer).leftover == Parse(data).leftover
        decreases |buffer|
      {
        var size := Read16(buffer, 0);
        if |buffer| < HEADER_SIZE + size {
          break;
        }
        var f := Frame(buffer[2], Read32(buffer, 3), buffer[HEADER_SIZE..HEADER_SIZE + size]);
        buffer := buffer[HEADER_SIZE + size..];
        HandleMessage(f);
      }
    }
  }

  /** Two cuttings of the same bytes into chunks are handled alike, and leave the same buffer. */
  lemma ChunkInvariance(p: Peer, a: seq<seq<byte>>, b: seq<seq<byte>>, sense: nat -> Readings)
    requires Concat(a) == Concat(b) && [] !in a && [] !in b
    ensures HandledAll(p, Parse(Stream(a)).frames, sense) == HandledAll(p, Parse(Stream(b)).frames, sense)
    ensures Parse(Stream(a)).leftover == Parse(Stream(b)).leftover
  {
    StreamJoins(a);
    StreamJoins(b);
  }

  lemma {:induction false} StreamJoins(chunks: seq<seq<byte>>)
    requires [] !in chunks
    ensures Stream(chunks) == Concat(chunks)
  {
    if chunks != [] {
      assert chunks[0] in chunks;
      StreamJoins(chunks[1..]);
    }
  }

  /** Nothing that comes after the peer has closed belongs to the stream. */
  lemma {:induction false} StreamStops(a: seq<seq<byte>>, b: seq<seq<byte>>)
    requires [] !in a
    ensures Stream(a + [[]] + b) == Concat(a)
  {
    if a == [] {
      assert (a + [[]] + b)[0] == [];
    } else {
      assert a[0] in a && (a + [[]] + b)[0] == a[0] && (a + [[]] + b)[1..] == a[1..] + [[]] + b;
      StreamStops(a[1..], b);
    }
  }
}
