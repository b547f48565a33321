/** The consensus write-ahead log: framing, decoding, repair and the search for the end of
    a height. */
module WAL {
  import opened Collections

  type Byte = x: int | 0 <= x < 256
  type Bytes = seq<Byte>

  const MAX_MSG_SIZE_BYTES := 1048576 + 24

  type Msg = int

  /** The protobuf form of messages and the checksum, not interpreted. */
  datatype Codec = Codec(marshal: Msg -> Bytes, unmarshal: Bytes -> Option<Msg>, checksum: Bytes -> int)

  ghost predicate CodecOK(c: Codec) {
    && (forall m :: c.marshal(m) != [] && c.unmarshal(c.marshal(m)) == Some(m))
    && (forall b :: 0 <= c.checksum(b) < 0x1_0000_0000)
  }

  // ------------------------------------------------------------------------ numbers

  function Put32(n: int): Bytes
    requires 0 <= n < 0x1_0000_0000
  {
    [n / 0x100_0000, n / 0x1_0000 % 0x100, n / 0x100 % 0x100, n % 0x100]
  }

  function Get32(b: Bytes): int
    requires |b| == 4
  {
    b[0] as int * 0x100_0000 + b[1] as int * 0x1_0000 + b[2] as int * 0x100 + b[3] as int
  }

  lemma GetPut(n: int)
    requires 0 <= n < 0x1_0000_0000
    ensures |Put32(n)| == 4 && Get32(Put32(n)) == n
  {
    var a, b := n / 0x100, n / 0x1_0000;
    assert n == a * 0x100 + n % 0x100 && a == b * 0x100 + a % 0x100 && b == n / 0x100_0000 * 0x100 + b % 0x100;
  }

  lemma PutGet(b: Bytes)
    requires |b| == 4
    ensures 0 <= Get32(b) < 0x1_0000_0000 && Put32(Get32(b)) == b
  {
    var n := Get32(b);
    assert n / 0x100 == b[0] as int * 0x1_0000 + b[1] as int * 0x100 + b[2] as int;
    assert n / 0x1_0000 == b[0] as int * 0x100 + b[1] as int;
  }

  // ----------------------------------------------------------------------- encoding

  predicate Fits(c: Codec, m: Msg) {
    |c.marshal(m)| <= MAX_MSG_SIZE_BYTES
  }

  function Frame(c: Codec, m: Msg): Bytes
    requires Fits(c, m) && 0 <= c.checksum(c.marshal(m)) < 0x1_0000_0000
  {
    Put32(c.checksum(c.marshal(m))) + Put32(|c.marshal(m)|) + c.marshal(m)
  }

  ghost function EncodeAll(c: Codec, msgs: seq<Msg>): Bytes
    requires CodecOK(c) && forall m | m in msgs :: Fits(c, m)
  {
    if msgs == [] then [] else Frame(c, msgs[0]) + EncodeAll(c, msgs[1..])
  }

  // ----------------------------------------------------------------------- decoding

  /** A plain file hands out what it has, however little; the reader over the group of
      files reports the end instead, and refuses a read of nothing. */
  datatype Source = File | Group

  datatype ReadResult = Read(data: Bytes, rest: Bytes) | ReadEOF | ReadError

  function Zeros(n: nat): (z: Bytes)
    ensures |z| == n
  {
    seq(n, _ => 0)
  }

  function ReadFrom(source: Source, input: Bytes, n: nat): (r: ReadResult)
    ensures r.Read? ==> |r.data| == n && |r.rest| <= |input| && (n > 0 ==> |r.rest| < |input|)
  {
    if n == 0 then (if source.File? then Read([], input) else ReadError)
    else if |input| >= n then Read(input[..n], input[n..])
    else if source.Group? || input == [] then ReadEOF
    else Read(input + Zeros(n - |input|), [])
  }

  datatype Decoded = Decoded(msg: Msg, rest: Bytes) | EOF | Corrupt

  function Decode(c: Codec, source: Source, input: Bytes): (d: Decoded)
    ensures d.Decoded? ==> |d.rest| < |input|
  {
    var sum := ReadFrom(source, input, 4);
    if sum.ReadEOF? then EOF
    else if !sum.Read? then Corrupt
    else
      var length := ReadFrom(source, sum.rest, 4);
      if !length.Read? then Corrupt
      else
        var n := Get32(length.data);
        if n > MAX_MSG_SIZE_BYTES then Corrupt
        else
          var data := ReadFrom(source, length.rest, n);
          if !data.Read? || c.checksum(data.data) != Get32(sum.data) then Corrupt
          else
            match c.unmarshal(data.data)
            case None => Corrupt
            case Some(m) => Decoded(m, data.rest)
  }

  /** The messages before the decoder first fails, and how it fails. */
  ghost function DecodeAll(c: Codec, source: Source, input: Bytes): (seq<Msg>, Decoded)
    decreases |input|
  {
    match Decode(c, source, input)
    case Decoded(m, rest) => var (msgs, end) := DecodeAll(c, source, rest); ([m] + msgs, end)
    case end => ([], end)
  }

  lemma DecodeNext(c: Codec, input: Bytes)
    ensures var d := Decode(c, File, input);
      DecodeAll(c, File, input).0 == if d.Decoded? then [d.msg] + DecodeAll(c, File, d.rest).0 else []
  {
  }

  /** One frame is read back from the front of any input. */
  lemma DecodeFrame(c: Codec, source: Source, m: Msg, rest: Bytes)
    requires CodecOK(c) && Fits(c, m)
    ensures Decode(c, source, Frame(c, m) + rest) == Decoded(m, rest)
  {
    var data := c.marshal(m);
    var a, b := Put32(c.checksum(data)), Put32(|data|);
    GetPut(c.checksum(data));
    GetPut(|data|);
    var input := Frame(c, m) + rest;
    assert input[..4] == a && input[4..] == b + data + rest;
    assert input[4..][..4] == b && input[4..][4..] == data + rest;
    assert (data + rest)[..|data|] == data && (data + rest)[|data|..] == rest;
  }

  /** The limit of the encoder is the limit of the decoder. */
  lemma FitsIfRead(c: Codec, source: Source, m: Msg, rest: Bytes)
    requires CodecOK(c) && |c.marshal(m)| < 0x1_0000_0000
    ensures var data := c.marshal(m);
      Fits(c, m) <==> Decode(c, source, Put32(c.checksum(data)) + Put32(|data|) + data + rest) == Decoded(m, rest)
  {
    if Fits(c, m) {
      DecodeFrame(c, source, m, rest);
    } else {
      var data := c.marshal(m);
      var input := Put32(c.checksum(data)) + Put32(|data|) + data + rest;
      GetPut(|data|);
      assert input[4..][..4] == Put32(|data|);
    }
  }

  /** The input begins with a frame of `data`, or does so with some zeros after it, if it is
      a file that ends within the frame, but not where a part of it begins. A group has no
      frame of nothing. */
  ghost predicate Begins(c: Codec, source: Source, input: Bytes, zeros: nat, data: Bytes, rest: Bytes) {
    && |data| <= MAX_MSG_SIZE_BYTES && 0 <= c.checksum(data) < 0x1_0000_0000
    && input + Zeros(zeros) == Put32(c.checksum(data)) + Put32(|data|) + data + rest
    && (zeros > 0 ==> source.File? && rest == [] && |input| > if data == [] then 4 else 8)
    && (data == [] ==> source.File?)
  }

  /** Exactly when the decoder answers what: the end where nothing is left, or too little for
      a reader over the group; a message where a frame with its checksum begins whose data
      unmarshal to it; anything else is corrupt. */
  lemma DecodeExact(c: Codec, source: Source, input: Bytes, m: Msg, rest: Bytes)
    ensures Decode(c, source, input) == EOF <==> input == [] || (source.Group? && |input| < 4)
    ensures Decode(c, source, input) == Decoded(m, rest) <==>
      exists zeros, data :: Begins(c, source, input, zeros, data, rest) && c.unmarshal(data) == Some(m)
  {
    if Decode(c, source, input) == Decoded(m, rest) {
      var zeros, data := FrameRead(c, source, input);
    }
    if exists zeros, data :: Begins(c, source, input, zeros, data, rest) && c.unmarshal(data) == Some(m) {
      var zeros, data :| Begins(c, source, input, zeros, data, rest) && c.unmarshal(data) == Some(m);
      ReadFrame(c, source, input, zeros, data, rest);
    }
  }

  lemma FrameRead(c: Codec, source: Source, input: Bytes) returns (zeros: nat, data: Bytes)
    requires Decode(c, source, input).Decoded?
    ensures var d := Decode(c, source, input);
      Begins(c, source, input, zeros, data, d.rest) && c.unmarshal(data) == Some(d.msg)
  {
    var sum := ReadFrom(source, input, 4);
    var length := ReadFrom(source, sum.rest, 4);
    var n := Get32(length.data);
    PutGet(sum.data);
    PutGet(length.data);
    var read := ReadFrom(source, length.rest, n);
    data := read.data;
    zeros := if |input| >= 8 + n then 0 else 8 + n - |input|;
    assert input + Zeros(zeros) == sum.data + length.data + data + read.rest;
  }

  lemma ReadFrame(c: Codec, source: Source, input: Bytes, zeros: nat, data: Bytes, rest: Bytes)
    requires Begins(c, source, input, zeros, data, rest) && c.unmarshal(data).Some?
    ensures Decode(c, source, input) == Decoded(c.unmarshal(data).value, rest)
  {
    var a, b := Put32(c.checksum(data)), Put32(|data|);
    GetPut(c.checksum(data));
    GetPut(|data|);
    var padded := input + Zeros(zeros);
    assert |input| + zeros == 8 + |data| + |rest|;
    assert padded[..4] == a && padded[4..8] == b && padded[8..8 + |data|] == data && padded[8 + |data|..] == rest;
    var sum := ReadFrom(source, input, 4);
    assert sum.data == a && sum.rest == input[4..];
    var length := ReadFrom(source, sum.rest, 4);
    assert length.data == b;
    var read := ReadFrom(source, length.rest, |data|);
    assert read.data == data && read.rest == rest;
  }

  /** Whatever list of messages was written is read back, and then the end. */
  lemma {:induction false} RoundTrip(c: Codec, source: Source, msgs: seq<Msg>)
    requires CodecOK(c) && forall m | m in msgs :: Fits(c, m)
    ensures DecodeAll(c, source, EncodeAll(c, msgs)) == (msgs, EOF)
  {
    if msgs != [] {
      DecodeFrame(c, source, msgs[0], EncodeAll(c, msgs[1..]));
      RoundTrip(c, source, msgs[1..]);
      assert [msgs[0]] + msgs[1..] == msgs;
    }
  }

  lemma ReadsBack(c: Codec, msgs: seq<Msg>)
    requires CodecOK(c) && forall m | m in msgs :: Fits(c, m)
    ensures forall source :: DecodeAll(c, source, EncodeAll(c, msgs)) == (msgs, EOF)
  {
    hide CodecOK, Fits, EncodeAll, DecodeAll;
    forall source ensures DecodeAll(c, source, EncodeAll(c, msgs)) == (msgs, EOF) {
      RoundTrip(c, source, msgs);
    }
  }

  lemma {:induction false} EncodeMore(c: Codec, msgs: seq<Msg>, m: Msg)
    requires CodecOK(c) && Fits(c, m) && forall m | m in msgs :: Fits(c, m)
    ensures EncodeAll(c, msgs + [m]) == EncodeAll(c, msgs) + Frame(c, m)
  {
    if msgs == [] {
      assert msgs + [m] == [m];
      assert EncodeAll(c, [m]) == Frame(c, m) + EncodeAll(c, []);
    } else {
      assert (msgs + [m])[1..] == msgs[1..] + [m];
      EncodeMore(c, msgs[1..], m);
    }
  }

  lemma {:induction false} EncodeConcat(c: Codec, a: seq<Msg>, b: seq<Msg>)
    requires CodecOK(c) && forall m | m in a + b :: Fits(c, m)
    ensures (forall m | m in a :: Fits(c, m)) && (forall m | m in b :: Fits(c, m))
    ensures EncodeAll(c, a + b) == EncodeAll(c, a) + EncodeAll(c, b)
  {
    assert forall m | m in a || m in b :: m in a + b;
    if a == [] {
      assert a + b == b;
    } else {
      assert (a + b)[1..] == a[1..] + b;
      EncodeConcat(c, a[1..], b);
    }
  }

  /** A reader goes on from one file into the next. */
  lemma ReadsAcrossFiles(c: Codec, source: Source, a: seq<Msg>, b: seq<Msg>)
    requires CodecOK(c) && (forall m | m in a :: Fits(c, m)) && (forall m | m in b :: Fits(c, m))
    ensures DecodeAll(c, source, EncodeAll(c, a) + EncodeAll(c, b)) == (a + b, EOF)
  {
    EncodeConcat(c, a, b);
    RoundTrip(c, source, a + b);
  }

  lemma SumInRange(c: Codec, m: Msg)
    requires CodecOK(c)
    ensures 0 <= c.checksum(c.marshal(m)) < 0x1_0000_0000
  {
  }

  lemma EncodeNone(c: Codec)
    requires CodecOK(c)
    ensures EncodeAll(c, []) == []
  {
  }

  // ------------------------------------------------------------------------- repair

  /** Copies messages until the first failure. Unless one of them no longer fits, the
      output decodes without failure to exactly the messages before it. */
  method RepairWalFile(c: Codec, src: Bytes) returns (ok: bool, dst: Bytes)
    requires CodecOK(c)
    ensures ok == forall m | m in DecodeAll(c, File, src).0 :: Fits(c, m)
    ensures ok ==> forall source :: DecodeAll(c, source, dst) == (DecodeAll(c, File, src).0, EOF)
  {
    hide Decode, DecodeAll, Frame, Fits, CodecOK, EncodeAll;
    EncodeNone(c);
    dst := [];
    var input := src;
    ghost var done: seq<Msg> := [];
    while true
      invariant forall m | m in done :: Fits(c, m)
      invariant dst == EncodeAll(c, done)
      invariant DecodeAll(c, File, src).0 == done + DecodeAll(c, File, input).0
      decreases |input|
    {
      var d := Decode(c, File, input);
      DecodeNext(c, input);
      if !d.Decoded? { break; }
      if !Fits(c, d.msg) { return false, dst; }
      EncodeMore(c, done, d.msg);
      SumInRange(c, d.msg);
      dst := dst + Frame(c, d.msg);
      done := done + [d.msg];
      input := d.rest;
    }
    assert done + [] == done;
    ReadsBack(c, done);
    ok := true;
  }

  // ------------------------------------------------------------------------- search

  datatype Entry = EndHeight(height: int) | Other | Broken

  /** What a reader opened at file `i` goes through: that file and all later ones. */
  function From(files: seq<seq<Entry>>, i: nat): seq<Entry>
    requires i <= |files|
    decreases |files| - i
  {
    if i == |files| then [] else files[i] + From(files, i + 1)
  }

  /** The last end of height gone through, or what was noted before. */
  function LastMarker(entries: seq<Entry>, before: int): int {
    if entries == [] then before
    else if entries[|entries| - 1].EndHeight? then entries[|entries| - 1].height
    else LastMarker(entries[..|entries| - 1], before)
  }

  ghost predicate GivesUp(files: seq<seq<Entry>>, i: nat, height: int)
    requires i <= |files|
  {
    EndHeight(height) !in From(files, i) && 0 < LastMarker(From(files, i), -1) < height
  }

  /** A broken entry comes before any end of the height. */
  ghost predicate Blocked(entries: seq<Entry>, height: int) {
    exists k :: 0 <= k < |entries| && entries[k].Broken? && EndHeight(height) !in entries[..k]
  }

  /** No file from `i` on ends the search: it finds nothing there, does not give up, and
      nothing broken stops it. */
  ghost predicate GoesOn(files: seq<seq<Entry>>, i: nat, height: int, ignoreCorruption: bool) {
    forall j | i <= j < |files| ::
      && EndHeight(height) !in From(files, j) && !GivesUp(files, j, height)
      && (ignoreCorruption || !Blocked(From(files, j), height))
  }

  datatype SearchResult = Found(file: nat, position: nat) | NotFound | SearchError

  /** The search, newest file first. */
  ghost predicate SearchFrom(files: seq<seq<Entry>>, i: nat, height: int)
    requires i <= |files|
    decreases i
  {
    i > 0
    && (EndHeight(height) in From(files, i - 1) || (!GivesUp(files, i - 1, height) && SearchFrom(files, i - 1, height)))
  }

  ghost predicate Sound(files: seq<seq<Entry>>) {
    forall e | e in From(files, 0) :: !e.Broken?
  }

  lemma {:induction false} FromGrows(files: seq<seq<Entry>>, i: nat, j: nat)
    requires i <= j <= |files|
    ensures forall e | e in From(files, j) :: e in From(files, i)
    decreases j - i
  {
    if i < j {
      FromGrows(files, i + 1, j);
    }
  }

  /** The last marker of all is noted the first time round, and does not change. */
  lemma {:induction false} LastMarkerFrom(file: seq<Entry>, later: seq<Entry>)
    ensures LastMarker(file + later, LastMarker(later, -1)) == LastMarker(file + later, -1)
  {
    if later == [] {
      assert file + later == file;
    } else {
      var n := |later| - 1;
      assert (file + later)[..|file| + n] == file + later[..n];
      if !later[n].EndHeight? {
        LastMarkerFrom(file, later[..n]);
      }
    }
  }

  method SearchForEndHeight(files: seq<seq<Entry>>, height: int, ignoreCorruption: bool) returns (r: SearchResult)
    ensures r.Found? ==>
      && r.file < |files| && r.position < |From(files, r.file)| && From(files, r.file)[r.position] == EndHeight(height)
      && EndHeight(height) !in From(files, r.file)[..r.position]
    ensures ignoreCorruption || Sound(files) ==> !r.SearchError? && (r.Found? <==> SearchFrom(files, |files|, height))
    ensures r.Found? ==>
      GoesOn(files, r.file + 1, height, ignoreCorruption)
      && (ignoreCorruption || !Blocked(From(files, r.file), height))
    ensures r.SearchError? ==> !ignoreCorruption && exists i ::
      0 <= i < |files| && Blocked(From(files, i), height) && GoesOn(files, i + 1, height, false)
    ensures r.NotFound? ==> GoesOn(files, 0, height, ignoreCorruption) || exists i ::
      0 <= i < |files| && GivesUp(files, i, height) && GoesOn(files, i + 1, height, ignoreCorruption)
  {
    hide From, LastMarker, SearchFrom, Blocked;
    var lastHeightFound := -1;
    var index := |files|;
    NothingAfter(files);
    while index > 0
      invariant 0 <= index <= |files|
      invariant lastHeightFound == LastMarker(From(files, index), -1)
      invariant SearchFrom(files, |files|, height) == SearchFrom(files, index, height)
      invariant GoesOn(files, index, height, ignoreCorruption)
      decreases index
    {
      index := index - 1;
      FromGrows(files, 0, index);
      SearchStep(files, index, height);
      var scan := Scan(From(files, index), height, ignoreCorruption, lastHeightFound);
      match scan
      case Failed => return SearchError;
      case At(position) => return Found(index, position);
      case Passed(last) =>
        lastHeightFound := last;
        if lastHeightFound > 0 && lastHeightFound < height {
          assert GivesUp(files, index, height);
          return NotFound;
        }
    }
    NothingBefore(files, height);
    return NotFound;
  }

  datatype ScanResult = At(position: nat) | Passed(last: int) | Failed

  method Scan(entries: seq<Entry>, height: int, ignoreCorruption: bool, before: int) returns (r: ScanResult)
    ensures r.At? ==>
      r.position < |entries| && entries[r.position] == EndHeight(height) && EndHeight(height) !in entries[..r.position]
    ensures r.Passed? ==> EndHeight(height) !in entries && r.last == LastMarker(entries, before)
    ensures r.Failed? ==> exists e :: e in entries && e.Broken?
    ensures r.Failed? <==> !ignoreCorruption && Blocked(entries, height)
  {
    var lastHeightFound := before;
    for i := 0 to |entries|
      invariant EndHeight(height) !in entries[..i]
      invariant lastHeightFound == LastMarker(entries[..i], before)
      invariant ignoreCorruption || forall k | 0 <= k < i :: !entries[k].Broken?
    {
      assert entries[..i + 1] == entries[..i] + [entries[i]] && entries[..i + 1][..i] == entries[..i];
      if entries[i].Broken? {
        if !ignoreCorruption { return Failed; }
        continue;
      }
      if entries[i].EndHeight? {
        lastHeightFound := entries[i].height;
        if entries[i].height == height { return At(i); }
      }
    }
    assert entries[..|entries|] == entries;
    return Passed(lastHeightFound);
  }

  lemma NothingAfter(files: seq<seq<Entry>>)
    ensures LastMarker(From(files, |files|), -1) == -1
  {
  }

  lemma NothingBefore(files: seq<seq<Entry>>, height: int)
    ensures !SearchFrom(files, 0, height)
  {
  }

  lemma SearchStep(files: seq<seq<Entry>>, i: nat, height: int)
    requires i < |files|
    ensures LastMarker(From(files, i), LastMarker(From(files, i + 1), -1)) == LastMarker(From(files, i), -1)
    ensures SearchFrom(files, i + 1, height) <==>
      (EndHeight(height) in From(files, i) ||
        (!(0 < LastMarker(From(files, i), -1) < height) && SearchFrom(files, i, height)))
  {
    LastMarkerFrom(files[i], From(files, i + 1));
  }

  /** The search misses a height the log holds exactly when it gives up in a newer file:
      one from which on the height does not occur but the last marker is positive and
      lower. */
  lemma {:induction false} SearchExact(files: seq<seq<Entry>>, i: nat, height: int)
    requires i <= |files|
    ensures SearchFrom(files, i, height) <==>
      (i > 0 && EndHeight(height) in From(files, 0) && !(exists k :: 0 <= k < i && GivesUp(files, k, height)))
  {
    if i > 0 {
      SearchExact(files, i - 1, height);
      FromGrows(files, 0, i - 1);
      if EndHeight(height) in From(files, i - 1) {
        forall k | 0 <= k < i ensures !GivesUp(files, k, height) {
          FromGrows(files, k, i - 1);
        }
      } else if i == 1 {
        assert !SearchFrom(files, 0, height);
      }
    }
  }

  /** Markers that grow from the start of the log to its end. */
  ghost predicate MarkersGrow(entries: seq<Entry>) {
    forall i, j | 0 <= i < j < |entries| && entries[i].EndHeight? && entries[j].EndHeight? ::
      entries[i].height < entries[j].height
  }

  lemma {:induction false} FromSplits(files: seq<seq<Entry>>, i: nat) returns (head: seq<Entry>)
    requires i <= |files|
    ensures From(files, 0) == head + From(files, i)
    decreases i
  {
    if i == 0 {
      head := [];
    } else {
      var before := FromSplits(files, i - 1);
      head := before + files[i - 1];
    }
  }

  lemma {:induction false} LastMarkerIn(entries: seq<Entry>)
    ensures LastMarker(entries, -1) == -1 ||
      exists i :: 0 <= i < |entries| && entries[i] == EndHeight(LastMarker(entries, -1))
  {
    if entries != [] && !entries[|entries| - 1].EndHeight? {
      LastMarkerIn(entries[..|entries| - 1]);
    }
  }

  /** With growing markers the search finds a height exactly when the log holds it. */
  lemma SearchFinds(files: seq<seq<Entry>>, height: int)
    requires MarkersGrow(From(files, 0))
    ensures SearchFrom(files, |files|, height) <==> EndHeight(height) in From(files, 0)
  {
    SearchExact(files, |files|, height);
    forall k | 0 <= k < |files| && EndHeight(height) in From(files, 0) ensures !GivesUp(files, k, height) {
      var head := FromSplits(files, k);
      var tail := From(files, k);
      LastMarkerIn(tail);
      if EndHeight(height) !in tail && LastMarker(tail, -1) > 0 {
        var i :| 0 <= i < |tail| && tail[i] == EndHeight(LastMarker(tail, -1));
        var j :| 0 <= j < |From(files, 0)| && From(files, 0)[j] == EndHeight(height);
        assert From(files, 0)[|head| + i] == tail[i];
        assert forall p | |head| <= p < |From(files, 0)| :: From(files, 0)[p] == tail[p - |head|];
        assert j < |head|;
      }
    }
  }

  /** Without growing markers it may not: height 7 is missed once a lower marker follows. */
  lemma SearchMisses()
    ensures var files := [[EndHeight(7)], [EndHeight(3)]];
      EndHeight(7) in From(files, 0) && !SearchFrom(files, 2, 7)
  {
    var files := [[EndHeight(7)], [EndHeight(3)]];
    assert From(files, 2) == [] && From(files, 1) == [EndHeight(3)] && From(files, 0) == [EndHeight(7), EndHeight(3)];
    assert GivesUp(files, 1, 7);
    SearchExact(files, 2, 7);
  }
}
