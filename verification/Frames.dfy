/** The framed protocol between the worker agent and its child process. */
module Frames {
  import opened Wrappers
  type Byte = n: nat | n < 256
  datatype Error = Truncated | BadMagic | TooLarge | LengthMismatch | TrailingBytes | BrokenPipe | Overflow

  const MAGIC: seq<Byte> := [77, 80, 82, 49]
  const MAX_RESULT_BYTES := 20 * 1024 * 1024
  const LIMIT := 0x1_0000_0000

  /** Four bytes, most significant first. */
  function BigEndian(n: nat): seq<Byte>
    requires n < LIMIT
  {
    [n / 0x100_0000, n / 0x1_0000 % 0x100, n / 0x100 % 0x100, n % 0x100]
  }

  function FromBigEndian(b: seq<Byte>): nat
    requires |b| == 4
  {
    (b[0] as int) * 0x100_0000 + (b[1] as int) * 0x1_0000 + (b[2] as int) * 0x100 + (b[3] as int)
  }

  lemma BigEndianInverts(n: nat, b: seq<Byte>)
    ensures n < LIMIT ==> FromBigEndian(BigEndian(n)) == n
    ensures |b| == 4 ==> FromBigEndian(b) < LIMIT && BigEndian(FromBigEndian(b)) == b
  {
    if n < LIMIT { Split(n); }
    if |b| == 4 { Digits(b[0], b[1], b[2], b[3]); }
  }

  /** The first byte counts most: lengths compare as their bytes do, from the left. */
  lemma BigEndianOrders(m: nat, n: nat) returns (k: nat)
    requires m < n < LIMIT
    ensures k < 4 && BigEndian(m)[..k] == BigEndian(n)[..k] && BigEndian(m)[k] < BigEndian(n)[k]
  {
    Split(m);
    Split(n);
    var a, b := BigEndian(m), BigEndian(n);
    k := if a[0] != b[0] then 0 else if a[1] != b[1] then 1 else if a[2] != b[2] then 2 else 3;
  }

  lemma Split(n: nat)
    requires n < LIMIT
    ensures n == n / 0x100_0000 * 0x100_0000 + n / 0x1_0000 % 0x100 * 0x1_0000 + n / 0x100 % 0x100 * 0x100 + n % 0x100
  {
    assert n / 0x1_0000 == n / 0x100_0000 * 0x100 + n / 0x1_0000 % 0x100;
    assert n / 0x100 == n / 0x1_0000 * 0x100 + n / 0x100 % 0x100;
  }

  lemma Digits(w: nat, x: nat, y: nat, z: nat)
    requires w < 256 && x < 256 && y < 256 && z < 256
    ensures var n := w * 0x100_0000 + x * 0x1_0000 + y * 0x100 + z;
            n / 0x100_0000 == w && n / 0x1_0000 % 0x100 == x && n / 0x100 % 0x100 == y && n % 0x100 == z
  {
    var n := w * 0x100_0000 + x * 0x1_0000 + y * 0x100 + z;
    assert n / 0x1_0000 == w * 0x100 + x;
    assert n / 0x100 == w * 0x1_0000 + x * 0x100 + y;
  }

  function EncodeFrame(payload: seq<Byte>): Result<seq<Byte>, Error> {
    if |payload| >= LIMIT then Err(Overflow) else Ok(MAGIC + BigEndian(|payload|) + payload)
  }

  function DecodeFrame(raw: seq<Byte>, max: nat): Result<seq<Byte>, Error> {
    if |raw| < 8 then Err(Truncated)
    else if raw[..4] != MAGIC then Err(BadMagic)
    else
      var size := FromBigEndian(raw[4..8]);
      if size > max then Err(TooLarge)
      else if |raw| != 8 + size then Err(LengthMismatch)
      else Ok(raw[8..])
  }

  /** Exactly the encodings within the limit are accepted, and give back the payload. */
  lemma DecodeAccepts(raw: seq<Byte>, max: nat, payload: seq<Byte>)
    ensures DecodeFrame(raw, max) == Ok(payload) <==> |payload| <= max && EncodeFrame(payload) == Ok(raw)
  {
    if DecodeFrame(raw, max) == Ok(payload) {
      BigEndianInverts(0, raw[4..8]);
      assert raw == raw[..4] + raw[4..8] + raw[8..];
    }
    if EncodeFrame(payload) == Ok(raw) {
      BigEndianInverts(|payload|, []);
      assert raw[..4] == MAGIC && raw[4..8] == BigEndian(|payload|) && raw[8..] == payload;
    }
  }

  /** Different payloads have different frames, and no frame is the start of another. */
  lemma FramesApart(p: seq<Byte>, q: seq<Byte>)
    requires EncodeFrame(p).Ok? && EncodeFrame(q).Ok?
    ensures EncodeFrame(p).value <= EncodeFrame(q).value ==> p == q
  {
    var a, b := EncodeFrame(p).value, EncodeFrame(q).value;
    if a <= b {
      assert a[4..8] == BigEndian(|p|) && b[4..8] == BigEndian(|q|) && b[..|a|][4..8] == b[4..8];
      BigEndianInverts(|p|, []);
      BigEndianInverts(|q|, []);
      assert a[8..] == p && b[8..] == q;
    }
  }

  /** A descriptor to read from; `sizes` decides how the bytes are cut up. */
  class InputFd {
    var rest: seq<Byte>
    var sizes: seq<nat>

    constructor (bytes: seq<Byte>, sizes: seq<nat>)
      ensures rest == bytes
    {
      rest, this.sizes := bytes, sizes;
    }

    /** At most n bytes, at least one unless the stream has ended. */
    method Read(n: nat) returns (chunk: seq<Byte>)
      requires 0 < n
      modifies this
      ensures chunk + rest == old(rest) && |chunk| <= n
      ensures chunk == [] <==> old(rest) == []
    {
      var k := if sizes != [] && 0 < sizes[0] < n then sizes[0] else n;
      if k > |rest| { k := |rest|; }
      sizes := if sizes != [] then sizes[1..] else [];
      chunk, rest := rest[..k], rest[k..];
    }
  }

  /** A descriptor that never breaks, however little it takes at a time. */
  predicate Willing(takes: seq<int>) { forall i :: 0 <= i < |takes| ==> takes[i] > 0 }

  /** A descriptor to write to; it may take a part, or break. */
  class OutputFd {
    var written: seq<Byte>
    var takes: seq<int>

    constructor (takes: seq<int>)
      ensures written == [] && this.takes == takes
    {
      written, this.takes := [], takes;
    }

    method Write(data: seq<Byte>) returns (n: int)
      modifies this
      ensures n <= |data| && written == old(written) + (if n > 0 then data[..n] else [])
      ensures Willing(old(takes)) ==> Willing(takes) && (data != [] ==> n > 0)
    {
      n := if takes != [] && takes[0] < |data| then takes[0] else |data|;
      takes := if takes != [] then takes[1..] else [];
      if n > 0 { written := written + data[..n]; }
    }
  }

  method ReadExact(fd: InputFd, size: nat) returns (r: Result<seq<Byte>, Error>)
    modifies fd
    ensures r == if |old(fd.rest)| < size then Err(Truncated) else Ok(old(fd.rest)[..size])
    ensures fd.rest == if r.Ok? then old(fd.rest)[size..] else []
  {
    var bytes, remaining := [], size;
    while remaining > 0
      invariant bytes + fd.rest == old(fd.rest) && |bytes| + remaining == size && 0 <= remaining
    {
      var chunk := fd.Read(remaining);
      if chunk == [] { return Err(Truncated); }
      bytes, remaining := bytes + chunk, remaining - |chunk|;
    }
    assert (bytes + fd.rest)[..size] == bytes && (bytes + fd.rest)[size..] == fd.rest;
    r := Ok(bytes);
  }

  /** The child tells a length mismatch apart, and nothing else differently. */
  function ChildError(raw: seq<Byte>, e: Error): Error {
    if e != LengthMismatch || |raw| < 8 then e
    else if |raw| < 8 + FromBigEndian(raw[4..8]) then Truncated else TrailingBytes
  }

  /** For every chunking, the child accepts what the agent's decoder accepts. */
  method ReadFrame(fd: InputFd, max: nat) returns (r: Result<seq<Byte>, Error>)
    modifies fd
    ensures r.Ok? <==> DecodeFrame(old(fd.rest), max).Ok?
    ensures r.Ok? ==> r == DecodeFrame(old(fd.rest), max) && fd.rest == []
    ensures var d := DecodeFrame(old(fd.rest), max);
            d.Err? ==> r == Err(ChildError(old(fd.rest), d.error))
  {
    ghost var raw := fd.rest;
    var header := ReadExact(fd, 8);
    if header.Err? { return header; }
    if header.value[..4] != MAGIC {
      assert raw[..8][..4] == raw[..4];
      return Err(BadMagic);
    }
    assert raw[..8][4..8] == raw[4..8] && raw[..8][..4] == raw[..4];
    var size := FromBigEndian(header.value[4..8]);
    if size > max { return Err(TooLarge); }
    var payload := ReadExact(fd, size);
    if payload.Err? { return payload; }
    var trailing := fd.Read(1);
    if trailing != [] { return Err(TrailingBytes); }
    assert raw[8..] == raw[8..][..size];
    r := payload;
  }

  method WriteAll(fd: OutputFd, data: seq<Byte>) returns (ok: bool)
    modifies fd
    ensures ok <==> fd.written == old(fd.written) + data
    ensures old(fd.written) <= fd.written <= old(fd.written) + data
    ensures Willing(old(fd.takes)) ==> ok
  {
    var view := data;
    assert data == data[0..];
    while view != []
      invariant |view| <= |data| && view == data[|data| - |view|..]
      invariant fd.written == old(fd.written) + data[..|data| - |view|]
      invariant Willing(old(fd.takes)) ==> Willing(fd.takes)
      decreases |view|
    {
      ghost var sent := |data| - |view|;
      var n := fd.Write(view);
      if n <= 0 {
        assert data[..sent] <= data;
        return false;
      }
      assert data[..sent] + view[..n] == data[..sent + n];
      view := view[n..];
    }
    assert data[..|data|] == data;
    ok := true;
  }

  method WriteFrame(fd: OutputFd, payload: seq<Byte>) returns (r: Result<(), Error>)
    modifies fd
    ensures r == Err(TooLarge) <==> |payload| > MAX_RESULT_BYTES
    ensures r == Err(TooLarge) ==> fd.written == old(fd.written)
    ensures r.Ok? ==> EncodeFrame(payload).Ok? && fd.written == old(fd.written) + EncodeFrame(payload).value
    ensures r.Err? ==> r.error in {TooLarge, BrokenPipe}
    ensures r == Err(BrokenPipe) ==> !Willing(old(fd.takes))
  {
    if |payload| > MAX_RESULT_BYTES { return Err(TooLarge); }
    var ok := WriteAll(fd, MAGIC + BigEndian(|payload|) + payload);
    r := if ok then Ok(()) else Err(BrokenPipe);
  }

  /** A written frame reads back as its payload, however either side is cut up. */
  method SendAndReceive(payload: seq<Byte>, takes: seq<int>, sizes: seq<nat>, max: nat)
    returns (r: Result<seq<Byte>, Error>, sent: bool)
    ensures sent && |payload| <= max ==> r == Ok(payload)
    ensures sent && |payload| > max ==> r == Err(TooLarge)
    ensures Willing(takes) ==> (sent <==> |payload| <= MAX_RESULT_BYTES)
  {
    var out := new OutputFd(takes);
    var wrote := WriteFrame(out, payload);
    sent := wrote.Ok?;
    if !sent { return Err(BrokenPipe), false; }
    var input := new InputFd(out.written, sizes);
    DecodeAccepts(out.written, max, payload);
    assert out.written == EncodeFrame(payload).value;
    r := ReadFrame(input, max);
    if r.Ok? {
      DecodeAccepts(out.written, max, r.value);
      FramesApart(payload, r.value);
    }
  }

  /** The reader keeps the first cap bytes and signals overflow exactly when there are more. */
  method BoundedReader(fd: InputFd, cap: nat) returns (target: seq<Byte>, overflow: bool)
    modifies fd
    ensures overflow <==> |old(fd.rest)| > cap
    ensures target == if overflow then old(fd.rest)[..cap] else old(fd.rest)
  {
    target, overflow := [], false;
    while true
      invariant target + fd.rest == old(fd.rest) && |target| <= cap && !overflow
      decreases |fd.rest|
    {
      var chunk := fd.Read(64 * 1024);
      if chunk == [] { return; }
      if |target| + |chunk| > cap {
        var remaining := if cap > |target| then cap - |target| else 0;
        target := target + chunk[..remaining];
        assert target == old(fd.rest)[..cap];
        return target, true;
      }
      target := target + chunk;
    }
  }
}
