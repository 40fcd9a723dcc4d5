/**
  The WebSocket framing of internal/api/ws.go (sections 5.2 and 5.3 of RFC 6455): readFrame and
  writeText over a byte stream that may end, or stop taking bytes, anywhere.
*/
module WsFrames {
  import opened Basics

  type Byte = x: int | 0 <= x < 256

  // ---- exclusive or ----------------------------------------------------------------------

  /** The exclusive or of the lowest n bits of a and b. */
  function XorBits(a: nat, b: nat, n: nat): (r: nat) {
    if n == 0 then 0 else (if a % 2 == b % 2 then 0 else 1) + 2 * XorBits(a / 2, b / 2, n - 1)
  }

  function Pow2(n: nat): (r: nat) { if n == 0 then 1 else 2 * Pow2(n - 1) }

  lemma {:induction false} XorRange(a: nat, b: nat, n: nat)
    ensures XorBits(a, b, n) < Pow2(n)
  {
    if n > 0 { XorRange(a / 2, b / 2, n - 1); }
  }

  lemma {:induction false} XorTwice(a: nat, b: nat, n: nat)
    requires a < Pow2(n)
    ensures XorBits(XorBits(a, b, n), b, n) == a
  {
    if n > 0 {
      XorTwice(a / 2, b / 2, n - 1);
      var low, high := if a % 2 == b % 2 then 0 else 1, XorBits(a / 2, b / 2, n - 1);
      assert XorBits(a, b, n) % 2 == low && XorBits(a, b, n) / 2 == high;
    }
  }

  lemma Pow2Of8()
    ensures Pow2(8) == 256
  {
    assert Pow2(4) == 16;
  }

  function Xor(a: Byte, b: Byte): (r: Byte) {
    XorRange(a, b, 8);
    Pow2Of8();
    XorBits(a, b, 8)
  }

  lemma XorUndone(a: Byte, b: Byte)
    ensures Xor(Xor(a, b), b) == a
  {
    Pow2Of8();
    XorTwice(a, b, 8);
  }

  function Masked(payload: seq<Byte>, key: seq<Byte>): (r: seq<Byte>)
    requires |key| == 4
  {
    seq(|payload|, i requires 0 <= i < |payload| => Xor(payload[i], key[i % 4]))
  }

  lemma MaskedTwice(payload: seq<Byte>, key: seq<Byte>)
    requires |key| == 4
    ensures Masked(Masked(payload, key), key) == payload
  {
    forall i | 0 <= i < |payload| ensures Masked(Masked(payload, key), key)[i] == payload[i] {
      XorUndone(payload[i], key[i % 4]);
    }
  }

  // ---- lengths ---------------------------------------------------------------------------

  function BigEndian(n: nat, k: nat): (s: seq<Byte>)
    ensures |s| == k
  {
    if k == 0 then [] else BigEndian(n / 256, k - 1) + [n % 256]
  }

  function FromBigEndian(s: seq<Byte>): (r: nat) {
    if s == [] then 0 else FromBigEndian(s[..|s| - 1]) * 256 + s[|s| - 1]
  }

  function Pow256(k: nat): (r: nat) { if k == 0 then 1 else Pow256(k - 1) * 256 }

  lemma {:induction false} BigEndianRoundTrip(n: nat, k: nat)
    requires n < Pow256(k)
    ensures FromBigEndian(BigEndian(n, k)) == n
  {
    if k > 0 {
      BigEndianRoundTrip(n / 256, k - 1);
      assert BigEndian(n, k)[..k - 1] == BigEndian(n / 256, k - 1);
    }
  }

  const MAX_LENGTH := 0x8000_0000_0000_0000  // lengths are 64-bit signed

  lemma Powers()
    ensures Pow256(0) == 1 && Pow256(2) == 65536 && MAX_LENGTH < Pow256(8)
  {
    assert Pow256(2) == 65536;
    assert Pow256(4) == 0x1_0000_0000;
    assert Pow256(6) == 0x1_0000_0000_0000;
  }

  /** The three forms of a length: in the header byte, in two bytes after it, or in eight. */
  datatype Form = Short | Medium | Long

  function Extra(form: Form): (r: nat) {
    match form case Short => 0 case Medium => 2 case Long => 8
  }

  predicate Fits(form: Form, n: nat) {
    match form case Short => n < 126 case Medium => n < 65536 case Long => n < MAX_LENGTH
  }

  /** The length field of the second header byte. */
  function Marker(form: Form, n: nat): (b: Byte)
    requires Fits(form, n)
    ensures b < 128
  {
    match form case Short => n case Medium => 126 case Long => 127
  }

  // ---- frames ----------------------------------------------------------------------------

  /** A frame as sent: its first byte, its length form, its masking key if any, and its payload. */
  datatype Frame = Frame(first: Byte, form: Form, key: Option<seq<Byte>>, payload: seq<Byte>)

  predicate FrameOk(f: Frame) {
    Fits(f.form, |f.payload|) && (f.key.Some? ==> |f.key.value| == 4)
  }

  function Header(f: Frame): (s: seq<Byte>)
    requires FrameOk(f)
    ensures |s| == 2
  {
    [f.first, Marker(f.form, |f.payload|) + (if f.key.Some? then 128 else 0)]
  }

  function Body(f: Frame): (s: seq<Byte>)
    requires FrameOk(f)
  {
    if f.key.Some? then f.key.value + Masked(f.payload, f.key.value) else f.payload
  }

  /** The bytes of a frame (section 5.2). */
  function Wire(f: Frame): (r: seq<Byte>)
    requires FrameOk(f)
  {
    Header(f) + BigEndian(|f.payload|, Extra(f.form)) + Body(f)
  }

  /** The longest slice that the runtime allocates; asking for a longer one, or for a negative length, panics. */
  type Alloc = n: nat | n < MAX_LENGTH

  // ---- reading ---------------------------------------------------------------------------

  /** What reading a frame gives: the frame and the bytes after it; an error, the stream having ended; or a panic. */
  datatype Read = Got(opcode: Byte, payload: seq<Byte>, rest: seq<Byte>) | Ended | Panicked

  function DecodePayload(opcode: Byte, length: nat, key: Option<seq<Byte>>, s: seq<Byte>): (r: Read)
    requires key.Some? ==> |key.value| == 4
  {
    if |s| < length then Ended
    else Got(opcode, if key.Some? then Masked(s[..length], key.value) else s[..length], s[length..])
  }

  /** After the length: the key, the allocation, and the payload. */
  function DecodeBody(max: Alloc, opcode: Byte, masked: bool, length: nat, s: seq<Byte>): (r: Read) {
    if masked && |s| < 4 then Ended
    else if length > max then Panicked
    else if masked then DecodePayload(opcode, length, Some(s[..4]), s[4..])
    else DecodePayload(opcode, length, None, s)
  }

  function FormOf(marker: Byte): (r: Form) {
    if marker == 126 then Medium else if marker == 127 then Long else Short
  }

  function Decode(max: Alloc, s: seq<Byte>): (r: Read) {
    if |s| < 2 then Ended else (
      var opcode, masked, marker := s[0] % 16, s[1] >= 128, s[1] % 128;
      var extra := Extra(FormOf(marker));
      if |s| < 2 + extra then Ended
      else DecodeBody(max, opcode, masked, if extra == 0 then marker else FromBigEndian(s[2..2 + extra]),
          s[2 + extra..]))
  }

  // ---- the connection --------------------------------------------------------------------

  class WsConn {
    var input: seq<Byte>  // what the peer has sent and will send, not yet read
    var sent: seq<Byte>   // what the peer has got
    var room: nat         // how many bytes more the peer will take
    const max: Alloc

    constructor (input: seq<Byte>, room: nat, max: Alloc)
      ensures this.input == input && sent == [] && this.room == room && this.max == max
    {
      this.input, sent, this.room, this.max := input, [], room, max;
    }

    /** io.ReadFull: n bytes, or an error having read the rest. */
    method ReadFull(n: nat) returns (bytes: Option<seq<Byte>>)
      modifies this`input
      ensures n <= |old(input)| ==> bytes == Some(old(input)[..n]) && input == old(input)[n..]
      ensures n > |old(input)| ==> bytes == None && input == []
    {
      if |input| < n {
        input := [];
        return None;
      }
      bytes := Some(input[..n]);
      input := input[n..];
    }

    method ReadLength(marker: Byte) returns (length: Option<nat>)
      requires marker < 128
      modifies this`input
      ensures var extra := Extra(FormOf(marker));
        if |old(input)| < extra then length == None && input == []
        else (
          && length == Some(if extra == 0 then marker else FromBigEndian(old(input)[..extra]))
          && input == old(input)[extra..])
    {
      var ext;
      match marker {
        case 126 =>
          ext := ReadFull(2);
          length := if ext.None? then None else Some(FromBigEndian(ext.value));
        case 127 =>
          ext := ReadFull(8);
          length := if ext.None? then None else Some(FromBigEndian(ext.value));
        case _ =>
          length := Some(marker);
      }
    }

    /** The payload, unmasked in place. */
    method ReadPayload(length: nat, key: Option<seq<Byte>>) returns (payload: array?<Byte>)
      requires key.Some? ==> |key.value| == 4
      modifies this`input
      ensures payload != null ==> fresh(payload)
      ensures match DecodePayload(0, length, key, old(input))
        case Ended => payload == null && input == []
        case Got(_, p, rest) => payload != null && payload[..] == p && input == rest
    {
      var bytes := ReadFull(length);
      if bytes.None? { return null; }
      payload := new Byte[length](i requires 0 <= i < length => bytes.value[i]);
      assert payload[..] == bytes.value;
      if key.Some? { Unmask(payload, key.value); }
    }

    /** readFrame. */
    method ReadFrame() returns (opcode: Byte, payload: array?<Byte>, panicked: bool)
      modifies this`input
      ensures match Decode(max, old(input))
        case Got(op, p, rest) => !panicked && opcode == op && payload != null && fresh(payload) && payload[..] == p
            && input == rest
        case Ended => !panicked && payload == null && input == []
        case Panicked => panicked
    {
      opcode, payload, panicked := 0, null, false;
      ghost var s := input;
      var hdr := ReadFull(2);
      if hdr.None? { return; }
      opcode := hdr.value[0] % 16;
      var masked, marker := hdr.value[1] >= 128, hdr.value[1] % 128;
      ghost var extra := Extra(FormOf(marker));
      var length := ReadLength(marker);
      if length.None? { return; }
      assert s[2..][..extra] == s[2..2 + extra] && s[2..][extra..] == s[2 + extra..];
      payload, panicked := ReadBody(opcode, masked, length.value);
    }

    method ReadBody(ghost opcode: Byte, masked: bool, length: nat) returns (payload: array?<Byte>, panicked: bool)
      modifies this`input
      ensures match DecodeBody(max, opcode, masked, length, old(input))
        case Got(_, p, rest) => !panicked && payload != null && fresh(payload) && payload[..] == p && input == rest
        case Ended => !panicked && payload == null && input == []
        case Panicked => panicked
    {
      payload, panicked := null, false;
      var key := None;
      if masked {
        key := ReadFull(4);
        if key.None? { return; }
      }
      if length > max { return null, true; }
      payload := ReadPayload(length, key);
    }

    /** A write reaches the peer as far as there is room, and fails if that is not all of it. */
    method Write(b: seq<Byte>) returns (ok: bool)
      modifies this`sent, this`room
      ensures ok <==> |b| <= old(room)
      ensures ok ==> sent == old(sent) + b && room == old(room) - |b|
      ensures !ok ==> sent == old(sent) + b[..old(room)] && room == 0
    {
      ok := |b| <= room;
      var n := if ok then |b| else room;
      sent := sent + b[..n];
      room := room - n;
    }

    /** The two header bytes of a text frame. */
    method WriteHeader(b: seq<Byte>) returns (ok: bool)
      requires |b| < MAX_LENGTH
      modifies this`sent, this`room
      ensures Emitted(old(sent), old(room), Header(TextFrame(b)), ok)
    {
      var hdr: seq<Byte>;
      if |b| < 126 { hdr := [0x81, |b|]; }
      else if |b| < 65536 { hdr := [0x81, 126]; }
      else { hdr := [0x81, 127]; }
      assert hdr == Header(TextFrame(b));
      ok := Write(hdr);
    }

    /** The extended length, if the frame has one. */
    method WriteLength(n: nat) returns (ok: bool)
      requires n < MAX_LENGTH
      modifies this`sent, this`room
      ensures Emitted(old(sent), old(room), BigEndian(n, Extra(ShortestForm(n))), ok)
    {
      if 126 <= n && n < 65536 {
        ok := Write(BigEndian(n, 2));
      } else if n >= 65536 {
        ok := Write(BigEndian(n, 8));
      } else {
        ok := true;
        assert BigEndian(n, 0) == [];
      }
    }

    /** The peer got all of w, or as much of it as there was room for and no more ever. */
    ghost predicate Emitted(sent0: seq<Byte>, room0: nat, w: seq<Byte>, ok: bool)
      reads this
    {
      && (ok <==> |w| <= room0)
      && sent == sent0 + Take(w, room0)
      && room == room0 - |Take(w, room0)|
    }

    /** What follows the header. */
    method WriteRest(b: seq<Byte>) returns (ok: bool)
      requires |b| < MAX_LENGTH
      modifies this`sent, this`room
      ensures Emitted(old(sent), old(room), BigEndian(|b|, Extra(ShortestForm(|b|))) + b, ok)
    {
      TakeTwo(BigEndian(|b|, Extra(ShortestForm(|b|))), b, room);
      ok := WriteLength(|b|);
      if ok { ok := Write(b); }
    }

    /** writeText: the whole frame, or a proper prefix of it and an error. */
    method WriteText(b: seq<Byte>) returns (ok: bool)
      requires |b| < MAX_LENGTH
      modifies this`sent, this`room
      ensures Emitted(old(sent), old(room), Wire(TextFrame(b)), ok)
    {
      ghost var rest := BigEndian(|b|, Extra(ShortestForm(|b|))) + b;
      assert Wire(TextFrame(b)) == Header(TextFrame(b)) + rest;
      TakeTwo(Header(TextFrame(b)), rest, room);
      ok := WriteHeader(b);
      if ok { ok := WriteRest(b); }
    }
  }

  /** As much of s as there is room for. */
  function Take(s: seq<Byte>, room: nat): (r: seq<Byte>) {
    if |s| <= room then s else s[..room]
  }

  lemma TakeTwo(a: seq<Byte>, b: seq<Byte>, room: nat)
    ensures Take(a + b, room) == if |a| <= room then a + Take(b, room - |a|) else Take(a, room)
  {
  }

  /** The unmasking loop. */
  method Unmask(payload: array<Byte>, key: seq<Byte>)
    requires |key| == 4
    modifies payload
    ensures payload[..] == Masked(old(payload[..]), key)
  {
    var i := 0;
    while i < payload.Length
      invariant i <= payload.Length
      invariant forall j :: 0 <= j < i ==> payload[j] == Xor(old(payload[j]), key[j % 4])
      invariant forall j :: i <= j < payload.Length ==> payload[j] == old(payload[j])
    {
      payload[i] := Xor(payload[i], key[i % 4]);
      i := i + 1;
    }
  }

  function ShortestForm(n: nat): (r: Form) {
    if n < 126 then Short else if n < 65536 then Medium else Long
  }

  /** The frame that writeText writes for b. */
  function TextFrame(b: seq<Byte>): (f: Frame)
    requires |b| < MAX_LENGTH
    ensures FrameOk(f)
  {
    Frame(0x81, ShortestForm(|b|), None, b)
  }

  // ---- round trips -----------------------------------------------------------------------

  lemma DecodeBodyOf(max: Alloc, f: Frame, rest: seq<Byte>)
    requires FrameOk(f)
    ensures DecodeBody(max, f.first % 16, f.key.Some?, |f.payload|, Body(f) + rest)
      == if |f.payload| <= max then Got(f.first % 16, f.payload, rest) else Panicked
  {
    var s := Body(f) + rest;
    if f.key.Some? {
      var hidden := Masked(f.payload, f.key.value);
      assert s[..4] == f.key.value && s[4..] == hidden + rest;
      assert s[4..][..|f.payload|] == hidden && s[4..][|f.payload|..] == rest;
      MaskedTwice(f.payload, f.key.value);
    } else {
      assert s[..|f.payload|] == f.payload && s[|f.payload|..] == rest;
    }
  }

  lemma LengthOf(f: Frame)
    requires FrameOk(f)
    ensures FormOf(Marker(f.form, |f.payload|)) == f.form
    ensures Extra(f.form) > 0 ==> FromBigEndian(BigEndian(|f.payload|, Extra(f.form))) == |f.payload|
  {
    Powers();
    if Extra(f.form) > 0 { BigEndianRoundTrip(|f.payload|, Extra(f.form)); }
  }

  lemma WireParts(f: Frame)
    requires FrameOk(f)
    ensures var w, extra := Wire(f), Extra(f.form);
      && |w| == 2 + extra + |Body(f)|
      && w[0] == f.first && w[1] == Header(f)[1] && w[1] % 128 == Marker(f.form, |f.payload|)
      && w[2..2 + extra] == BigEndian(|f.payload|, extra) && w[2 + extra..] == Body(f)
  {
    assert Header(f)[1] % 128 == Marker(f.form, |f.payload|);
  }

  /**
    Any frame, masked with any key or not, in any form its length fits, is read back, and what follows it is
    left alone, unless its payload cannot be allocated.
  */
  lemma FrameRoundTrip(max: Alloc, f: Frame, rest: seq<Byte>)
    requires FrameOk(f)
    ensures Decode(max, Wire(f) + rest) == if |f.payload| <= max then Got(f.first % 16, f.payload, rest) else Panicked
  {
    var w, s, extra := Wire(f), Wire(f) + rest, Extra(f.form);
    LengthOf(f);
    WireParts(f);
    assert s[2..2 + extra] == w[2..2 + extra];
    assert s[2 + extra..] == w[2 + extra..] + rest;
    DecodeBodyOf(max, f, rest);
  }

  lemma PrefixOfBody(max: Alloc, f: Frame, s: seq<Byte>, k: nat)
    requires FrameOk(f) && k < |Body(f)| && s == Body(f)[..k]
    ensures DecodeBody(max, f.first % 16, f.key.Some?, |f.payload|, s)
      == if |f.payload| > max && (f.key.Some? ==> k >= 4) then Panicked else Ended
  {
  }

  lemma CutSlices(w: seq<Byte>, k: nat, i: nat, j: nat)
    requires i <= j <= k <= |w|
    ensures w[..k][i..j] == w[i..j] && w[..k][j..] == w[j..][..k - j]
  {
  }

  /** A stream that ends inside a frame gives an error, wherever it ends, unless the payload cannot be allocated. */
  lemma ProperPrefix(max: Alloc, f: Frame, k: nat)
    requires FrameOk(f) && k < |Wire(f)|
    ensures |f.payload| <= max ==> Decode(max, Wire(f)[..k]) == Ended
    ensures |f.payload| > max ==>
      Decode(max, Wire(f)[..k]) == if k >= 2 + Extra(f.form) + (if f.key.Some? then 4 else 0) then Panicked else Ended
  {
    var w, s, extra := Wire(f), Wire(f)[..k], Extra(f.form);
    LengthOf(f);
    WireParts(f);
    if k >= 2 + extra {
      CutSlices(w, k, 2, 2 + extra);
      PrefixOfBody(max, f, s[2 + extra..], k - 2 - extra);
    }
  }

  /** writeText writes the shortest of the forms that the length fits, as section 5.2 wants. */
  lemma ShortestWritten(f: Frame)
    requires FrameOk(f)
    ensures |f.payload| < MAX_LENGTH && Fits(ShortestForm(|f.payload|), |f.payload|)
    ensures Extra(ShortestForm(|f.payload|)) <= Extra(f.form)
    ensures |Wire(TextFrame(f.payload))| <= |Wire(f)|
  {
  }

  lemma {:induction false} LeadingByte(s: seq<Byte>)
    requires s != []
    ensures s[0] * Pow256(|s| - 1) <= FromBigEndian(s) < (s[0] as int + 1) * Pow256(|s| - 1)
  {
    if |s| == 1 {
      assert FromBigEndian(s[..0]) == 0;
    } else {
      var front := s[..|s| - 1];
      LeadingByte(front);
      Widen(s[0], Pow256(|s| - 2), FromBigEndian(front), s[|s| - 1]);
    }
  }

  lemma Widen(a: int, p: int, v: int, low: Byte)
    requires a * p <= v < (a + 1) * p
    ensures a * (p * 256) <= v * 256 + low < (a + 1) * (p * 256)
  {
    var x, y := a * p, (a + 1) * p;
    assert a * (p * 256) == x * 256;
    assert (a + 1) * (p * 256) == y * 256;
  }

  /**
    With room for every length that two bytes can tell, reading panics exactly on an eight-byte
    length beyond what the runtime allocates, once the key, if announced, is there; in particular,
    whatever is allocated, when its highest bit is set, as section 5.2 forbids.
  */
  lemma PanicsExactly(max: Alloc, s: seq<Byte>)
    requires 65535 <= max
    ensures Decode(max, s).Panicked? <==>
      |s| >= 10 && (s[1] >= 128 ==> |s| >= 14) && s[1] % 128 == 127 && FromBigEndian(s[2..10]) > max
    ensures |s| >= 14 && s[1] % 128 == 127 && s[2] >= 128 ==> Decode(max, s).Panicked?
  {
    Powers();
    if |s| >= 10 && s[1] % 128 == 127 {
      LeadingByte(s[2..10]);
      assert Pow256(7) * 128 == MAX_LENGTH;
    } else if |s| >= 4 && s[1] % 128 == 126 {
      LeadingByte(s[2..4]);
      assert FromBigEndian(s[2..4]) < 65536;
    }
  }

  // ---- streams ---------------------------------------------------------------------------

  predicate FramesOk(fs: seq<Frame>) {
    forall i :: 0 <= i < |fs| ==> FrameOk(fs[i])
  }

  /** Every payload can be allocated. */
  predicate AllFit(max: Alloc, fs: seq<Frame>) {
    forall i :: 0 <= i < |fs| ==> |fs[i].payload| <= max
  }

  /** Frames sent one after the other. */
  function Stream(fs: seq<Frame>): (r: seq<Byte>)
    requires FramesOk(fs)
  {
    if fs == [] then [] else Wire(fs[0]) + Stream(fs[1..])
  }

  lemma DecodeConsumes(max: Alloc, s: seq<Byte>)
    ensures Decode(max, s).Got? ==> |Decode(max, s).rest| < |s|
  {
  }

  datatype Message = Message(opcode: Byte, payload: seq<Byte>)

  /** Reading until it fails: the frames read, and what the last read gave. */
  function ReadAll(max: Alloc, s: seq<Byte>): (r: (seq<Message>, Read))
    decreases |s|
  {
    DecodeConsumes(max, s);
    var r := Decode(max, s);
    if r.Got? then (
      var (more, last) := ReadAll(max, r.rest);
      ([Message(r.opcode, r.payload)] + more, last))
    else ([], r)
  }

  function MessageOf(f: Frame): (r: Message) { Message(f.first % 16, f.payload) }

  function MessagesOf(fs: seq<Frame>): (r: seq<Message>) {
    seq(|fs|, i requires 0 <= i < |fs| => MessageOf(fs[i]))
  }

  lemma ReadOne(max: Alloc, f: Frame, rest: seq<Byte>)
    requires FrameOk(f) && |f.payload| <= max
    ensures var (more, last) := ReadAll(max, rest); ReadAll(max, Wire(f) + rest) == ([MessageOf(f)] + more, last)
  {
    FrameRoundTrip(max, f, rest);
  }

  lemma ReadTorn(max: Alloc, f: Frame, k: nat)
    requires FrameOk(f) && k < |Wire(f)| && |f.payload| <= max
    ensures ReadAll(max, Wire(f)[..k]) == ([], Ended)
  {
    ProperPrefix(max, f, k);
  }

  lemma MessagesFront(fs: seq<Frame>)
    requires fs != []
    ensures MessagesOf(fs) == [MessageOf(fs[0])] + MessagesOf(fs[1..])
  {
  }

  lemma Regroup(m: Message, ms: seq<Message>, more: seq<Message>)
    ensures [m] + (ms + more) == [m] + ms + more
  {
  }

  /** A whole stream is read back frame by frame, and what follows it is read as if the stream had not been there. */
  lemma {:induction false} StreamRoundTrip(max: Alloc, fs: seq<Frame>, rest: seq<Byte>)
    requires FramesOk(fs) && AllFit(max, fs)
    ensures var (more, last) := ReadAll(max, rest);
      ReadAll(max, Stream(fs) + rest) == (MessagesOf(fs) + more, last)
  {
    var (more, last) := ReadAll(max, rest);
    if fs == [] {
      assert Stream(fs) + rest == rest && MessagesOf(fs) + more == more;
    } else {
      assert FramesOk(fs[1..]) && AllFit(max, fs[1..]);
      StreamRoundTrip(max, fs[1..], rest);
      ReadOne(max, fs[0], Stream(fs[1..]) + rest);
      assert Stream(fs) + rest == Wire(fs[0]) + (Stream(fs[1..]) + rest);
      MessagesFront(fs);
      Regroup(MessageOf(fs[0]), MessagesOf(fs[1..]), more);
    }
  }

  /** How many frames a stream of k bytes holds whole. */
  function Whole(fs: seq<Frame>, k: nat): (m: nat)
    requires FramesOk(fs)
    ensures m <= |fs|
  {
    if fs == [] || k < |Wire(fs[0])| then 0 else 1 + Whole(fs[1..], k - |Wire(fs[0])|)
  }

  lemma EmptyEnds(max: Alloc)
    ensures ReadAll(max, []) == ([], Ended)
  {
  }

  lemma CutAfterFirst(fs: seq<Frame>, k: nat)
    requires FramesOk(fs) && fs != [] && |Wire(fs[0])| <= k <= |Stream(fs)|
    ensures Stream(fs)[..k] == Wire(fs[0]) + Stream(fs[1..])[..k - |Wire(fs[0])|]
  {
  }

  lemma MessagesTake(fs: seq<Frame>, m: nat)
    requires m < |fs|
    ensures MessagesOf(fs[..m + 1]) == [MessageOf(fs[0])] + MessagesOf(fs[1..][..m])
  {
    assert fs[..m + 1][0] == fs[0] && fs[..m + 1][1..] == fs[1..][..m];
    MessagesFront(fs[..m + 1]);
  }

  /** A stream cut anywhere: exactly the whole frames are read, and then there is an error, never a wrong frame. */
  lemma {:induction false} CutStream(max: Alloc, fs: seq<Frame>, k: nat)
    requires FramesOk(fs) && AllFit(max, fs) && k <= |Stream(fs)|
    ensures ReadAll(max, Stream(fs)[..k]) == (MessagesOf(fs[..Whole(fs, k)]), Ended)
  {
    if fs == [] || k < |Wire(fs[0])| {
      CutInFirst(max, fs, k);
    } else {
      var w := Wire(fs[0]);
      assert FramesOk(fs[1..]) && AllFit(max, fs[1..]);
      CutStream(max, fs[1..], k - |w|);
      ReadOne(max, fs[0], Stream(fs[1..])[..k - |w|]);
      CutAfterFirst(fs, k);
      MessagesTake(fs, Whole(fs[1..], k - |w|));
    }
  }

  lemma CutInFirst(max: Alloc, fs: seq<Frame>, k: nat)
    requires FramesOk(fs) && AllFit(max, fs) && k <= |Stream(fs)| && (fs == [] || k < |Wire(fs[0])|)
    ensures ReadAll(max, Stream(fs)[..k]) == (MessagesOf(fs[..0]), Ended)
  {
    assert MessagesOf(fs[..0]) == [];
    if fs == [] {
      EmptyEnds(max);
    } else {
      assert Stream(fs)[..k] == Wire(fs[0])[..k];
      ReadTorn(max, fs[0], k);
    }
  }

  /** The frames that writeText writes for a list of payloads. */
  function TextFrames(bs: seq<seq<Byte>>): (fs: seq<Frame>)
    requires Sendable(bs)
    ensures FramesOk(fs) && |fs| == |bs|
  {
    seq(|bs|, i requires 0 <= i < |bs| => TextFrame(bs[i]))
  }

  lemma {:induction false} StreamPush(fs: seq<Frame>, f: Frame)
    requires FramesOk(fs) && FrameOk(f)
    ensures FramesOk(fs + [f]) && Stream(fs + [f]) == Stream(fs) + Wire(f)
  {
    if fs == [] {
      assert Stream([f]) == Wire(f) + Stream([]);
      assert fs + [f] == [f];
    } else {
      StreamPush(fs[1..], f);
      assert (fs + [f])[1..] == fs[1..] + [f];
      assert Stream(fs + [f]) == Wire(fs[0]) + (Stream(fs[1..]) + Wire(f));
    }
  }

  ghost predicate Sendable(bs: seq<seq<Byte>>) { forall i :: 0 <= i < |bs| ==> |bs[i]| < MAX_LENGTH }

  lemma SentThen(max: Alloc, bs: seq<seq<Byte>>, rest: seq<Byte>)
    requires Sendable(bs) && AllFit(max, TextFrames(bs)) && ReadAll(max, rest) == ([], Ended)
    ensures ReadAll(max, Stream(TextFrames(bs)) + rest) == (MessagesOf(TextFrames(bs)), Ended)
  {
    StreamRoundTrip(max, TextFrames(bs), rest);
    assert MessagesOf(TextFrames(bs)) + [] == MessagesOf(TextFrames(bs));
  }

  lemma SentOneMore(bs: seq<seq<Byte>>, b: seq<Byte>)
    requires Sendable(bs) && |b| < MAX_LENGTH
    ensures Sendable(bs + [b]) && Stream(TextFrames(bs + [b])) == Stream(TextFrames(bs)) + Wire(TextFrame(b))
  {
    assert TextFrames(bs + [b]) == TextFrames(bs) + [TextFrame(b)];
    StreamPush(TextFrames(bs), TextFrame(b));
  }

  /**
    The pump's sending side: it stops at the first failed write.  A peer that takes `room` bytes in
    all, and can allocate the payloads, reads back exactly the payloads reported as sent, and then an error.
  */
  method SendAll(c: WsConn, bs: seq<seq<Byte>>, ghost peer: Alloc) returns (n: nat)
    requires c.sent == [] && Sendable(bs) && AllFit(peer, TextFrames(bs))
    modifies c
    ensures n <= |bs| && (n < |bs| ==> c.room == 0)
    ensures ReadAll(peer, c.sent) == (MessagesOf(TextFrames(bs[..n])), Ended)
  {
    n := 0;
    while n < |bs|
      invariant n <= |bs| && c.sent == Stream(TextFrames(bs[..n]))
    {
      ghost var room, frame := c.room, Wire(TextFrame(bs[n]));
      SentFits(peer, bs, n);
      var ok := c.WriteText(bs[n]);
      if !ok {
        ReadTorn(peer, TextFrame(bs[n]), room);
        SentThen(peer, bs[..n], frame[..room]);
        return;
      }
      SentOneMore(bs[..n], bs[n]);
      assert bs[..n] + [bs[n]] == bs[..n + 1];
      n := n + 1;
    }
    EmptyEnds(peer);
    assert bs[..n] == bs;
    SentThen(peer, bs[..n], []);
    assert c.sent + [] == c.sent;
  }

  lemma SentFits(peer: Alloc, bs: seq<seq<Byte>>, n: nat)
    requires Sendable(bs) && AllFit(peer, TextFrames(bs)) && n < |bs|
    ensures Sendable(bs[..n]) && AllFit(peer, TextFrames(bs[..n])) && |bs[n]| <= peer
  {
    assert |TextFrames(bs)[n].payload| <= peer;
    forall i | 0 <= i < n ensures |TextFrames(bs[..n])[i].payload| <= peer {
      assert |TextFrames(bs)[i].payload| <= peer;
    }
  }
}
