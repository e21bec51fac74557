/** The byte formats: nonces, send-error ids and whole messages. */
module Wire {
  import opened Basics
  import opened CombinedSequence
  import opened Messages

  // ---------- Big-endian numbers ----------

  function ReadU16(bytes: seq<Byte>): U16
    requires |bytes| == 2
  {
    bytes[0] as int * 0x100 + bytes[1]
  }

  function ReadU32(bytes: seq<Byte>): U32
    requires |bytes| == 4
  {
    ReadU16(bytes[..2]) as int * 0x1_0000 + ReadU16(bytes[2..])
  }

  function BytesOfU16(n: U16): (bytes: seq<Byte>)
    ensures |bytes| == 2
  {
    [n / 0x100, n % 0x100]
  }

  function BytesOfU32(n: U32): (bytes: seq<Byte>)
    ensures |bytes| == 4
  {
    BytesOfU16(n / 0x1_0000) + BytesOfU16(n % 0x1_0000)
  }

  lemma U16RoundTrips(n: U16, bytes: seq<Byte>)
    requires |bytes| == 2
    ensures ReadU16(BytesOfU16(n)) == n
    ensures BytesOfU16(ReadU16(bytes)) == bytes
  {
  }

  lemma U32RoundTrips(n: U32, bytes: seq<Byte>)
    requires |bytes| == 4
    ensures ReadU32(BytesOfU32(n)) == n
    ensures BytesOfU32(ReadU32(bytes)) == bytes
  {
  }

  /** Writes a 16-bit number at an offset, as the byte order library does. */
  method WriteU16(a: array<Byte>, at: nat, n: U16)
    requires at + 2 <= a.Length
    modifies a
    ensures a[..] == old(a[..at]) + BytesOfU16(n) + old(a[at + 2..])
  {
    a[at] := n / 0x100;
    a[at + 1] := n % 0x100;
  }

  method WriteU32(a: array<Byte>, at: nat, n: U32)
    requires at + 4 <= a.Length
    modifies a
    ensures a[..] == old(a[..at]) + BytesOfU32(n) + old(a[at + 4..])
  {
    WriteU16(a, at, n / 0x1_0000);
    WriteU16(a, at + 2, n % 0x1_0000);
  }

  // ---------- Send-error ids ----------

  /** What identifies a message that could not be relayed. */
  datatype SendErrorId = SendErrorId(source: Address, destination: Address, csn: Csn)

  const SEND_ERROR_ID_BYTES: nat := 8

  function IdBytes(id: SendErrorId): (bytes: seq<Byte>)
    ensures |bytes| == SEND_ERROR_ID_BYTES
  {
    [id.source, id.destination] + BytesOfU16(id.csn.overflow) + BytesOfU32(id.csn.sequence)
  }

  function IdFromBytes(bytes: seq<Byte>): Option<SendErrorId> {
    if |bytes| != SEND_ERROR_ID_BYTES then None
    else Some(SendErrorId(bytes[0], bytes[1], Csn(ReadU16(bytes[2..4]), ReadU32(bytes[4..8]))))
  }

  method SendErrorIdAsBytes(id: SendErrorId) returns (bytes: array<Byte>)
    ensures fresh(bytes) && bytes[..] == IdBytes(id)
  {
    bytes := new Byte[8](_ => 0);
    bytes[0] := id.source;
    bytes[1] := id.destination;
    assert bytes[..2] == [id.source, id.destination];
    WriteU16(bytes, 2, id.csn.overflow);
    WriteU32(bytes, 4, id.csn.sequence);
  }

  /** Send-error ids and 8-byte strings are the same thing; other lengths are refused. */
  lemma IdRoundTrips(id: SendErrorId, bytes: seq<Byte>)
    ensures IdFromBytes(IdBytes(id)) == Some(id)
    ensures IdFromBytes(bytes).Some? <==> |bytes| == SEND_ERROR_ID_BYTES
    ensures IdFromBytes(bytes).Some? ==> IdBytes(IdFromBytes(bytes).value) == bytes
  {
    hide ReadU16;
    hide BytesOfU16;
    hide ReadU32;
    hide BytesOfU32;
    var e := IdBytes(id);
    assert e[2..4] == BytesOfU16(id.csn.overflow) && e[4..8] == BytesOfU32(id.csn.sequence);
    U16RoundTrips(id.csn.overflow, [0, 0]);
    U32RoundTrips(id.csn.sequence, [0, 0, 0, 0]);
    if |bytes| == SEND_ERROR_ID_BYTES {
      U16RoundTrips(0, bytes[2..4]);
      U32RoundTrips(0, bytes[4..8]);
      assert bytes == [bytes[0], bytes[1]] + bytes[2..4] + bytes[4..8];
    }
  }

  // ---------- Nonces ----------

  const NONCE_BYTES: nat := 24

  function NonceBytes(n: Nonce): (bytes: seq<Byte>)
    ensures |bytes| == NONCE_BYTES
  {
    n.cookie + [n.source, n.destination] + BytesOfU16(n.csn.overflow) + BytesOfU32(n.csn.sequence)
  }

  function NonceFromBytes(bytes: seq<Byte>): Option<Nonce> {
    if |bytes| != NONCE_BYTES then None
    else Some(Nonce(bytes[..16], bytes[16], bytes[17], Csn(ReadU16(bytes[18..20]), ReadU32(bytes[20..24]))))
  }

  method NonceIntoBytes(n: Nonce) returns (bytes: array<Byte>)
    ensures fresh(bytes) && bytes[..] == NonceBytes(n)
  {
    bytes := new Byte[24](_ => 0);
    for k := 0 to 16
      invariant bytes[..k] == n.cookie[..k]
    {
      bytes[k] := n.cookie[k];
    }
    assert bytes[..16] == n.cookie;
    bytes[16] := n.source;
    bytes[17] := n.destination;
    assert bytes[..18] == n.cookie + [n.source, n.destination];
    WriteU16(bytes, 18, n.csn.overflow);
    WriteU32(bytes, 20, n.csn.sequence);
  }

  /** The id under which the server reports a message it could not relay. */
  function IdOf(n: Nonce): SendErrorId {
    SendErrorId(n.source, n.destination, n.csn)
  }

  /** A nonce is its cookie followed by its send-error id. */
  lemma IdIsTailOfNonce(n: Nonce)
    ensures NonceBytes(n) == n.cookie + IdBytes(IdOf(n))
    ensures NonceBytes(n)[16..] == IdBytes(IdOf(n))
    ensures IdFromBytes(NonceBytes(n)[16..]) == Some(IdOf(n))
  {
  }

  /** Nonces and 24-byte strings are the same thing; other lengths are refused. */
  lemma NonceRoundTrips(n: Nonce, bytes: seq<Byte>)
    ensures NonceFromBytes(NonceBytes(n)) == Some(n)
    ensures NonceFromBytes(bytes).Some? <==> |bytes| == NONCE_BYTES
    ensures NonceFromBytes(bytes).Some? ==> NonceBytes(NonceFromBytes(bytes).value) == bytes
  {
    hide ReadU16;
    hide BytesOfU16;
    hide ReadU32;
    hide BytesOfU32;
    ParsedById(NonceBytes(n));
    IdIsTailOfNonce(n);
    assert NonceBytes(n)[..16] == n.cookie;
    if |bytes| == NONCE_BYTES {
      ParsedById(bytes);
      IdRoundTrips(IdOf(n), bytes[16..]);
      IdIsTailOfNonce(NonceFromBytes(bytes).value);
      assert bytes == bytes[..16] + bytes[16..];
    }
  }

  /** Parsing a nonce is taking the cookie and parsing the rest as a send-error id. */
  lemma ParsedById(bytes: seq<Byte>)
    requires |bytes| == NONCE_BYTES
    ensures IdFromBytes(bytes[16..]).Some?
    ensures var id := IdFromBytes(bytes[16..]).value;
            NonceFromBytes(bytes) == Some(Nonce(bytes[..16], id.source, id.destination, id.csn))
  {
    hide ReadU16;
    hide ReadU32;
    assert bytes[16..][2..4] == bytes[18..20] && bytes[16..][4..8] == bytes[20..24];
  }

  // ---------- Whole messages ----------

  /** A message as it goes over the wire: nonce and payload. */
  datatype Frame = Frame(nonce: Nonce, payload: seq<Byte>)

  function FrameBytes(f: Frame): seq<Byte> {
    NonceBytes(f.nonce) + f.payload
  }

  /** A message must be longer than its nonce. */
  function FrameFromBytes(bytes: seq<Byte>): Option<Frame> {
    if |bytes| <= NONCE_BYTES then None
    else
      match NonceFromBytes(bytes[..NONCE_BYTES])
      case None => None
      case Some(n) => Some(Frame(n, bytes[NONCE_BYTES..]))
  }

  /** Extends a vector by the nonce's bytes and then by the payload. */
  method FrameIntoBytes(f: Frame) returns (bytes: seq<Byte>)
    ensures bytes == FrameBytes(f)
  {
    var nonce := NonceIntoBytes(f.nonce);
    bytes := [];
    for k := 0 to nonce.Length
      invariant bytes == nonce[..k] && nonce[..] == NonceBytes(f.nonce)
    {
      bytes := bytes + [nonce[k]];
    }
    for k := 0 to |f.payload|
      invariant bytes == NonceBytes(f.nonce) + f.payload[..k]
    {
      bytes := bytes + [f.payload[k]];
    }
  }

  /** A message survives the wire exactly if its payload is not empty. */
  lemma FrameRoundTrips(f: Frame)
    ensures FrameFromBytes(FrameBytes(f)) == if f.payload == [] then None else Some(f)
  {
    hide NonceBytes;
    hide NonceFromBytes;
    var e := FrameBytes(f);
    assert e[..NONCE_BYTES] == NonceBytes(f.nonce) && e[NONCE_BYTES..] == f.payload;
    NonceRoundTrips(f.nonce, []);
  }

  /** Every byte string longer than a nonce is a message, and writing that message gives it back. */
  lemma BytesRoundTrip(bytes: seq<Byte>)
    ensures FrameFromBytes(bytes).Some? <==> |bytes| > NONCE_BYTES
    ensures FrameFromBytes(bytes).Some? ==> FrameBytes(FrameFromBytes(bytes).value) == bytes
  {
    hide NonceBytes;
    hide NonceFromBytes;
    if |bytes| > NONCE_BYTES {
      var cookie: Cookie := bytes[..16];
      NonceRoundTrips(Nonce(cookie, 0, 0, Csn(0, 0)), bytes[..NONCE_BYTES]);
    }
  }
}
