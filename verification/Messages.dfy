/** Message and value types exchanged by the signalling protocol. */
module Messages {
  import opened Basics
  import opened CombinedSequence

  type Cookie = c: seq<Byte> | |c| == 16 witness [0, 0, 0, 0, 0, 0, 0, 0, 0, 0, 0, 0, 0, 0, 0, 0]

  /** The 24-byte nonce sent in front of every message. */
  datatype Nonce = Nonce(cookie: Cookie, source: Address, destination: Address, csn: Csn)

  // Keys are symbolic: a key pair is named by its secret, a public key by the secret it belongs to.
  datatype PublicKey = PublicKey(id: nat)
  datatype KeyPair = KeyPair(id: nat) {
    function Public(): PublicKey {
      PublicKey(id)
    }
  }
  datatype AuthToken = AuthToken(id: nat)

  /** A dynamically typed msgpack value. */
  datatype Value =
    | Nil
    | Bool(b: bool)
    | Int(n: int)
    | Str(s: string)
    | Bin(bytes: seq<Byte>)
    | Arr(items: seq<Value>)
    | Map(pairs: seq<(Value, Value)>)

  type TaskData = Option<map<string, Value>>

  datatype CloseCode =
    | WsClosingNormal | WsGoingAway | WsProtocolError | PathFull | ProtocolError | InternalError | Handover
    | DroppedByInitiator | InitiatorCouldNotDecrypt | NoSharedTask | InvalidKey | Timeout
    | Other(code: U16)
  {
    function AsNumber(): U16 {
      match this
      case WsClosingNormal => 1000
      case WsGoingAway => 1001
      case WsProtocolError => 1002
      case PathFull => 3000
      case ProtocolError => 3001
      case InternalError => 3002
      case Handover => 3003
      case DroppedByInitiator => 3004
      case InitiatorCouldNotDecrypt => 3005
      case NoSharedTask => 3006
      case InvalidKey => 3007
      case Timeout => 3008
      case Other(code) => code
    }
  }

  function CloseCodeFromNumber(code: U16): CloseCode {
    match code
    case 1000 => WsClosingNormal
    case 1001 => WsGoingAway
    case 1002 => WsProtocolError
    case 3000 => PathFull
    case 3001 => ProtocolError
    case 3002 => InternalError
    case 3003 => Handover
    case 3004 => DroppedByInitiator
    case 3005 => InitiatorCouldNotDecrypt
    case 3006 => NoSharedTask
    case 3007 => InvalidKey
    case 3008 => Timeout
    case code => Other(code)
  }

  /** The two keys a pinned server signs: a sealed box of its own, opened with the message nonce. */
  datatype SignedKeys = SignedKeys(x: nat, y: nat, nonce: Nonce, serverSession: PublicKey, clientPermanent: PublicKey)

  datatype Auth = Auth(yourCookie: Cookie, tasks: Option<seq<string>>, task: Option<string>,
                       data: map<string, TaskData>)

  datatype Message =
    | ClientHello(key: PublicKey)
    | ServerHello(key: PublicKey)
    | ClientAuth(yourCookie: Cookie, yourKey: Option<PublicKey>)
    | ServerAuth(yourCookie: Cookie, signedKeys: Option<SignedKeys>,
                 responders: Option<seq<Address>>, initiatorConnected: Option<bool>)
    | NewInitiator
    | NewResponder(id: Address)
    | DropResponder(id: Address, dropReason: Option<U16>)
    | SendError(source: Address, destination: Address, csn: Csn)
    | Disconnected(id: Address)
    | Token(key: PublicKey)
    | Key(key: PublicKey)
    | AuthMsg(auth: Auth)
    | Close(reason: U16)

  const DROPPED_BY_INITIATOR: U16 := 3004
  const INITIATOR_COULD_NOT_DECRYPT: U16 := 3005
  const NO_SHARED_TASK: U16 := 3006
}

/**
 Sealed boxes. Encryption is symbolic: a sealed box records the two secrets whose
 Diffie-Hellman key protects it (in either order, since the shared key is the same on both
 sides), the nonce and the plaintext; it opens only with that key and that nonce.
 */
module Boxes {
  import opened Basics
  import opened Messages

  /** Serialised bytes, represented by what the two deserialisers make of them. */
  datatype Plain = Plain(message: Option<Message>, value: Option<Value>)

  datatype Cipher =
    | Clear(plain: Plain)
    | Sealed(x: nat, y: nat, nonce: Nonce, plain: Plain)
    | SecretSealed(token: AuthToken, nonce: Nonce, plain: Plain)

  datatype ByteBox = ByteBox(bytes: Cipher, nonce: Nonce)

  /** The map a named, internally tagged serialisation of a message reads back as. */
  function MessageValue(m: Message): Value {
    if m.Close? then Map([(Str("type"), Str("close")), (Str("reason"), Int(m.reason))])
    else Map([(Str("type"), Str(TypeName(m)))])
  }

  function TypeName(m: Message): string {
    match m
    case ClientHello(_) => "client-hello"
    case ServerHello(_) => "server-hello"
    case ClientAuth(_, _) => "client-auth"
    case ServerAuth(_, _, _, _) => "server-auth"
    case NewInitiator => "new-initiator"
    case NewResponder(_) => "new-responder"
    case DropResponder(_, _) => "drop-responder"
    case SendError(_, _, _) => "send-error"
    case Disconnected(_) => "disconnected"
    case Token(_) => "token"
    case Key(_) => "key"
    case AuthMsg(_) => "auth"
    case Close(_) => "close"
  }

  function Encode(m: Message): Plain {
    Plain(Some(m), Some(MessageValue(m)))
  }

  function EncodeValue(v: Value, reading: Option<Message>): Plain {
    Plain(reading, Some(v))
  }

  function ClearBox(m: Message, nonce: Nonce): ByteBox {
    ByteBox(Clear(Encode(m)), nonce)
  }

  function Seal(plain: Plain, nonce: Nonce, ours: KeyPair, theirs: PublicKey): ByteBox {
    ByteBox(Sealed(ours.id, theirs.id, nonce, plain), nonce)
  }

  function SealWithToken(m: Message, nonce: Nonce, token: AuthToken): ByteBox {
    ByteBox(SecretSealed(token, nonce, Encode(m)), nonce)
  }

  /** The nonce in front of a sealed box is the one it was sealed with. */
  predicate NonceFits(b: ByteBox) {
    !b.bytes.Clear? ==> b.bytes.nonce == b.nonce
  }

  predicate ReadsAsAuth(plain: Plain) {
    plain.message.Some? && plain.message.value.AuthMsg?
  }

  predicate IsAuth(b: ByteBox) {
    ReadsAsAuth(b.bytes.plain)
  }

  /** The box is protected by the shared key of the secrets `k` and `l`. */
  predicate SealedWith(b: ByteBox, k: nat, l: nat) {
    && b.bytes.Sealed?
    && b.bytes.nonce == b.nonce
    && ((b.bytes.x == k && b.bytes.y == l) || (b.bytes.x == l && b.bytes.y == k))
  }

  function OpenMessage(b: ByteBox, ours: KeyPair, theirs: PublicKey): Option<Message> {
    if SealedWith(b, ours.id, theirs.id) then b.bytes.plain.message else None
  }

  function OpenValue(b: ByteBox, ours: KeyPair, theirs: PublicKey): Option<Value> {
    if SealedWith(b, ours.id, theirs.id) then b.bytes.plain.value else None
  }

  function OpenWithToken(b: ByteBox, token: AuthToken): Option<Message> {
    if b.bytes.SecretSealed? && b.bytes.nonce == b.nonce && b.bytes.token == token then b.bytes.plain.message else None
  }

  function OpenClear(b: ByteBox): Option<Message> {
    if b.bytes.Clear? then b.bytes.plain.message else None
  }
}
