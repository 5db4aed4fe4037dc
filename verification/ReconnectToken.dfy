/** Reconnect tokens: a signed statement that a client may resume a sub-domain for a while. The
    text and signature libraries are abstract; what is assumed of them is `Lawful`. */
module ReconnectToken {
  import opened Wrappers
  import opened Utf8
  import ConnectedClients

  datatype Payload = Payload(subDomain: string, clientId: ConnectedClients.ClientId, expires: int)

  /** The signed text and its signature in hexadecimal. */
  datatype Inner = Inner(payload: string, sig: string)

  datatype TokenError = Json | Base64 | InvalidSignature | Expired

  datatype Library = Library(
    toJson: Payload -> Option<string>,
    fromJson: string -> Option<Payload>,
    pack: Inner -> string,                       // to JSON, then to base64
    unpack: string -> Result<Inner, TokenError>, // and back
    mac: (seq<Byte>, string) -> seq<Byte>,       // key and text
    hex: seq<Byte> -> string,
    unhex: string -> Option<seq<Byte>>)

  /** The decoders undo the encoders. */
  ghost predicate Lawful(lib: Library) {
    && (forall p: Payload :: lib.toJson(p).Some? ==> lib.fromJson(lib.toJson(p).value) == Some(p))
    && (forall i: Inner :: lib.unpack(lib.pack(i)) == Ok(i))
    && (forall b: seq<Byte> :: lib.unhex(lib.hex(b)) == Some(b))
  }

  function IntoToken(lib: Library, p: Payload, key: seq<Byte>): Option<string> {
    match lib.toJson(p)
    case None => None
    case Some(text) => Some(lib.pack(Inner(text, lib.hex(lib.mac(key, text)))))
  }

  function Verify(lib: Library, token: string, key: seq<Byte>, now: int): Result<Payload, TokenError> {
    match lib.unpack(token)
    case Err(e) => Err(e)
    case Ok(inner) =>
      if lib.unhex(inner.sig) != Some(lib.mac(key, inner.payload)) then Err(InvalidSignature)
      else
        match lib.fromJson(inner.payload)
        case None => Err(Json)
        case Some(p) => if now > p.expires then Err(Expired) else Ok(p)
  }

  /** An issued token gives back its payload until it expires, and not after. */
  lemma IssuedVerifiesIff(lib: Library, p: Payload, key: seq<Byte>, now: int)
    requires Lawful(lib) && IntoToken(lib, p, key).Some?
    ensures Verify(lib, IntoToken(lib, p, key).value, key, now) == Ok(p) <==> now <= p.expires
    ensures now > p.expires ==> Verify(lib, IntoToken(lib, p, key).value, key, now) == Err(Expired)
  {
  }

  /** The token carries a valid signature under `key`. */
  predicate Authentic(lib: Library, token: string, key: seq<Byte>) {
    && lib.unpack(token).Ok?
    && var inner := lib.unpack(token).value;
       lib.unhex(inner.sig) == Some(lib.mac(key, inner.payload))
  }

  /** What unforgeability means for one token: a valid signature is on a text that was signed. */
  predicate Unforged(lib: Library, key: seq<Byte>, signed: set<string>, token: string) {
    Authentic(lib, token, key) ==> lib.unpack(token).value.payload in signed
  }

  /** The texts signed in issuing tokens for these payloads. */
  ghost function Texts(lib: Library, issued: set<Payload>): set<string> {
    set p | p in issued && lib.toJson(p).Some? :: lib.toJson(p).value
  }

  /** Whatever token is shown, if it verifies then it gives back a payload that was issued under this
      key and has not expired. */
  lemma VerifiedWasIssued(lib: Library, key: seq<Byte>, issued: set<Payload>, token: string, now: int)
    requires Lawful(lib) && Unforged(lib, key, Texts(lib, issued), token) && Verify(lib, token, key, now).Ok?
    ensures Verify(lib, token, key, now).value in issued && now <= Verify(lib, token, key, now).value.expires
  {
  }

  /** So a token that another server issued under its own key, for a payload this one never issued, is
      rejected. */
  lemma ForeignTokenRejected(lib: Library, key: seq<Byte>, issued: set<Payload>, p: Payload,
                             issuer: seq<Byte>, now: int)
    requires Lawful(lib) && IntoToken(lib, p, issuer).Some? && p !in issued
    requires Unforged(lib, key, Texts(lib, issued), IntoToken(lib, p, issuer).value)
    ensures Verify(lib, IntoToken(lib, p, issuer).value, key, now) == Err(InvalidSignature)
  {
  }
}
