/** The control packets of the tunnel and their wire form. */
module ControlPacket {
  import opened Wrappers
  import opened Utf8

  type StreamId = id: seq<Byte> | |id| == 8 witness [0, 0, 0, 0, 0, 0, 0, 0]

  datatype Packet =
    | Init(sid: StreamId)
    | Data(sid: StreamId, data: seq<Byte>)
    | Refused(sid: StreamId)
    | End(sid: StreamId)
    | Ping(token: Option<string>)

  datatype DecodeError = MissingStreamId | InvalidControlByte

  const EMPTY_STREAM: StreamId := [0x0F, 0, 0, 0, 0, 0, 0, 0]
  const TOKEN_STREAM: StreamId := [0x0F, 0, 0, 0, 0, 0, 0, 1]

  function Serialize(p: Packet): seq<Byte> {
    match p
    case Init(sid) => [0x01] + sid
    case Data(sid, data) => [0x02] + sid + data
    case Refused(sid) => [0x03] + sid
    case End(sid) => [0x04] + sid
    case Ping(None) => [0x05] + EMPTY_STREAM
    case Ping(Some(token)) => [0x05] + TOKEN_STREAM + Encode(token)
  }

  function Deserialize(b: seq<Byte>): Result<Packet, DecodeError> {
    if |b| < 9 then Err(MissingStreamId)
    else
      var sid: StreamId := b[1..9];
      match b[0]
      case 0x01 => Ok(Init(sid))
      case 0x02 => Ok(Data(sid, b[9..]))
      case 0x03 => Ok(Refused(sid))
      case 0x04 => Ok(End(sid))
      case 0x05 => Ok(Ping(if sid == EMPTY_STREAM then None else Some(DecodeLossy(b[9..]))))
      case _ => Err(InvalidControlByte)
  }

  /** Every packet survives the wire, empty data and empty tokens included, and no packet
      serialises to the empty message that the server's reader takes for a hang-up. */
  lemma RoundTrip(p: Packet)
    ensures Deserialize(Serialize(p)) == Ok(p)
    ensures |Serialize(p)| >= 9
  {
    var b := Serialize(p);
    if p.Ping? {
      if p.token.Some? {
        assert b[1..9] == TOKEN_STREAM && b[9..] == Encode(p.token.value);
        DecodeEncode(p.token.value);
      } else {
        assert b[1..9] == EMPTY_STREAM;
      }
    } else {
      assert b[1..9] == p.sid;
      assert p.Data? ==> b[9..] == p.data;
    }
  }

  /** The wire form byte by byte, for one stream. */
  lemma WireSamples()
    ensures var s: StreamId := [9, 8, 7, 6, 5, 4, 3, 2];
            && Serialize(Init(s)) == [1, 9, 8, 7, 6, 5, 4, 3, 2]
            && Serialize(Data(s, [72, 105])) == [2, 9, 8, 7, 6, 5, 4, 3, 2, 72, 105]
            && Serialize(Refused(s)) == [3, 9, 8, 7, 6, 5, 4, 3, 2]
            && Serialize(End(s)) == [4, 9, 8, 7, 6, 5, 4, 3, 2]
            && Serialize(Ping(None)) == [5, 15, 0, 0, 0, 0, 0, 0, 0]
            && Serialize(Ping(Some("hi"))) == [5, 15, 0, 0, 0, 0, 0, 0, 1, 104, 105]
  {
    assert Encode("i") == [105] + Encode([]);
    assert Encode("hi") == [104] + Encode("i");
  }

  /** Re-serialising an accepted message gives a normal form: it decodes to the same packet, it
      is the message itself for data, the nine-byte header for the packets without a body, and
      otherwise the token header followed by well-formed text. */
  lemma NormalForm(b: seq<Byte>)
    requires Deserialize(b).Ok?
    ensures var p := Deserialize(b).value;
            && Deserialize(Serialize(p)) == Ok(p)
            && (p.Data? ==> Serialize(p) == b)
            && (p.Init? || p.Refused? || p.End? || p == Ping(None) ==> Serialize(p) == b[..9])
            && (p.Ping? && p.token.Some? ==>
                  && b[1..9] != EMPTY_STREAM
                  && Serialize(p) == [0x05] + TOKEN_STREAM + Encode(DecodeLossy(b[9..])))
  {
    var p := Deserialize(b).value;
    RoundTrip(p);
    var sid: StreamId := b[1..9];
    assert b[..9] == [b[0]] + sid;
    assert b == b[..9] + b[9..];
  }

  /** A packet that carries a token. */
  predicate Tokened(p: Packet) {
    p.Ping? && p.token.Some?
  }

  /** The message is a ping with a stream id other than the empty one, and then bytes that read as `token`. */
  ghost predicate ReadsAsToken(b: seq<Byte>, token: string) {
    exists id: StreamId, text: seq<Byte> ::
      b == [0x05] + id + text && id != EMPTY_STREAM && DecodeLossy(text) == token
  }

  lemma TokenDecodesIff(b: seq<Byte>, token: string)
    ensures Deserialize(b) == Ok(Ping(Some(token))) <==> ReadsAsToken(b, token)
  {
    if Deserialize(b) == Ok(Ping(Some(token))) {
      var id: StreamId := b[1..9];
      assert b == [0x05] + id + b[9..];
    }
    if id: StreamId, text: seq<Byte> :|
      b == [0x05] + id + text && id != EMPTY_STREAM && DecodeLossy(text) == token
    {
      assert b[1..9] == id && b[9..] == text;
    }
  }

  /** Exactly which messages decode to a packet: for data, its wire form alone; for the packets without
      a body, whatever begins with it; for a token, whatever reads as it. */
  lemma DecodesToIff(b: seq<Byte>, p: Packet)
    ensures p.Data? ==> (Deserialize(b) == Ok(p) <==> b == Serialize(p))
    ensures !p.Data? && !Tokened(p) ==> (Deserialize(b) == Ok(p) <==> Serialize(p) <= b)
    ensures Tokened(p) ==> (Deserialize(b) == Ok(p) <==> ReadsAsToken(b, p.token.value))
  {
    if Tokened(p) {
      TokenDecodesIff(b, p.token.value);
    } else {
      if Deserialize(b) == Ok(p) {
        NormalForm(b);
      }
      if Serialize(p) <= b {
        RoundTrip(p);
        assert b[1..9] == Serialize(p)[1..9];
      }
    }
  }
}
