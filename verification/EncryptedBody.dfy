/** Sealed JSON bodies (api/src/types.rs:69-149). The cipher and the JSON and UTF-8 codecs are foreign code: they are
    passed in as functions, and the laws they are expected to obey are stated in Trusted. */
module EncryptedBody {
  import opened Wrappers
  import opened Encoding

  const NONCE_LEN := 12
  const TAG_LEN := 16

  datatype Body = Body(nonce: string, bodyEnc: string)

  datatype Error =
    | UnableToEncode
    | EncryptionFailed
    | InvalidBase64
    | InvalidNonce
    | InvalidNonceLength
    | DecryptionFailed
    | InvalidUtf8
    | InvalidJson

  /** `seal` appends the tag to the sealed bytes; `openInPlace` gives what the buffer holds after a successful opening:
      the message, with the tag bytes still behind it. */
  datatype Foreign<!Key, !Json> = Foreign(
    toText: Json -> Option<string>,
    fromText: string -> Option<Json>,
    encode: string -> Bytes,
    decode: Bytes -> Option<string>,
    seal: (Key, Bytes, Bytes) -> Option<Bytes>,
    openInPlace: (Key, Bytes, Bytes) -> Option<Bytes>)

  ghost predicate ReadingUndoesWriting<Key, Json(!new)>(f: Foreign<Key, Json>) {
    forall j: Json :: f.toText(j).Some? ==> f.fromText(f.toText(j).value) == Some(j)
  }

  ghost predicate DecodeUndoesEncode<Key, Json>(f: Foreign<Key, Json>) {
    forall t: string :: f.decode(f.encode(t)) == Some(t)
  }

  ghost predicate OpenUndoesSeal<Key(!new), Json>(f: Foreign<Key, Json>) {
    forall k: Key, n: Bytes, m: Bytes :: f.seal(k, n, m).Some? ==>
      var buffer := f.openInPlace(k, n, f.seal(k, n, m).value);
      buffer.Some? && |buffer.value| == |m| + 16 && buffer.value[..|m|] == m
  }

  ghost predicate Trusted<Key(!new), Json(!new)>(f: Foreign<Key, Json>) {
    ReadingUndoesWriting(f) && DecodeUndoesEncode(f) && OpenUndoesSeal(f)
  }

  // ---------- Sealing ----------

  function Sealed<Key, Json>(f: Foreign<Key, Json>, key: Key, nonce: Bytes, json: Json): Result<Body, Error> {
    match f.toText(json)
    case None => Err(UnableToEncode)
    case Some(text) =>
      match f.seal(key, nonce, f.encode(text))
      case None => Err(EncryptionFailed)
      case Some(bytes) => Ok(Body(ToHex(nonce), ToBase64(bytes)))
  }

  /** The random nonce is a parameter. */
  method FromJson<Key, Json>(f: Foreign<Key, Json>, key: Key, nonce: Bytes, json: Json) returns (r: Result<Body, Error>)
    requires |nonce| == NONCE_LEN
    ensures r == Sealed(f, key, nonce, json)
  {
    var text := f.toText(json);
    if text.None? {
      return Err(UnableToEncode);
    }
    var toEncrypt := f.encode(text.value);
    var res := f.seal(key, nonce, toEncrypt);
    if res.None? {
      return Err(EncryptionFailed);
    }
    toEncrypt := res.value;
    return Ok(Body(ToHex(nonce), ToBase64(toEncrypt)));
  }

  // ---------- Opening ----------

  /** What is left when the last TAG_LEN bytes are popped one by one. */
  function WithoutTag(buffer: Bytes): Bytes {
    if |buffer| < TAG_LEN then [] else buffer[..|buffer| - TAG_LEN]
  }

  function Read<Key, Json>(f: Foreign<Key, Json>, message: Bytes): Result<Json, Error> {
    match f.decode(message)
    case None => Err(InvalidUtf8)
    case Some(text) =>
      match f.fromText(text)
      case None => Err(InvalidJson)
      case Some(json) => Ok(json)
  }

  function Opened<Key, Json>(f: Foreign<Key, Json>, key: Key, body: Body): Result<Json, Error> {
    match FromBase64(body.bodyEnc)
    case None => Err(InvalidBase64)
    case Some(bytes) =>
      match FromHex(body.nonce)
      case None => Err(InvalidNonce)
      case Some(nonce) =>
        if |nonce| < NONCE_LEN then Err(InvalidNonceLength)
        else
          match f.openInPlace(key, nonce[..NONCE_LEN], bytes)
          case None => Err(DecryptionFailed)
          case Some(buffer) => Read(f, WithoutTag(buffer))
  }

  method Decrypt<Key, Json>(f: Foreign<Key, Json>, key: Key, body: Body) returns (r: Result<Json, Error>)
    ensures r == Opened(f, key, body)
  {
    var bytes := FromBase64(body.bodyEnc);
    if bytes.None? {
      return Err(InvalidBase64);
    }
    var toDecrypt := bytes.value;
    var nonce := FromHex(body.nonce);
    if nonce.None? {
      return Err(InvalidNonce);
    }
    if |nonce.value| < NONCE_LEN {
      return Err(InvalidNonceLength);
    }
    var n := nonce.value[0..NONCE_LEN];
    var res := f.openInPlace(key, n, toDecrypt);
    if res.None? {
      return Err(DecryptionFailed);
    }
    toDecrypt := res.value;
    for popped := 0 to TAG_LEN
      invariant toDecrypt == if |res.value| < popped then [] else res.value[..|res.value| - popped]
    {
      if |toDecrypt| > 0 {
        toDecrypt := toDecrypt[..|toDecrypt| - 1];
      }
    }
    assert toDecrypt == WithoutTag(res.value);
    var text := f.decode(toDecrypt);
    if text.None? {
      return Err(InvalidUtf8);
    }
    var json := f.fromText(text.value);
    if json.None? {
      return Err(InvalidJson);
    }
    return Ok(json.value);
  }

  // ---------- Properties ----------

  /** What was sealed under a key is read back under it, whatever the JSON value and the nonce; and the body tells which
      nonce it was sealed with. */
  lemma OpenedUndoesSealed<Key(!new), Json(!new)>(f: Foreign<Key, Json>, key: Key, nonce: Bytes, json: Json)
    requires Trusted(f) && |nonce| == 12
    requires Sealed(f, key, nonce, json).Ok?
    ensures Opened(f, key, Sealed(f, key, nonce, json).value) == Ok(json)
    ensures FromHex(Sealed(f, key, nonce, json).value.nonce) == Some(nonce)
  {
    var text := f.toText(json).value;
    var message := f.encode(text);
    var bytes := f.seal(key, nonce, message).value;
    FromBase64OfToBase64(bytes);
    FromHexOfToHex(nonce);
    assert nonce[..NONCE_LEN] == nonce;
    var buffer := f.openInPlace(key, nonce, bytes).value;
    assert WithoutTag(buffer) == message;
    assert f.decode(message) == Some(text);
  }

  /** Only the first 12 nonce bytes matter: hex digits behind them change nothing. */
  lemma LongNonceIsCut<Key, Json>(f: Foreign<Key, Json>, key: Key, body: Body, more: string)
    requires FromHex(body.nonce).Some? && FromHex(more).Some?
    requires |FromHex(body.nonce).value| >= 12
    ensures Opened(f, key, body.(nonce := body.nonce + more)) == Opened(f, key, body)
  {
    FromHexAppend(body.nonce, more);
    var nonce, extra := FromHex(body.nonce).value, FromHex(more).value;
    assert (nonce + extra)[..NONCE_LEN] == nonce[..NONCE_LEN];
  }

  /** Which step an unreadable body fails in. Only the first 12 bytes of the nonce reach the cipher, and the last 16 of what
      the cipher leaves are not part of the message. */
  lemma OpenedFailsAt<Key, Json>(f: Foreign<Key, Json>, key: Key, body: Body)
    ensures var (bytes, nonce, r) := (FromBase64(body.bodyEnc), FromHex(body.nonce), Opened(f, key, body));
            && (r == Err(InvalidBase64) <==> bytes.None?)
            && (r == Err(InvalidNonce) <==> bytes.Some? && nonce.None?)
            && (r == Err(InvalidNonceLength) <==> bytes.Some? && nonce.Some? && |nonce.value| < 12)
            && (bytes.Some? && nonce.Some? && |nonce.value| >= 12 ==>
                  var buffer := f.openInPlace(key, nonce.value[..12], bytes.value);
                  && (r == Err(DecryptionFailed) <==> buffer.None?)
                  && (buffer.Some? && |buffer.value| >= 16 ==>
                        var text := f.decode(buffer.value[..|buffer.value| - 16]);
                        && (r == Err(InvalidUtf8) <==> text.None?)
                        && (r == Err(InvalidJson) <==> text.Some? && f.fromText(text.value).None?)))
    ensures Opened(f, key, body) != Err(UnableToEncode) && Opened(f, key, body) != Err(EncryptionFailed)
  {
  }

  lemma SealedFailsAt<Key, Json>(f: Foreign<Key, Json>, key: Key, nonce: Bytes, json: Json)
    ensures var text := f.toText(json);
            && (Sealed(f, key, nonce, json) == Err(UnableToEncode) <==> text.None?)
            && (Sealed(f, key, nonce, json) == Err(EncryptionFailed) <==> text.Some? && f.seal(key, nonce, f.encode(text.value)).None?)
            && (Sealed(f, key, nonce, json).Err? ==> text.None? || f.seal(key, nonce, f.encode(text.value)).None?)
  {
  }

  /** Two bodies that are read under one key and hand the cipher the same bytes are spelled the same, up to the letter
      case of the nonce and whatever follows its 12 bytes. */
  lemma SpellingIsUnique<Key, Json>(f: Foreign<Key, Json>, key: Key, one: Body, other: Body)
    requires Opened(f, key, one).Ok? && Opened(f, key, other).Ok?
    requires FromBase64(one.bodyEnc) == FromBase64(other.bodyEnc)
    requires FromHex(one.nonce) == FromHex(other.nonce)
    ensures one.bodyEnc == other.bodyEnc && LowerHex(one.nonce) == LowerHex(other.nonce)
  {
    ToBase64OfFromBase64(one.bodyEnc);
    ToBase64OfFromBase64(other.bodyEnc);
    ToHexOfFromHex(one.nonce);
    ToHexOfFromHex(other.nonce);
  }

  // ---------- Requests and responses ----------

  datatype RpcId = NullId | TextId(text: string) | NumberId(number: nat)

  datatype Request = Request(jsonrpc: string, rpcMethod: string, id: RpcId, params: Body)

  datatype Response = Response(jsonrpc: string, id: RpcId, result: map<string, Body>)

  method RequestFromJson<Key(!new), Json(!new)>(f: Foreign<Key, Json>, id: RpcId, json: Json, nonce: Bytes, key: Key)
      returns (r: Result<Request, Error>)
    requires |nonce| == NONCE_LEN
    ensures r.Ok? <==> Sealed(f, key, nonce, json).Ok?
    ensures r.Ok? ==> r.value.id == id && r.value.rpcMethod == "encrypted_request_v3"
    ensures r.Ok? && Trusted(f) ==> Opened(f, key, r.value.params) == Ok(json)
  {
    var body := FromJson(f, key, nonce, json);
    match body
    case Err(e) =>
      return Err(e);
    case Ok(b) =>
      if Trusted(f) {
        OpenedUndoesSealed(f, key, nonce, json);
      }
      return Ok(Request("2.0", "encrypted_request_v3", id, b));
  }

  method ResponseFromJson<Key(!new), Json(!new)>(f: Foreign<Key, Json>, id: RpcId, json: Json, nonce: Bytes, key: Key)
      returns (r: Result<Response, Error>)
    requires |nonce| == NONCE_LEN
    ensures r.Ok? <==> Sealed(f, key, nonce, json).Ok?
    ensures r.Ok? ==> r.value.id == id && r.value.result.Keys == {"Ok"}
    ensures r.Ok? && Trusted(f) ==> Opened(f, key, r.value.result["Ok"]) == Ok(json)
  {
    var resultSet: map<string, Body> := map[];
    var body := FromJson(f, key, nonce, json);
    match body
    case Err(e) =>
      return Err(e);
    case Ok(b) =>
      if Trusted(f) {
        OpenedUndoesSealed(f, key, nonce, json);
      }
      resultSet := resultSet["Ok" := b];
      return Ok(Response("2.0", id, resultSet));
  }
}
