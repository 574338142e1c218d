/** One Owner V3 call from request to reply, call after call (controller/src/controller.rs:375-682,
    api/src/owner_rpc_s.rs:2422-2444): key agreement, re-keying, sealed requests and replies, error replies.

    SecureSession has the interleavings; this module has the contents. The curve, the cipher, the API methods other
    than `init_secure_api` and all randomness come from outside. */
module SecureCalls {
  import opened Wrappers
  import opened Encoding
  import opened EncryptedBody
  import opened JsonRpc

  type Key = nat
  type Secret = nat
  type Point = nat
  type Nonce = n: Bytes | |n| == NONCE_LEN witness seq(NONCE_LEN, _ => 0)

  datatype World = World(
    cipher: Foreign<Key, Json>,
    publicKey: Secret -> Option<Point>,
    mul: (Point, Secret) -> Option<Point>,
    toKey: Point -> Option<Key>,       // the x coordinate, if it is a secret key
    showPoint: Point -> string,
    readPoint: string -> Option<Point>,
    readKey: string -> Option<Key>,    // a keychain mask in hex
    show: Json -> string,
    runningForeign: bool)

  /** What is not up to the code in one call: the server's secret, the nonce of the reply, how a failed init is
      reported, and what the other API methods answer (None to a notification). */
  datatype Chance = Chance(secret: Secret, nonce: Nonce, failure: Json, other: Option<Json>)

  ghost predicate ExchangeCommutes(w: World) {
    forall a: Secret, b: Secret :: w.publicKey(a).Some? && w.publicKey(b).Some? ==>
      w.mul(w.publicKey(a).value, b) == w.mul(w.publicKey(b).value, a)
  }

  ghost predicate PointsSurvive(w: World) {
    forall p: Point :: w.readPoint(w.showPoint(p)) == Some(p)
  }

  ghost predicate Lawful(w: World) {
    Trusted(w.cipher) && ExchangeCommutes(w) && PointsSurvive(w)
  }

  /** The handler's key, the Owner's key and the keychain mask. */
  datatype Cells = Cells(handlerKey: Option<Key>, ownerKey: Option<Key>, mask: Option<Key>)

  const FRESH := Cells(None, None, None)

  predicate IsInit(value: Json) {
    MethodOf(value) == Some("init_secure_api")
  }

  predicate IsOpenWallet(value: Json) {
    MethodOf(value) == Some("open_wallet")
  }

  predicate IsNotification(value: Json) {
    !(value.Obj? && "id" in value.fields)
  }

  function OkText(reply: Json): Option<string> {
    AsStr(Field(Field(reply, "result"), "Ok"))
  }

  function ErrPart(reply: Json): Json {
    Field(Field(reply, "result"), "Err")
  }

  function Reply(id: Json, outcome: string, value: Json): Json {
    Obj(map["id" := id, "jsonrpc" := Str("2.0"), "result" := Obj(map[outcome := value])])
  }

  // ---------- init_secure_api ----------

  function ReadPeer(w: World, request: Json): Option<Point> {
    match AsStr(Field(Field(request, "params"), "ecdh_pubkey"))
    case Some(text) => w.readPoint(text)
    case None => None
  }

  /** The key both sides compute, from the other side's point and one's own secret. */
  function SharedKey(w: World, peer: Point, secret: Secret): Option<Key> {
    match w.mul(peer, secret)
    case Some(p) => w.toKey(p)
    case None => None
  }

  /** The reply of the API to `request`, and the key it writes to the Owner's cell: written before the server's own
      point is computed, so even a failed init may have written one. */
  function Handled(w: World, request: Json, chance: Chance): (r: (Option<Json>, Option<Key>)) {
    if !IsInit(request) then (chance.other, None)
    else
      var id := Field(request, "id");
      match ReadPeer(w, request)
      case None =>
        (if IsNotification(request) then None else Some(ErrorReply(id, -32602, "Invalid params")), None)
      case Some(peer) =>
        var key, point := SharedKey(w, peer, chance.secret), w.publicKey(chance.secret);
        var reply := if key.Some? && point.Some? then Reply(id, "Ok", Str(w.showPoint(point.value)))
                     else Reply(id, "Err", chance.failure);
        (if IsNotification(request) then None else Some(reply), key)
  }

  // ---------- check_error_response ----------

  predicate IsError(reply: Json) {
    ErrPart(reply).Obj? || ErrPart(reply).Str?
  }

  function Intercepted(reply: Json, message: string): Json {
    if IsError(reply) then ErrorReply(Field(reply, "id"), -32099, message) else reply
  }

  predicate AllText(fields: map<string, Json>) {
    forall k :: k in fields ==> fields[k].Str?
  }

  /** The message is the error text, or one entry of the error object. */
  ghost predicate IsMessage(w: World, err: Json, message: string) {
    match err
    case Str(text) => message == text
    case Obj(fields) =>
      if fields == map[] then message == ""
      else exists k :: k in fields && message == k + ": " + if AllText(fields) then fields[k].text else w.show(fields[k])
    case _ => true
  }

  /** The loop over the error object: each entry overwrites the one before. */
  method LastEntry(w: World, fields: map<string, Json>) returns (r: string)
    ensures IsMessage(w, Obj(fields), r)
  {
    r := "";
    var plain, left := AllText(fields), fields.Keys;
    while left != {}
      invariant left <= fields.Keys
      invariant left == fields.Keys ==> r == ""
      invariant left != fields.Keys ==>
        exists k :: k in fields && r == k + ": " + if plain then fields[k].text else w.show(fields[k])
    {
      var k :| k in left;
      r := k + ": " + if plain then fields[k].text else w.show(fields[k]);
      left := left - {k};
    }
    assert fields == map[] <==> fields.Keys == {};
  }

  method CheckErrorResponse(w: World, reply: Json) returns (wasError: bool, r: Json, message: string)
    ensures r == Intercepted(reply, message)
    ensures wasError <==> Field(Field(reply, "result"), "Err").Obj? || Field(Field(reply, "result"), "Err").Str?
    ensures if wasError then CodeOf(r) == Some(-32099) && MessageOf(r) == Some(message) && Field(r, "id") == Field(reply, "id")
            else r == reply
    ensures wasError ==> IsMessage(w, Field(Field(reply, "result"), "Err"), message)
  {
    var err := ErrPart(reply);
    message := "";
    match err {
      case Obj(fields) =>
        message := LastEntry(w, fields);
      case Str(text) =>
        message := text;
      case _ =>
        return false, reply, message;
    }
    ErrorReplyHasCode(Field(reply, "id"), -32099, message);
    return true, ErrorReply(Field(reply, "id"), -32099, message), message;
  }

  // ---------- One call ----------

  function Decrypted(w: World, key: Key, request: Json): Option<(RpcId, Json)> {
    match ReadRequest(request)
    case None => None
    case Some(q) =>
      match Opened(w.cipher, key, q.params)
      case Ok(inner) => Some((q.id, inner))
      case Err(_) => None
  }

  function SealedReply(w: World, key: Key, id: RpcId, reply: Json, nonce: Nonce): Option<Json> {
    match Sealed(w.cipher, key, nonce, reply)
    case Ok(body) => Some(WriteResponse(Response("2.0", id, map["Ok" := body])))
    case Err(_) => None
  }

  function WithMask(w: World, c: Cells, reply: Json): Cells {
    match OkText(reply)
    case None => c
    case Some(text) => if w.readKey(text).Some? then c.(mask := w.readKey(text)) else c
  }

  /** `init_secure_api` with a success reply copies the Owner's key to the handler. */
  function Rekeyed(c: Cells, request: Json, reply: Json): Cells {
    if IsInit(request) && OkText(reply).Some? then c.(handlerKey := c.ownerKey) else c
  }

  /** `via` is the id and the key of the sealed request that brought `request`, None for a plaintext init. */
  function Answered(w: World, c: Cells, request: Json, via: Option<(RpcId, Key)>, chance: Chance, message: string): (Cells, Json) {
    var (reply, write) := Handled(w, request, chance);
    var written := if write.Some? then c.(ownerKey := write) else c;
    match reply
    case None => (written, Arr([]))
    case Some(raw) =>
      var intercept := Intercepted(raw, message);
      var masked := if IsOpenWallet(request) && w.runningForeign then WithMask(w, written, raw) else written;
      match via
      case None => (Rekeyed(masked, request, intercept), raw)
      case Some((id, key)) =>
        match SealedReply(w, key, id, intercept, chance.nonce)
        case None => (masked, ErrorReply(Number(1), -32003, "EncryptionError"))
        case Some(out) => (Rekeyed(masked, request, intercept), out)
  }

  /** The cells and the reply after one request. */
  function Served(w: World, c: Cells, request: Json, chance: Chance, message: string): (Cells, Json) {
    if IsInit(request) then Answered(w, c, request, None, chance, message)
    else
      match c.handlerKey
      case None => (c, ErrorReply(Number(1), -32001, "Encryption must be enabled"))
      case Some(key) =>
        match Decrypted(w, key, request)
        case None => (c, ErrorReply(Number(1), -32002, "Decryption error"))
        case Some((id, inner)) => Answered(w, c, inner, Some((id, key)), chance, message)
  }

  /** The request that reaches the API: itself if it is an init, else what is sealed in it. */
  function Effective(w: World, c: Cells, request: Json): Option<Json> {
    if IsInit(request) then Some(request)
    else if c.handlerKey.None? || Decrypted(w, c.handlerKey.value, request).None? then None
    else Some(Decrypted(w, c.handlerKey.value, request).value.1)
  }

  /** The API's own reply, before it is intercepted and sealed. */
  function RawReply(w: World, c: Cells, request: Json, chance: Chance): Option<Json> {
    match Effective(w, c, request)
    case None => None
    case Some(val) => Handled(w, val, chance).0
  }

  class Session {
    var sharedKey: Option<Key>
    var ownerKey: Option<Key>
    var mask: Option<Key>

    constructor ()
      ensures Current() == FRESH
    {
      sharedKey, ownerKey, mask := None, None, None;
    }

    ghost function Current(): Cells
      reads this
    {
      Cells(sharedKey, ownerKey, mask)
    }

    /** The peer's point times a fresh secret gives the key; the reply is the fresh secret's own point. */
    method InitSecureApi(w: World, peer: Point, secret: Secret) returns (r: Option<Point>)
      modifies this`ownerKey
      ensures var product := w.mul(peer, secret);
              if product.Some? && w.toKey(product.value).Some? then ownerKey == w.toKey(product.value) && r == w.publicKey(secret)
              else ownerKey == old(ownerKey) && r == None
    {
      var sharedPubkey := w.mul(peer, secret);
      if sharedPubkey.None? {
        return None;
      }
      var key := w.toKey(sharedPubkey.value);
      if key.None? {
        return None;
      }
      ownerKey := key;
      r := w.publicKey(secret);
    }

    method HandleRequest(w: World, request: Json, chance: Chance) returns (r: Option<Json>)
      modifies this`ownerKey
      ensures r == Handled(w, request, chance).0
      ensures MethodOf(request) != Some("init_secure_api") ==> r == chance.other && ownerKey == old(ownerKey)
      ensures var write := Handled(w, request, chance).1; ownerKey == if write.Some? then write else old(ownerKey)
    {
      if !IsInit(request) {
        return chance.other;
      }
      var id, peer := Field(request, "id"), ReadPeer(w, request);
      if peer.None? {
        r := Some(ErrorReply(id, -32602, "Invalid params"));
      } else {
        var point := InitSecureApi(w, peer.value, chance.secret);
        r := Some(if point.Some? then Reply(id, "Ok", Str(w.showPoint(point.value))) else Reply(id, "Err", chance.failure));
      }
      if IsNotification(request) {
        r := None;
      }
    }

    method UpdateMask(w: World, reply: Json)
      modifies this`mask
      ensures Current() == WithMask(w, old(Current()), reply)
      ensures mask == if OkText(reply).Some? && w.readKey(OkText(reply).value).Some? then w.readKey(OkText(reply).value) else old(mask)
    {
      var text := OkText(reply);
      if text.None? {
        return;
      }
      var key := w.readKey(text.value);
      if key.None? {
        return;
      }
      mask := key;
    }

    method UpdateOwnerApiSharedKey(reply: Json, newKey: Option<Key>)
      modifies this`sharedKey
      ensures sharedKey == if OkText(reply).Some? then newKey else old(sharedKey)
    {
      if OkText(reply).Some? {
        sharedKey := newKey;
      }
    }

    method DecryptRequest(w: World, request: Json) returns (r: Option<(RpcId, Json)>)
      requires sharedKey.Some?
      ensures r == Decrypted(w, sharedKey.value, request)
    {
      var q := ReadRequest(request);
      if q.None? {
        return None;
      }
      var inner := Decrypt(w.cipher, sharedKey.value, q.value.params);
      if inner.Err? {
        return None;
      }
      return Some((q.value.id, inner.value));
    }

    method EncryptResponse(w: World, id: RpcId, reply: Json, nonce: Nonce) returns (r: Option<Json>)
      requires sharedKey.Some?
      ensures r == SealedReply(w, sharedKey.value, id, reply, nonce)
    {
      var body := FromJson(w.cipher, sharedKey.value, nonce, reply);
      if body.Err? {
        return None;
      }
      return Some(WriteResponse(Response("2.0", id, map["Ok" := body.value])));
    }

    method CallApi(w: World, request: Json, chance: Chance) returns (r: Json, message: string)
      modifies this
      ensures (Current(), r) == Served(w, old(Current()), request, chance, message)
      ensures var raw := RawReply(w, old(Current()), request, chance);
              raw.Some? && IsError(raw.value) ==> IsMessage(w, ErrPart(raw.value), message)
    {
      var val, wasEncrypted, encryptedReqId := request, false, TextId("");
      message := "";
      var isInitSecureApi := IsInit(val);
      if !isInitSecureApi {
        if sharedKey.None? {
          return ErrorReply(Number(1), -32001, "Encryption must be enabled"), message;
        }
        var res := DecryptRequest(w, val);
        match res {
          case None =>
            return ErrorReply(Number(1), -32002, "Decryption error"), message;
          case Some((id, inner)) =>
            encryptedReqId, val := id, inner;
        }
        wasEncrypted := true;
      }
      isInitSecureApi := IsInit(val);
      var isOpenWallet := IsOpenWallet(val);
      var reply := HandleRequest(w, val, chance);
      if reply.None? {
        return Arr([]), message;
      }
      r := reply.value;
      var wasError, unencryptedIntercept;
      wasError, unencryptedIntercept, message := CheckErrorResponse(w, r);
      if isOpenWallet && w.runningForeign {
        UpdateMask(w, r);
      }
      if wasEncrypted {
        var res := EncryptResponse(w, encryptedReqId, unencryptedIntercept, chance.nonce);
        if res.None? {
          return ErrorReply(Number(1), -32003, "EncryptionError"), message;
        }
        r := res.value;
      }
      if isInitSecureApi {
        UpdateOwnerApiSharedKey(unencryptedIntercept, ownerKey);
      }
    }
  }

  // ---------- Every call ----------

  /** The JSON value has no text, or the cipher fails on it. */
  predicate CannotSeal(w: World, key: Key, nonce: Nonce, json: Json) {
    var text := w.cipher.toText(json);
    text.None? || w.cipher.seal(key, nonce, w.cipher.encode(text.value)).None?
  }

  /** A reply to a sealed request that was opened carries the request's id and opens, under the key that opened the
      request, to the API's reply with errors converted: also when the call has replaced that key meanwhile. The other
      two outcomes are a notification and a failure to seal. The reply of the other methods is theirs. */
  lemma ReplyOpensUnderRequestKey(w: World, c: Cells, request: Json, chance: Chance, message: string)
    requires Trusted(w.cipher)
    requires !IsInit(request) && c.handlerKey.Some? && Decrypted(w, c.handlerKey.value, request).Some?
    ensures var (id, inner) := Decrypted(w, c.handlerKey.value, request).value;
            var (raw, reply) := (Handled(w, inner, chance).0, Served(w, c, request, chance, message).1);
            if raw.None? then reply == Arr([])
            else if CannotSeal(w, c.handlerKey.value, chance.nonce, Intercepted(raw.value, message)) then
              CodeOf(reply) == Some(-32003) && SealedPart(reply) == None
            else
              && Field(reply, "id") == WriteId(id) && SealedPart(reply).Some?
              && Opened(w.cipher, c.handlerKey.value, SealedPart(reply).value) == Ok(Intercepted(raw.value, message))
              && FromHex(SealedPart(reply).value.nonce) == Some(chance.nonce)
    ensures var inner := Decrypted(w, c.handlerKey.value, request).value.1;
            MethodOf(inner) != Some("init_secure_api") ==> Handled(w, inner, chance).0 == chance.other
  {
    var key := c.handlerKey.value;
    var (id, inner) := Decrypted(w, key, request).value;
    var raw := Handled(w, inner, chance).0;
    ErrorReplyHasCode(Number(1), -32003, "EncryptionError");
    if raw.Some? {
      var intercept := Intercepted(raw.value, message);
      var body := Sealed(w.cipher, key, chance.nonce, intercept);
      SealedFailsAt(w.cipher, key, chance.nonce, intercept);
      if body.Ok? {
        OpenedUndoesSealed(w.cipher, key, chance.nonce, intercept);
        ResponseSurvives(Response("2.0", id, map["Ok" := body.value]));
      }
    }
  }

  /** Without a session, everything but an init is refused with -32001; with one, whatever the handler's key does not
      open is refused with -32002; and a refused request changes nothing. */
  lemma RefusedChangesNothing(w: World, c: Cells, request: Json, chance: Chance, message: string)
    requires Effective(w, c, request).None?
    ensures Served(w, c, request, chance, message).0 == c
    ensures CodeOf(Served(w, c, request, chance, message).1) == Some(if c.handlerKey.None? then -32001 else -32002)
    ensures SealedPart(Served(w, c, request, chance, message).1) == None
    ensures Field(Served(w, c, request, chance, message).1, "id") == Number(1)
  {
    ErrorReplyHasCode(Number(1), -32001, "Encryption must be enabled");
    ErrorReplyHasCode(Number(1), -32002, "Decryption error");
  }

  /** An intercepted reply is a success only if the reply was. */
  lemma InterceptKeepsOk(reply: Json, message: string)
    ensures OkText(Intercepted(reply, message)).Some? ==> Intercepted(reply, message) == reply
  {
    ErrorReplyHasCode(Field(reply, "id"), -32099, message);
  }

  lemma AnsweredChangesOnlyBy(w: World, c: Cells, val: Json, via: Option<(RpcId, Key)>, chance: Chance, message: string)
    ensures var (c', raw) := (Answered(w, c, val, via, chance, message).0, Handled(w, val, chance).0);
            && (c'.handlerKey != c.handlerKey ==> raw.Some? && IsInit(val) && OkText(raw.value).Some? && c'.handlerKey == c'.ownerKey)
            && (c'.ownerKey != c.ownerKey ==> IsInit(val))
            && (c'.mask != c.mask ==> raw.Some? && w.runningForeign && IsOpenWallet(val) && OkText(raw.value).Some?)
  {
    var raw := Handled(w, val, chance).0;
    if raw.Some? {
      InterceptKeepsOk(raw.value, message);
    }
  }

  /** The handler's key changes only by an init with a success reply; the Owner's key only by an init; the mask only by
      a success reply to `open_wallet` while the foreign API runs. */
  lemma CellsChangeOnlyBy(w: World, c: Cells, request: Json, chance: Chance, message: string)
    ensures var c' := Served(w, c, request, chance, message).0;
            var val, raw := Effective(w, c, request), RawReply(w, c, request, chance);
            && (c'.handlerKey != c.handlerKey ==> raw.Some? && IsInit(val.value) && OkText(raw.value).Some? && c'.handlerKey == c'.ownerKey)
            && (c'.ownerKey != c.ownerKey ==> val.Some? && IsInit(val.value))
            && (c'.mask != c.mask ==> raw.Some? && w.runningForeign && IsOpenWallet(val.value) && OkText(raw.value).Some?)
  {
    var val := Effective(w, c, request);
    if val.Some? {
      var via := if IsInit(request) then None else Some((Decrypted(w, c.handlerKey.value, request).value.0, c.handlerKey.value));
      AnsweredChangesOnlyBy(w, c, val.value, via, chance, message);
    }
  }

  /** After `open_wallet` the mask is the key in the API's reply, if the foreign API runs and there is one to read; else it
      is what it was. That holds also if the reply cannot be sealed. */
  lemma MaskIs(w: World, c: Cells, request: Json, chance: Chance, message: string)
    ensures var (c', val, raw) := (Served(w, c, request, chance, message).0, Effective(w, c, request), RawReply(w, c, request, chance));
            c'.mask == if val.Some? && MethodOf(val.value) == Some("open_wallet") && w.runningForeign
                          && raw.Some? && OkText(raw.value).Some? && w.readKey(OkText(raw.value).value).Some?
                       then w.readKey(OkText(raw.value).value) else c.mask
  {
  }

  // ---------- Runs of any number of clients ----------

  /** A client's init request; without an id it is a notification. */
  function InitRequest(w: World, point: Point, id: Option<RpcId>): Json {
    var params := Obj(map["ecdh_pubkey" := Str(w.showPoint(point))]);
    var call := map["jsonrpc" := Str("2.0"), "method" := Str("init_secure_api"), "params" := params];
    Obj(if id.Some? then call["id" := WriteId(id.value)] else call)
  }

  function SealedRequest(w: World, key: Key, id: RpcId, json: Json, nonce: Nonce): Option<Json> {
    match Sealed(w.cipher, key, nonce, json)
    case Ok(body) => Some(WriteRequest(Request("2.0", "encrypted_request_v3", id, body)))
    case Err(_) => None
  }

  /** The key a client derives from the reply to its init. */
  function Learned(w: World, secret: Secret, reply: Json): Option<Key> {
    match OkText(reply)
    case None => None
    case Some(text) =>
      match w.readPoint(text)
      case None => None
      case Some(point) => SharedKey(w, point, secret)
  }

  /** What a client reads in the reply to a sealed request. */
  function OpenedReply(w: World, key: Key, reply: Json): Json {
    match SealedPart(reply)
    case None => Null
    case Some(body) =>
      match Opened(w.cipher, key, body)
      case Ok(json) => json
      case Err(_) => Null
  }

  type Client = nat

  /** What happens next: a client starts a session, in plaintext or sealed under its key, or makes a call, or anybody
      sends any request that is no init. */
  datatype Event =
    | PlainInit(client: Client, secret: Secret, id: Option<RpcId>)
    | SealedInit(client: Client, secret: Secret, id: Option<RpcId>, outerId: RpcId, nonce: Nonce)
    | Call(client: Client, json: Json, outerId: RpcId, nonce: Nonce)
    | Stray(request: Json)

  /** `owner` is the client whose init succeeded last. */
  datatype Scene = Scene(cells: Cells, keys: map<Client, Key>, owner: Option<Client>) {
    function KeyOf(client: Client): Option<Key> {
      if client in keys then Some(keys[client]) else None
    }
  }

  const OPENING := Scene(FRESH, map[], None)

  /** The request that an event sends; None if there is nothing to send. */
  function Sent(w: World, s: Scene, e: Event): Option<Json> {
    match e
    case PlainInit(_, secret, id) =>
      if w.publicKey(secret).None? then None else Some(InitRequest(w, w.publicKey(secret).value, id))
    case SealedInit(client, secret, id, outerId, nonce) =>
      if w.publicKey(secret).None? || client !in s.keys then None
      else SealedRequest(w, s.keys[client], outerId, InitRequest(w, w.publicKey(secret).value, id), nonce)
    case Call(client, json, outerId, nonce) =>
      if client !in s.keys then None else SealedRequest(w, s.keys[client], outerId, json, nonce)
    case Stray(request) => Some(request)
  }

  function Kept(before: Option<Key>, learned: Option<Key>): Option<Key> {
    if learned.Some? then learned else before
  }

  /** A client that learns a key takes it, and owns the session. */
  function Told(s: Scene, cells: Cells, client: Client, learned: Option<Key>): Scene {
    if learned.Some? then Scene(cells, s.keys[client := learned.value], Some(client)) else Scene(cells, s.keys, s.owner)
  }

  function After(w: World, s: Scene, e: Event, chance: Chance, message: string): Scene {
    match Sent(w, s, e)
    case None => s
    case Some(request) =>
      var (cells, reply) := Served(w, s.cells, request, chance, message);
      match e
      case PlainInit(client, secret, _) => Told(s, cells, client, Learned(w, secret, reply))
      case SealedInit(client, secret, _, _, _) => Told(s, cells, client, Learned(w, secret, OpenedReply(w, s.keys[client], reply)))
      case _ => Scene(cells, s.keys, s.owner)
  }

  predicate BringsNoInit(w: World, c: Cells, request: Json) {
    Effective(w, c, request).Some? ==> !IsInit(Effective(w, c, request).value)
  }

  /** Calls and strays are no inits, seen from the handler, and identifiers fit their type. What was sealed under another
      key than the handler's is not opened, or is no init either: all that is asked of the cipher's authenticity. */
  predicate Allowed(w: World, s: Scene, e: Event) {
    match e
    case PlainInit(_, _, _) => true
    case SealedInit(client, _, _, outerId, _) =>
      ProperId(outerId) &&
      (Sent(w, s, e).Some? && s.KeyOf(client) != s.cells.handlerKey ==> Effective(w, s.cells, Sent(w, s, e).value).None?)
    case Call(client, json, outerId, _) =>
      ProperId(outerId) && !IsInit(json) &&
      (Sent(w, s, e).Some? && s.KeyOf(client) != s.cells.handlerKey ==> BringsNoInit(w, s.cells, Sent(w, s, e).value))
    case Stray(request) => BringsNoInit(w, s.cells, request)
  }

  /** The handler's key is the key of the session's owner; there is none before anybody's init succeeded. */
  predicate Agrees(s: Scene) {
    match s.owner
    case None => s.cells.handlerKey == None
    case Some(client) => client in s.keys && s.cells.handlerKey == Some(s.keys[client])
  }

  type Turn = (Event, Chance, string)

  /** The scene after a sequence of events, None if one of them is not allowed. */
  function Played(w: World, s: Scene, turns: seq<Turn>): Option<Scene>
    decreases |turns|
  {
    if turns == [] then Some(s)
    else
      var (e, chance, message) := turns[0];
      if Allowed(w, s, e) then Played(w, After(w, s, e, chance, message), turns[1..]) else None
  }

  lemma InitRequestIsInit(w: World, point: Point, id: Option<RpcId>)
    requires PointsSurvive(w)
    ensures var q := InitRequest(w, point, id);
            IsInit(q) && ReadPeer(w, q) == Some(point) && (IsNotification(q) <==> id.None?) && !IsOpenWallet(q)
  {
    assert MethodOf(InitRequest(w, point, id)) == Some("init_secure_api");
    assert |"init_secure_api"| == 15 && |"open_wallet"| == 11;
  }

  lemma ReplyParts(id: Json, value: Json)
    ensures OkText(Reply(id, "Ok", value)) == AsStr(value) && !IsError(Reply(id, "Ok", value))
    ensures OkText(Reply(id, "Err", value)).None? && ErrPart(Reply(id, "Err", value)) == value
    ensures forall outcome :: Field(Reply(id, outcome, value), "id") == id
  {
  }

  /** The API's reply to an init tells the client exactly the key that the server wrote, or tells it nothing. */
  lemma InitReplyTellsKey(w: World, secret: Secret, id: Option<RpcId>, chance: Chance)
    requires Lawful(w) && w.publicKey(secret).Some?
    ensures var (raw, write) := Handled(w, InitRequest(w, w.publicKey(secret).value, id), chance);
            raw.Some? ==> if OkText(raw.value).Some? then !IsError(raw.value) && write.Some? && Learned(w, secret, raw.value) == write
                          else Learned(w, secret, raw.value) == None
  {
    var point := w.publicKey(secret).value;
    var q := InitRequest(w, point, id);
    InitRequestIsInit(w, point, id);
    var server := w.publicKey(chance.secret);
    ReplyParts(Field(q, "id"), chance.failure);
    if server.Some? {
      ReplyParts(Field(q, "id"), Str(w.showPoint(server.value)));
      assert w.mul(point, chance.secret) == w.mul(server.value, secret);
    }
  }

  /** After a plaintext init of anybody, in whatever state the cells are, the handler has the key that this client
      learned, or what it had if the client learned none. */
  lemma PlainInitTells(w: World, c: Cells, secret: Secret, id: Option<RpcId>, chance: Chance, message: string)
    requires Lawful(w) && w.publicKey(secret).Some?
    ensures var (c', reply) := Served(w, c, InitRequest(w, w.publicKey(secret).value, id), chance, message);
            c'.handlerKey == Kept(c.handlerKey, Learned(w, secret, reply))
  {
    var point := w.publicKey(secret).value;
    InitRequestIsInit(w, point, id);
    InitReplyTellsKey(w, secret, id, chance);
    var raw := Handled(w, InitRequest(w, point, id), chance).0;
    if raw.Some? {
      InterceptKeepsOk(raw.value, message);
    }
  }

  /** When a plaintext init succeeds, and what the reply and the cells are in every case: without an id it runs all the
      same; the Owner's key is written as soon as there is one; the reply is sent as the API made it. */
  lemma PlainInitSucceedsIff(w: World, c: Cells, secret: Secret, id: Option<RpcId>, chance: Chance, message: string)
    requires Lawful(w) && w.publicKey(secret).Some?
    ensures var point := w.publicKey(secret).value;
            var product, server := w.mul(point, chance.secret), w.publicKey(chance.secret);
            var key := if product.Some? then w.toKey(product.value) else None;
            var (c', reply) := Served(w, c, InitRequest(w, point, id), chance, message);
            && c'.ownerKey == (if key.Some? then key else c.ownerKey) && c'.mask == c.mask
            && (if id.None? then reply == Arr([]) && c'.handlerKey == c.handlerKey
                else if key.Some? && server.Some? then
                  OkText(reply) == Some(w.showPoint(server.value)) && c'.handlerKey == key && Learned(w, secret, reply) == key
                else OkText(reply) == None && ErrPart(reply) == chance.failure && c'.handlerKey == c.handlerKey)
            && (id.Some? ==> Field(reply, "id") == WriteId(id.value))
  {
    var point := w.publicKey(secret).value;
    var q := InitRequest(w, point, id);
    InitRequestIsInit(w, point, id);
    InitReplyTellsKey(w, secret, id, chance);
    InitRequestHasId(w, point, id);
    ReplyParts(Field(q, "id"), chance.failure);
    var raw, server := Handled(w, q, chance).0, w.publicKey(chance.secret);
    if server.Some? {
      ReplyParts(Field(q, "id"), Str(w.showPoint(server.value)));
    }
    if raw.Some? {
      InterceptKeepsOk(raw.value, message);
    }
  }

  lemma InitRequestHasId(w: World, point: Point, id: Option<RpcId>)
    ensures id.Some? ==> Field(InitRequest(w, point, id), "id") == WriteId(id.value)
  {
  }

  /** An init whose point cannot be read is answered with -32602 and changes nothing. */
  lemma UnreadablePointIsRefused(w: World, c: Cells, request: Json, chance: Chance, message: string)
    requires MethodOf(request) == Some("init_secure_api")
    requires var text := AsStr(Field(Field(request, "params"), "ecdh_pubkey")); text.None? || w.readPoint(text.value).None?
    ensures var (c', reply) := Served(w, c, request, chance, message);
            c' == c && if "id" in request.fields then CodeOf(reply) == Some(-32602) && Field(reply, "id") == Field(request, "id")
                       else reply == Arr([])
  {
    ErrorReplyHasCode(Field(request, "id"), -32602, "Invalid params");
  }

  /** A request that a client seals under the handler's key is the request the API gets. */
  lemma SealedArrives(w: World, key: Key, id: RpcId, json: Json, nonce: Nonce)
    requires Trusted(w.cipher) && ProperId(id) && SealedRequest(w, key, id, json, nonce).Some?
    ensures var request := SealedRequest(w, key, id, json, nonce).value;
            !IsInit(request) && Decrypted(w, key, request) == Some((id, json))
  {
    OpenedUndoesSealed(w.cipher, key, nonce, json);
    var body := Sealed(w.cipher, key, nonce, json).value;
    RequestSurvives(Request("2.0", "encrypted_request_v3", id, body));
    assert |"encrypted_request_v3"| == 20 && |"init_secure_api"| == 15;
  }

  /** A re-keying call: its reply is sealed under the old key, and only a reply that was sealed moves the handler. */
  lemma SealedInitMoves(w: World, c: Cells, request: Json, id: RpcId, inner: Json, chance: Chance, message: string)
    requires Trusted(w.cipher) && !IsInit(request) && IsInit(inner) && !IsOpenWallet(inner)
    requires c.handlerKey.Some? && Decrypted(w, c.handlerKey.value, request) == Some((id, inner))
    ensures var ((raw, write), (c', reply)) := (Handled(w, inner, chance), Served(w, c, request, chance, message));
            if raw.None? || SealedPart(reply).None? then
              c'.handlerKey == c.handlerKey && OpenedReply(w, c.handlerKey.value, reply) == Null
            else
              && OpenedReply(w, c.handlerKey.value, reply) == Intercepted(raw.value, message)
              && c'.handlerKey == if OkText(Intercepted(raw.value, message)).None? then c.handlerKey
                                  else if write.Some? then write else c.ownerKey
  {
    ReplyOpensUnderRequestKey(w, c, request, chance, message);
  }

  lemma InterceptTellsNothingNew(w: World, secret: Secret, reply: Json, message: string)
    ensures Learned(w, secret, Intercepted(reply, message)) ==
            if OkText(Intercepted(reply, message)).Some? then Learned(w, secret, reply) else None
  {
    InterceptKeepsOk(reply, message);
  }

  /** After a sealed init the handler has the key that the client learned, or both have what they had. */
  lemma SealedInitTells(w: World, c: Cells, secret: Secret, id: Option<RpcId>, outerId: RpcId, request: Json,
                        chance: Chance, message: string)
    requires Lawful(w) && w.publicKey(secret).Some? && c.handlerKey.Some? && !IsInit(request)
    requires Decrypted(w, c.handlerKey.value, request) == Some((outerId, InitRequest(w, w.publicKey(secret).value, id)))
    ensures var (c', reply) := Served(w, c, request, chance, message);
            c'.handlerKey == Kept(c.handlerKey, Learned(w, secret, OpenedReply(w, c.handlerKey.value, reply)))
  {
    var point := w.publicKey(secret).value;
    var q := InitRequest(w, point, id);
    InitRequestIsInit(w, point, id);
    InitReplyTellsKey(w, secret, id, chance);
    SealedInitMoves(w, c, request, outerId, q, chance, message);
    var raw := Handled(w, q, chance).0;
    if raw.Some? {
      InterceptKeepsOk(raw.value, message);
      InterceptTellsNothingNew(w, secret, raw.value, message);
    }
  }

  /** When a sealed init moves the handler: it has an id, both sides' values can be computed, and the reply can be
      sealed. */
  lemma SealedInitSucceedsIff(w: World, c: Cells, secret: Secret, id: Option<RpcId>, outerId: RpcId, request: Json,
                              chance: Chance, message: string)
    requires Lawful(w) && w.publicKey(secret).Some? && c.handlerKey.Some? && !IsInit(request)
    requires Decrypted(w, c.handlerKey.value, request) == Some((outerId, InitRequest(w, w.publicKey(secret).value, id)))
    ensures var product, server := w.mul(w.publicKey(secret).value, chance.secret), w.publicKey(chance.secret);
            var key := if product.Some? then w.toKey(product.value) else None;
            var c' := Served(w, c, request, chance, message).0;
            && c'.ownerKey == (if key.Some? then key else c.ownerKey) && c'.mask == c.mask
            && c'.handlerKey == if id.Some? && key.Some? && server.Some?
                  && !CannotSeal(w, c.handlerKey.value, chance.nonce, Reply(WriteId(id.value), "Ok", Str(w.showPoint(server.value))))
                then key else c.handlerKey
  {
    var point := w.publicKey(secret).value;
    var q := InitRequest(w, point, id);
    InitRequestIsInit(w, point, id);
    InitRequestHasId(w, point, id);
    var raw, server := Handled(w, q, chance).0, w.publicKey(chance.secret);
    ReplyParts(Field(q, "id"), chance.failure);
    if server.Some? {
      ReplyParts(Field(q, "id"), Str(w.showPoint(server.value)));
    }
    if raw.Some? {
      InterceptKeepsOk(raw.value, message);
      SealedFailsAt(w.cipher, c.handlerKey.value, chance.nonce, Intercepted(raw.value, message));
    }
  }

  /** One sealed init keeps the agreement, under the handler's key or under another. */
  lemma SealedInitAgrees(w: World, s: Scene, e: Event, chance: Chance, message: string)
    requires Lawful(w) && Agrees(s) && e.SealedInit? && Allowed(w, s, e) && Sent(w, s, e).Some?
    ensures Agrees(After(w, s, e, chance, message))
  {
    var request := Sent(w, s, e).value;
    if s.KeyOf(e.client) == s.cells.handlerKey {
      SealedArrives(w, s.keys[e.client], e.outerId, InitRequest(w, w.publicKey(e.secret).value, e.id), e.nonce);
      SealedInitTells(w, s.cells, e.secret, e.id, e.outerId, request, chance, message);
    } else {
      RefusedChangesNothing(w, s.cells, request, chance, message);
    }
  }

  /** One event keeps the agreement. */
  lemma EventAgrees(w: World, s: Scene, e: Event, chance: Chance, message: string)
    requires Lawful(w) && Agrees(s) && Allowed(w, s, e)
    ensures Agrees(After(w, s, e, chance, message))
  {
    var request := Sent(w, s, e);
    if request.Some? {
      match e
      case PlainInit(_, secret, id) => PlainInitTells(w, s.cells, secret, id, chance, message);
      case SealedInit(_, _, _, _, _) => SealedInitAgrees(w, s, e, chance, message);
      case Call(client, json, outerId, nonce) =>
        SealedArrives(w, s.keys[client], outerId, json, nonce);
        CellsChangeOnlyBy(w, s.cells, request.value, chance, message);
      case Stray(_) => CellsChangeOnlyBy(w, s.cells, request.value, chance, message);
    }
  }

  /** After every run, with any number of clients, the handler holds the key of the client whose init succeeded last. */
  lemma {:induction false} RunsAgree(w: World, s: Scene, turns: seq<Turn>)
    requires Lawful(w) && Agrees(s) && Played(w, s, turns).Some?
    ensures Agrees(Played(w, s, turns).value)
    decreases |turns|
  {
    if turns != [] {
      var (e, chance, message) := turns[0];
      EventAgrees(w, s, e, chance, message);
      RunsAgree(w, After(w, s, e, chance, message), turns[1..]);
    }
  }

  /** After every run, the handler reads every call that the session's owner can seal, hands it to the API, and the owner
      reads the API's reply: the key exchange, however often repeated and by whomever, locks out nobody but the clients
      whose session was taken over. */
  lemma CallsAreAnswered(w: World, turns: seq<Turn>, json: Json, outerId: RpcId, nonce: Nonce, chance: Chance, message: string)
    requires Lawful(w) && Played(w, OPENING, turns).Some? && ProperId(outerId)
    ensures var s := Played(w, OPENING, turns).value;
            s.owner.Some? ==> s.owner.value in s.keys && (Sent(w, s, Call(s.owner.value, json, outerId, nonce)).Some? ==>
              var (key, request) := (s.keys[s.owner.value], Sent(w, s, Call(s.owner.value, json, outerId, nonce)).value);
              var raw := if MethodOf(json) == Some("init_secure_api") then Handled(w, json, chance).0 else chance.other;
              var reply := Served(w, s.cells, request, chance, message).1;
              && Effective(w, s.cells, request) == Some(json)
              && (if raw.None? then reply == Arr([])
                  else if CannotSeal(w, key, chance.nonce, Intercepted(raw.value, message)) then CodeOf(reply) == Some(-32003)
                  else OpenedReply(w, key, reply) == Intercepted(raw.value, message) && Field(reply, "id") == WriteId(outerId)))
  {
    RunsAgree(w, OPENING, turns);
    var s := Played(w, OPENING, turns).value;
    if s.owner.Some? && Sent(w, s, Call(s.owner.value, json, outerId, nonce)).Some? {
      SealedArrives(w, s.keys[s.owner.value], outerId, json, nonce);
      var request := Sent(w, s, Call(s.owner.value, json, outerId, nonce)).value;
      ReplyOpensUnderRequestKey(w, s.cells, request, chance, message);
    }
  }
}
