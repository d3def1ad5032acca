/**
 * The default-client repair of main.go: the wgEasyClient record, its JSON
 * form, and ensureClient, which adds one client to a document that has none.
 * The uuid, the clock and the outputs of `wg genkey`, `wg pubkey` and
 * `wg genpsk` are parameters.
 */
module ClientStore {
  import opened Wrappers
  import opened Json
  import opened Strings

  const DEFAULT_NAME: string := "default"
  const DEFAULT_ADDRESS: string := "10.8.0.2"
  /** wgPort, set once in init and never changed. */
  const WG_PORT: string := "51820"

  /** A time.Time as encoding/json writes it: its RFC 3339 text. */
  type Instant = string

  /** wgEasyClient. The three times are pointers in Go; None is nil. */
  datatype ClientRecord = ClientRecord(
    id: string,
    name: string,
    address: string,
    privateKey: string,
    publicKey: string,
    preSharedKey: string,
    createdAt: Option<Instant>,
    updatedAt: Option<Instant>,
    expiredAt: Option<Instant>,
    enabled: bool)

  function TimeToJson(t: Option<Instant>): Value {
    match t
    case None => Null
    case Some(text) => Str(text)
  }

  function TimeFromJson(v: Value): Option<Option<Instant>> {
    match v
    case Null => Some(None)
    case Str(text) => Some(Some(text))
    case _ => None
  }

  function TimeMember(m: map<string, Value>, key: string): Option<Option<Instant>> {
    if key in m then TimeFromJson(m[key]) else None
  }

  /** Reads a client object back into a record, as encoding/json would into
      a wgEasyClient whose every member is present with the right kind. */
  function ClientFromJson(v: Value): Option<ClientRecord> {
    if !v.Object? then None
    else
      var m := v.fields;
      var id, name, address := StringMember(m, "id"), StringMember(m, "name"), StringMember(m, "address");
      var privateKey, publicKey := StringMember(m, "privateKey"), StringMember(m, "publicKey");
      var preSharedKey := StringMember(m, "preSharedKey");
      var createdAt, updatedAt := TimeMember(m, "createdAt"), TimeMember(m, "updatedAt");
      var expiredAt := TimeMember(m, "expiredAt");
      if && id.Some? && name.Some? && address.Some? && privateKey.Some? && publicKey.Some?
         && preSharedKey.Some? && createdAt.Some? && updatedAt.Some? && expiredAt.Some?
         && "enabled" in m && m["enabled"].Bool?
      then Some(ClientRecord(id.value, name.value, address.value, privateKey.value,
                             publicKey.value, preSharedKey.value, createdAt.value,
                             updatedAt.value, expiredAt.value, m["enabled"].b))
      else None
  }

  /** json.Marshal of a wgEasyClient, by its struct tags: an object with the
      ten tagged members, which reads back as the same record. */
  function ClientToJson(c: ClientRecord): (v: Value)
    ensures v.Object?
    ensures v.fields.Keys == {"id", "name", "address", "privateKey", "publicKey",
                              "preSharedKey", "createdAt", "updatedAt", "expiredAt", "enabled"}
    ensures v.fields["privateKey"] == Str(c.privateKey) && v.fields["address"] == Str(c.address)
    ensures v.fields["preSharedKey"] == Str(c.preSharedKey)
    ensures ClientFromJson(v) == Some(c)
  {
    Object(map[
      "id" := Str(c.id),
      "name" := Str(c.name),
      "address" := Str(c.address),
      "privateKey" := Str(c.privateKey),
      "publicKey" := Str(c.publicKey),
      "preSharedKey" := Str(c.preSharedKey),
      "createdAt" := TimeToJson(c.createdAt),
      "updatedAt" := TimeToJson(c.updatedAt),
      "expiredAt" := TimeToJson(c.expiredAt),
      "enabled" := Bool(c.enabled)])
  }

  /** What the three key-generation steps printed; None when the command
      failed. `pubkey` is what `echo <private> | wg pubkey` printed. */
  datatype KeyOutputs = KeyOutputs(genkey: Option<string>, pubkey: Option<string>, genpsk: Option<string>)

  datatype EnsureError =
    | ReadFailed       // "failed to read config file"
    | ParseFailed      // "failed to marshal config contents"
    | GenKeyFailed     // "failed generate new key"
    | PubKeyFailed     // "failed to generate public key"
    | PskFailed        // "failed to generate preshared key"
    | WriteFailed      // "failed to write new config to file"
    | Panicked         // a Go runtime panic: the process dies

  /** The `(bool, error)` of ensureClient, plus the document it wrote to the
      file, if any. */
  datatype Outcome = Outcome(changed: bool, err: Option<EnsureError>, written: Option<map<string, Value>>)

  /** What `body["clients"]` holds, as `content.(map[string]any)` sees it. */
  datatype ClientsMember = NoClientsMember | ClientsMap(m: map<string, Value>) | NotAMap

  function ClientsMemberOf(body: Body): ClientsMember {
    match Get(body, "clients")
    case None => NoClientsMember
    case Some(Object(m)) => ClientsMap(m)
    case Some(_) => NotAMap
  }

  /** `len(clients) == 0`: no clients member, or an empty object. */
  predicate NeedsClient(body: Body) {
    match ClientsMemberOf(body)
    case NoClientsMember => true
    case ClientsMap(m) => |m| == 0
    case NotAMap => false
  }

  predicate KeysGenerated(keys: KeyOutputs) {
    keys.genkey.Some? && keys.pubkey.Some? && keys.genpsk.Some?
  }

  /** The default client built from the generator outputs. */
  function DefaultClient(id: string, now: Instant, keys: KeyOutputs): ClientRecord
    requires KeysGenerated(keys)
  {
    ClientRecord(id, DEFAULT_NAME, DEFAULT_ADDRESS,
                 TrimNewlines(keys.genkey.value), TrimNewlines(keys.pubkey.value),
                 TrimNewlines(keys.genpsk.value), Some(now), Some(now), None, true)
  }

  /** The repaired document: the clients member replaced by a one-entry map. */
  function Repaired(m: map<string, Value>, id: string, now: Instant, keys: KeyOutputs): map<string, Value>
    requires KeysGenerated(keys)
  {
    m["clients" := Object(map[id := ClientToJson(DefaultClient(id, now, keys))])]
  }

  function Fail(e: EnsureError): Outcome {
    Outcome(false, Some(e), None)
  }

  /** ensureClient as a function of what its environment yields: the file
      contents, a fresh id, the current instant, the generator outputs and
      whether os.WriteFile succeeds. */
  function Ensure(f: FileContents, id: string, now: Instant, keys: KeyOutputs, writeOk: bool): (r: Outcome)
    // Every error reports changed=false and writes nothing.
    ensures r.err.Some? ==> !r.changed && r.written.None?
    ensures r.err == Some(ReadFailed) <==> f.Unreadable?
    ensures r.err == Some(ParseFailed) <==> DecodeBody(f).Failure? && !f.Unreadable?
    // A document that already has a client is left alone.
    ensures (!r.changed && r.err.None?) <==>
              DecodeBody(f).Success? && ClientsMemberOf(DecodeBody(f).value).ClientsMap?
              && |ClientsMemberOf(DecodeBody(f).value).m| > 0
    ensures !r.changed ==> r.written.None?
    // The generator steps fail in order, each with its own error.
    ensures r.err == Some(GenKeyFailed) <==>
              DecodeBody(f).Success? && NeedsClient(DecodeBody(f).value) && keys.genkey.None?
    ensures r.err == Some(PubKeyFailed) <==>
              DecodeBody(f).Success? && NeedsClient(DecodeBody(f).value)
              && keys.genkey.Some? && keys.pubkey.None?
    ensures r.err == Some(PskFailed) <==>
              DecodeBody(f).Success? && NeedsClient(DecodeBody(f).value)
              && keys.genkey.Some? && keys.pubkey.Some? && keys.genpsk.None?
    // A clients member that is not an object, or a `null` document, panics.
    ensures r.err == Some(Panicked) <==>
              DecodeBody(f).Success?
              && (ClientsMemberOf(DecodeBody(f).value).NotAMap?
                  || (DecodeBody(f).value.NilMap? && KeysGenerated(keys)))
    // A repair happens exactly when the document is an object without clients
    // and every step succeeds.
    ensures r.changed <==>
              f.Parsed? && f.v.Object? && NeedsClient(Members(f.v.fields)) && KeysGenerated(keys) && writeOk
    ensures r.changed ==> r.err.None? && r.written.Some?
    // Only the top-level member "clients" is assigned.
    ensures r.changed ==>
              && r.written.value.Keys == f.v.fields.Keys + {"clients"}
              && forall k :: k in f.v.fields && k != "clients" ==> r.written.value[k] == f.v.fields[k]
    // The new clients map has exactly one entry, under the record's own id.
    ensures r.changed ==>
              && r.written.value["clients"].Object?
              && r.written.value["clients"].fields.Keys == {id}
              && var c := ClientFromJson(r.written.value["clients"].fields[id]);
              && c.Some?
              && c.value.id == id && c.value.name == DEFAULT_NAME && c.value.address == DEFAULT_ADDRESS
              && c.value.enabled && c.value.expiredAt.None?
              && c.value.createdAt == Some(now) && c.value.updatedAt == Some(now)
              && c.value.privateKey == TrimNewlines(keys.genkey.value)
              && c.value.publicKey == TrimNewlines(keys.pubkey.value)
              && c.value.preSharedKey == TrimNewlines(keys.genpsk.value)
    // The stored object is exactly the JSON form of that record: the ten
    // members of wgEasyClient and nothing else.
    ensures r.changed ==>
              && KeysGenerated(keys)
              && r.written.value["clients"].fields[id] == ClientToJson(DefaultClient(id, now, keys))
  {
    match DecodeBody(f)
    case Failure(e) => Fail(if e == ReadError then ReadFailed else ParseFailed)
    case Success(body) =>
      if ClientsMemberOf(body).NotAMap? then Fail(Panicked)
      else if !NeedsClient(body) then Outcome(false, None, None)
      else if keys.genkey.None? then Fail(GenKeyFailed)
      else if keys.pubkey.None? then Fail(PubKeyFailed)
      else if keys.genpsk.None? then Fail(PskFailed)
      else if body.NilMap? then Fail(Panicked)
      else if !writeOk then Fail(WriteFailed)
      else Outcome(true, None, Some(Repaired(body.m, id, now, keys)))
  }

  /** ensureClient, step by step as the Go code does it: a `changed` flag
      that starts false, a `clients` map that is either the document's or a
      fresh one, the record stored under its id, and the clients member of
      `body` reassigned before the write. */
  method EnsureClient(f: FileContents, id: string, now: Instant, keys: KeyOutputs, writeOk: bool)
    returns (changed: bool, err: Option<EnsureError>, written: Option<map<string, Value>>)
    ensures Outcome(changed, err, written) == Ensure(f, id, now, keys, writeOk)
  {
    changed, err, written := false, None, None;
    var decoded := DecodeBody(f);
    if decoded.Failure? {
      err := Some(if decoded.error == ReadError then ReadFailed else ParseFailed);
      return;
    }
    var body := decoded.value;
    var clients: map<string, Value> := map[];
    var content := Get(body, "clients");
    if content.Some? {
      if !content.value.Object? {
        err := Some(Panicked);
        return;
      }
      clients := content.value.fields;
    }
    if |clients| == 0 {
      if keys.genkey.None? {
        err := Some(GenKeyFailed);
        return;
      }
      var privateOut := keys.genkey.value;
      if keys.pubkey.None? {
        err := Some(PubKeyFailed);
        return;
      }
      var publicOut := keys.pubkey.value;
      if keys.genpsk.None? {
        err := Some(PskFailed);
        return;
      }
      var presharedOut := keys.genpsk.value;
      var client := ClientRecord(id, DEFAULT_NAME, DEFAULT_ADDRESS,
                                 TrimNewlines(privateOut), TrimNewlines(publicOut),
                                 TrimNewlines(presharedOut), Some(now), Some(now), None, true);
      clients := clients[id := ClientToJson(client)];
      if body.NilMap? {
        err := Some(Panicked);
        return;
      }
      var newBody := body.m["clients" := Object(clients)];
      if !writeOk {
        err := Some(WriteFailed);
        return;
      }
      written := Some(newBody);
      changed := true;
    }
  }

  /** A second ensureClient on the document the first one wrote changes
      nothing, whatever the generators and the file system do that time. */
  lemma EnsureIdempotent(f: FileContents, id: string, now: Instant, keys: KeyOutputs, writeOk: bool,
                         id2: string, now2: Instant, keys2: KeyOutputs, writeOk2: bool)
    requires Ensure(f, id, now, keys, writeOk).changed
    ensures Ensure(Parsed(Object(Ensure(f, id, now, keys, writeOk).written.value)), id2, now2, keys2, writeOk2)
            == Outcome(false, None, None)
  {
    var w := Ensure(f, id, now, keys, writeOk).written.value;
    assert ClientsMemberOf(Members(w)) == ClientsMap(w["clients"].fields);
    assert id in w["clients"].fields;
  }
}
