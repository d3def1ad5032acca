/**
 * monitoring.go: getConfig, which picks a client and renders its peer
 * configuration; the RequestData sent to the control plane; and one tick of
 * the sendMonitoring loop. The HTTP exchange itself is not modelled: a push
 * is represented by its RequestData and the status code it got back.
 */
module Monitoring {
  import opened Wrappers
  import opened Json
  import opened Strings
  import opened WgConfig
  import ClientStore

  /** strconv.Atoi(wgPort); wgPort is the constant "51820". */
  const LISTEN_PORT: int := 51820
  const DNS: string := "1.1.1.1"
  const ALLOWED_IPS: seq<string> := ["0.0.0.0/0"]
  /** The state code every report carries. */
  const ACTIVE_STATE: int := 3
  /** Seconds between two monitoring ticks. */
  const PUSH_PERIOD: nat := 157

  /** The text form of the listen port is the constant wgPort, so the
      "invalid port" branch of getConfig cannot be taken. */
  lemma ListenPortIsWgPort()
    ensures IntToDecimal(LISTEN_PORT) == ClientStore.WG_PORT
    ensures ParseDecimal(ClientStore.WG_PORT) == Some(LISTEN_PORT)
  {
    assert NatToDecimal(5) == "5";
    assert NatToDecimal(51) == "51";
    assert NatToDecimal(518) == "518";
    assert NatToDecimal(5182) == "5182";
    assert NatToDecimal(51820) == "51820";
    ParseDecimalRoundTrip(LISTEN_PORT);
  }

  datatype ConfigError =
    | ReadFailed     // "failed to read wireguard config"
    | DecodeFailed   // the json.Unmarshal error
    | NoClients      // "no clients"
    | NoServer       // "no server"
    | Panicked       // a failed type assertion: the process dies

  /** `clients, ok := body["clients"].(map[string]any)` and the length test:
      the clients when there is a non-empty object, otherwise None. */
  function ClientsOf(body: Body): Option<map<string, Value>> {
    match Get(body, "clients")
    case Some(Object(m)) => if |m| == 0 then None else Some(m)
    case _ => None
  }

  /** `server, ok := body["server"].(map[string]any)`. */
  function ServerOf(body: Body): Option<map<string, Value>> {
    match Get(body, "server")
    case Some(Object(m)) => Some(m)
    case _ => None
  }

  /** `for key := range clients { ...; break }` takes whichever key Go's map
      iteration yields first, which is unspecified. The model takes any key of
      the clients map; when there are no clients the key is never used. */
  predicate Admissible(f: FileContents, key: string) {
    match DecodeBody(f)
    case Success(body) => ClientsOf(body).Some? ==> key in ClientsOf(body).value
    case Failure(_) => true
  }

  /** The client and server members getConfig reads are all there, with
      the types its assertions demand. */
  predicate CompleteClient(client: Value, server: map<string, Value>) {
    && client.Object?
    && StringMember(client.fields, "privateKey").Some?
    && StringMember(client.fields, "address").Some?
    && StringMember(client.fields, "preSharedKey").Some?
    && StringMember(server, "publicKey").Some?
  }

  /** The WireGuardConfig literal of getConfig, for the chosen client. */
  function Extract(client: Value, server: map<string, Value>, host: string): Result<WireGuardConfig, ConfigError> {
    if !client.Object? then Failure(Panicked)
    else
      var privateKey := StringMember(client.fields, "privateKey");
      var address := StringMember(client.fields, "address");
      var publicKey := StringMember(server, "publicKey");
      var presharedKey := StringMember(client.fields, "preSharedKey");
      if privateKey.None? || address.None? || publicKey.None? || presharedKey.None? then Failure(Panicked)
      else Success(WireGuardConfig(privateKey.value, address.value, LISTEN_PORT, DNS,
                                   publicKey.value, presharedKey.value, ALLOWED_IPS,
                                   host + ":" + ClientStore.WG_PORT))
  }

  /** getConfig up to the call of CreateConfig, with `key` the client the map
      iteration picked and `host` the WG_HOST setting. */
  function Resolve(f: FileContents, key: string, host: string): (r: Result<WireGuardConfig, ConfigError>)
    requires Admissible(f, key)
    ensures r == Failure(ReadFailed) <==> f.Unreadable?
    ensures r == Failure(DecodeFailed) <==> DecodeBody(f).Failure? && !f.Unreadable?
    // The clients check comes first: a missing, non-object or empty clients
    // member is "no clients" whatever the server member holds.
    ensures r == Failure(NoClients) <==> DecodeBody(f).Success? && ClientsOf(DecodeBody(f).value).None?
    ensures r == Failure(NoServer) <==>
              DecodeBody(f).Success? && ClientsOf(DecodeBody(f).value).Some?
              && ServerOf(DecodeBody(f).value).None?
    // getConfig gets through its type assertions exactly when the picked
    // client is an object whose privateKey, address and preSharedKey are
    // strings and the server's publicKey is a string; otherwise it panics.
    ensures r.Success? <==>
              && DecodeBody(f).Success?
              && var body := DecodeBody(f).value;
              && ClientsOf(body).Some? && ServerOf(body).Some?
              && CompleteClient(ClientsOf(body).value[key], ServerOf(body).value)
    ensures r == Failure(Panicked) <==>
              && DecodeBody(f).Success?
              && var body := DecodeBody(f).value;
              && ClientsOf(body).Some? && ServerOf(body).Some?
              && !CompleteClient(ClientsOf(body).value[key], ServerOf(body).value)
    // A success renders the picked client against the server, with the fixed
    // port, resolver, allowed IPs and endpoint.
    ensures r.Success? ==>
              && DecodeBody(f).Success?
              && var body := DecodeBody(f).value;
              && ClientsOf(body).Some? && key in ClientsOf(body).value && ServerOf(body).Some?
              && var client := ClientsOf(body).value[key];
              && client.Object?
              && StringMember(client.fields, "privateKey") == Some(r.value.clientPrivateKey)
              && StringMember(client.fields, "address") == Some(r.value.clientAddress)
              && StringMember(client.fields, "preSharedKey") == Some(r.value.serverPresharedKey)
              && StringMember(ServerOf(body).value, "publicKey") == Some(r.value.serverPublicKey)
              && r.value.clientListenPort == 51820 && r.value.clientDns == "1.1.1.1"
              && r.value.serverAllowedIps == ["0.0.0.0/0"]
              && r.value.serverEndpoint == host + ":51820"
  {
    match DecodeBody(f)
    case Failure(e) => Failure(if e == ReadError then ReadFailed else DecodeFailed)
    case Success(body) =>
      match ClientsOf(body)
      case None => Failure(NoClients)
      case Some(clients) =>
        match ServerOf(body)
        case None => Failure(NoServer)
        case Some(server) => Extract(clients[key], server, host)
  }

  /** getConfig: the rendered peer configuration of the picked client. */
  function GetConfig(f: FileContents, key: string, host: string): (r: Result<string, ConfigError>)
    requires Admissible(f, key)
    // Every error of the lookup is returned as it is; otherwise the text is
    // the rendering of the resolved configuration.
    ensures r.Failure? <==> Resolve(f, key, host).Failure?
    ensures r.Failure? ==> r.error == Resolve(f, key, host).error
    ensures r.Success? ==> r.value == CreateConfig(Resolve(f, key, host).value)
  {
    match Resolve(f, key, host)
    case Success(c) => Success(CreateConfig(c))
    case Failure(e) => Failure(e)
  }

  /** Which key is picked matters only on success or panic: every other
      outcome of getConfig is the same for every admissible key. */
  lemma ErrorsDoNotDependOnPick(f: FileContents, key1: string, key2: string, host: string)
    requires Admissible(f, key1) && Admissible(f, key2)
    requires GetConfig(f, key1, host).Failure? && GetConfig(f, key1, host).error != Panicked
    ensures GetConfig(f, key2, host) == GetConfig(f, key1, host)
  {
  }

  /** A rendered configuration carries the picked client's keys and address
      and the server's public key, each on its own line. */
  lemma GetConfigLines(f: FileContents, key: string, host: string)
    requires Admissible(f, key)
    requires Resolve(f, key, host).Success? && SingleLineFields(Resolve(f, key, host).value)
    ensures GetConfig(f, key, host).Success?
    ensures var c := Resolve(f, key, host).value;
            var ls := Split(GetConfig(f, key, host).value, '\n');
            && |ls| == 12
            && ls[1] == "PrivateKey = " + c.clientPrivateKey
            && ls[2] == "Address = " + c.clientAddress
            && ls[3] == "ListenPort = 51820"
            && ls[4] == "DNS = 1.1.1.1"
            && ls[7] == "PublicKey = " + c.serverPublicKey
            && ls[8] == "PresharedKey = " + c.serverPresharedKey
            && ls[9] == "AllowedIPs = 0.0.0.0/0"
            && ls[10] == "Endpoint = " + host + ":51820"
  {
    var c := Resolve(f, key, host).value;
    CreateConfigLines(c);
    ListenPortIsWgPort();
    assert Join(c.serverAllowedIps, ',') == "0.0.0.0/0";
  }

  datatype Meta = Meta(monitored: int, wireguardConfig: string)
  datatype State = State(state: int, meta: Meta)
  datatype RequestData = RequestData(state: State)

  /** sendConfig builds its request only from a configuration getConfig
      returned, stamped with the current Unix time. */
  function SendConfigRequest(config: Result<string, ConfigError>, now: int): (r: Option<RequestData>)
    ensures r.Some? <==> config.Success?
    ensures r.Some? ==> r.value.state.state == ACTIVE_STATE
    ensures r.Some? ==> r.value.state.meta.monitored == now
    ensures r.Some? ==> r.value.state.meta.wireguardConfig == config.value
  {
    match config
    case Success(text) => Some(RequestData(State(ACTIVE_STATE, Meta(now, text))))
    case Failure(_) => None
  }

  /** sendMonitoringRequest succeeds on status 200 only. */
  predicate PushSucceeded(status: int) {
    status == 200
  }

  /** What one step of the agent does that is visible outside it. */
  datatype Action =
    | SignalRestart                              // restartChan <- struct{}{}
    | SignalTerminate                            // termChan <- struct{}{}, then wait for the child
    | Push(data: RequestData, delivered: bool)   // an HTTPS POST and whether it got a 200
    | Sleep(seconds: nat)
    | Crash                                      // a Go panic ends the process

  /** What the environment yields during one tick of sendMonitoring: the
      result of ensureClient, of the getConfig inside sendConfig, the clock
      and the status code of the push. */
  datatype TickInput = TickInput(
    ensure: ClientStore.Outcome,
    config: Result<string, ConfigError>,
    now: int,
    pushStatus: int)

  /** The tail of a tick that reached sendConfig. */
  function SendAndSleep(config: Result<string, ConfigError>, now: int, pushStatus: int): seq<Action> {
    match config
    case Failure(Panicked) => [Crash]
    case Failure(_) => [Sleep(PUSH_PERIOD)]
    case Success(text) =>
      [Push(SendConfigRequest(config, now).value, PushSucceeded(pushStatus)), Sleep(PUSH_PERIOD)]
  }

  /** One iteration of the sendMonitoring loop. */
  function Tick(t: TickInput): (r: seq<Action>)
    // An ensureClient error skips both the push and the sleep (`continue`);
    // a panic ends the process.
    ensures t.ensure.err == Some(ClientStore.Panicked) ==> r == [Crash]
    ensures t.ensure.err.Some? && t.ensure.err != Some(ClientStore.Panicked) ==> r == []
    // A created client is announced to the supervisor before anything is pushed.
    ensures t.ensure.err.None? ==> |r| >= 1 && (r[0] == SignalRestart <==> t.ensure.changed)
    ensures forall i :: 0 < i < |r| ==> r[i] != SignalRestart
    // At most one push, exactly when both steps succeeded, carrying state 3,
    // the current time and the rendered configuration.
    ensures (exists i :: 0 <= i < |r| && r[i].Push?) <==> t.ensure.err.None? && t.config.Success?
    ensures forall i :: 0 <= i < |r| && r[i].Push? ==>
              && r[i].data == RequestData(State(ACTIVE_STATE, Meta(t.now, t.config.value)))
              && r[i].delivered == (t.pushStatus == 200)
              && i + 1 < |r| && r[i + 1] == Sleep(PUSH_PERIOD)
    // A failed push does not end the loop: the tick still ends in the sleep
    // before the next one, whatever the status code.
    ensures t.ensure.err.None? && t.config != Failure(Panicked) ==> r[|r| - 1] == Sleep(PUSH_PERIOD)
    ensures Crash in r <==> t.ensure.err == Some(ClientStore.Panicked) || (t.ensure.err.None? && t.config == Failure(Panicked))
    ensures forall i, j :: 0 <= i < |r| && 0 <= j < |r| && r[i].Push? && r[j].Push? ==> i == j
    ensures SignalTerminate !in r
    // Nothing else happens: the optional restart signal, the optional push,
    // and then the sleep, or the crash that ends the process.
    ensures t.ensure.err.None? ==>
              |r| == (if t.ensure.changed then 1 else 0) + (if t.config.Success? then 2 else 1)
    ensures t.ensure.err.None? && t.config == Failure(Panicked) ==> r[|r| - 1] == Crash
  {
    if t.ensure.err == Some(ClientStore.Panicked) then [Crash]
    else if t.ensure.err.Some? then []
    else
      var head := if t.ensure.changed then [SignalRestart] else [];
      var r := head + SendAndSleep(t.config, t.now, t.pushStatus);
      assert t.config.Success? ==> r[|head|].Push?;
      r
  }

  /** The status code of a push has no influence on what a tick does next. */
  lemma TickIgnoresPushOutcome(t: TickInput, status: int)
    ensures |Tick(t)| == |Tick(t.(pushStatus := status))|
    ensures forall i :: 0 <= i < |Tick(t)| && !Tick(t)[i].Push? ==> Tick(t)[i] == Tick(t.(pushStatus := status))[i]
  {
  }
}
