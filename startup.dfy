/**
 * The startup and shutdown sequence of main: the poll for wg0.json with its
 * shared retry counter, the created -> restart -> retry loop, the first push,
 * and the terminal push on a signal. The supervisor goroutine is not
 * modelled; the messages sent to it appear as SignalRestart and
 * SignalTerminate actions.
 */
module Startup {
  import opened Wrappers
  import opened Json
  import opened Strings
  import opened WgConfig
  import ClientStore
  import opened Monitoring

  /** The wait gives up once `retries` exceeds this. */
  const MAX_RETRIES: nat := 15
  /** Seconds between two checks for the file. */
  const RETRY_DELAY: nat := 1

  /** What ensureClient reported, as the startup code tells the cases apart. */
  datatype Verdict = EnsureErrored | EnsurePanicked | Created | AlreadyPresent

  function VerdictOf(o: ClientStore.Outcome): (v: Verdict)
    ensures v == Created <==> o.err.None? && o.changed
    ensures v == AlreadyPresent <==> o.err.None? && !o.changed
    // A panic is told apart from an error: only the error goes through fatal.
    ensures v == EnsurePanicked <==> o.err == Some(ClientStore.Panicked)
    ensures v == EnsureErrored <==> o.err.Some? && o.err != Some(ClientStore.Panicked)
  {
    if o.err == Some(ClientStore.Panicked) then EnsurePanicked
    else if o.err.Some? then EnsureErrored
    else if o.changed then Created
    else AlreadyPresent
  }

  /** One pass through the `retry:` label: the result of os.Open and, when
      the file opened, of the ensureClient that follows. */
  datatype Probe = NotExist | OpenError | Opened(verdict: Verdict)

  datatype WaitOutcome =
    | Ready          // the file exists and already has a client: go on to the first push
    | TimedOut       // fatal: the 16th not-exist result
    | OpenFailed     // fatal: any other open error
    | EnsureFailed   // fatal: ensureClient returned an error
    | Crashed        // ensureClient panicked
    | Waiting        // the probes ran out while the loop was still going

  /** How the wait ended, how many probes it used, the final value of
      `retries`, and what it did on the way. */
  datatype WaitResult = WaitResult(outcome: WaitOutcome, consumed: nat, retries: nat, actions: seq<Action>)

  /** The loop from probe i on, with the counter and actions so far. A fatal
      outcome goes through `fatal`, which signals the supervisor to terminate. */
  function WaitFrom(probes: seq<Probe>, i: nat, retries: nat, actions: seq<Action>): (r: WaitResult)
    requires i <= |probes|
    ensures i <= r.consumed <= |probes|
    ensures r.outcome == Waiting ==> r.consumed == |probes|
    ensures r.outcome != Waiting ==> i < r.consumed
    // The loop only adds actions and only counts up.
    ensures actions <= r.actions && retries <= r.retries
    ensures retries <= MAX_RETRIES && r.outcome == TimedOut ==> r.retries == MAX_RETRIES + 1
    ensures retries <= MAX_RETRIES && r.outcome != TimedOut ==> r.retries <= MAX_RETRIES
    decreases |probes| - i
  {
    if i == |probes| then WaitResult(Waiting, i, retries, actions)
    else
      match probes[i]
      case NotExist =>
        if retries + 1 > MAX_RETRIES then WaitResult(TimedOut, i + 1, retries + 1, actions + [SignalTerminate])
        else WaitFrom(probes, i + 1, retries + 1, actions + [Sleep(RETRY_DELAY)])
      case OpenError => WaitResult(OpenFailed, i + 1, retries, actions + [SignalTerminate])
      case Opened(EnsureErrored) => WaitResult(EnsureFailed, i + 1, retries, actions + [SignalTerminate])
      case Opened(EnsurePanicked) => WaitResult(Crashed, i + 1, retries, actions)
      case Opened(Created) => WaitFrom(probes, i + 1, retries, actions + [SignalRestart])
      case Opened(AlreadyPresent) => WaitResult(Ready, i + 1, retries, actions)
  }

  /** The whole wait, from `retries := 0`. */
  function Wait(probes: seq<Probe>): (r: WaitResult)
    ensures r.consumed <= |probes|
    ensures r.outcome == TimedOut <==> r.retries == MAX_RETRIES + 1
    ensures r.retries <= MAX_RETRIES + 1
  {
    WaitFrom(probes, 0, 0, [])
  }

  /** main.go's `retry:` loop: one counter for the whole startup, a restart
      signal and an immediate retry when a client was created. */
  method WaitForConfig(probes: seq<Probe>)
    returns (outcome: WaitOutcome, consumed: nat, retries: nat, actions: seq<Action>)
    ensures WaitResult(outcome, consumed, retries, actions) == Wait(probes)
  {
    retries, consumed, actions := 0, 0, [];
    while consumed < |probes|
      invariant consumed <= |probes|
      invariant WaitFrom(probes, consumed, retries, actions) == Wait(probes)
      decreases |probes| - consumed
    {
      var probe := probes[consumed];
      consumed := consumed + 1;
      match probe {
        case NotExist =>
          retries := retries + 1;
          if retries > MAX_RETRIES {
            outcome, actions := TimedOut, actions + [SignalTerminate];
            return;
          }
          actions := actions + [Sleep(RETRY_DELAY)];
        case OpenError =>
          outcome, actions := OpenFailed, actions + [SignalTerminate];
          return;
        case Opened(verdict) =>
          match verdict {
            case EnsureErrored =>
              outcome, actions := EnsureFailed, actions + [SignalTerminate];
              return;
            case EnsurePanicked =>
              outcome := Crashed;
              return;
            case Created =>
              actions := actions + [SignalRestart];
            case AlreadyPresent =>
              outcome := Ready;
              return;
          }
      }
    }
    outcome := Waiting;
  }

  /** Probes after which the loop goes round again. */
  predicate Continues(p: Probe) {
    p == NotExist || p == Opened(Created)
  }

  predicate AllContinue(s: seq<Probe>) {
    forall j :: 0 <= j < |s| ==> Continues(s[j])
  }

  function CountNotExist(s: seq<Probe>): nat
    decreases |s|
  {
    if s == [] then 0
    else CountNotExist(s[..|s| - 1]) + (if s[|s| - 1] == NotExist then 1 else 0)
  }

  /** What the loop does for probes that send it round again: a one-second
      sleep after a not-exist result, a restart signal after a creation. */
  function Trace(s: seq<Probe>): seq<Action>
    decreases |s|
  {
    if s == [] then []
    else
      Trace(s[..|s| - 1])
      + (match s[|s| - 1]
         case NotExist => [Sleep(RETRY_DELAY)]
         case Opened(Created) => [SignalRestart]
         case _ => [])
  }

  /** The outcome for the probe that ends the loop. */
  function StopOutcome(p: Probe): WaitOutcome {
    match p
    case NotExist => TimedOut
    case OpenError => OpenFailed
    case Opened(EnsureErrored) => EnsureFailed
    case Opened(EnsurePanicked) => Crashed
    case Opened(AlreadyPresent) => Ready
    case Opened(Created) => Waiting
  }

  /** Fatal outcomes go through the terminate handshake; a panic does not. */
  function StopActions(o: WaitOutcome): seq<Action> {
    if o == TimedOut || o == OpenFailed || o == EnsureFailed then [SignalTerminate] else []
  }

  /** The loop stops at probe k: every earlier probe sent it round, it had
      seen at most 15 not-exist results before, and probe k either ends it or
      is the one not-exist result too many. */
  predicate StopsAt(probes: seq<Probe>, k: nat) {
    && k < |probes|
    && AllContinue(probes[..k])
    && CountNotExist(probes[..k]) <= MAX_RETRIES
    && (!Continues(probes[k]) || (probes[k] == NotExist && CountNotExist(probes[..k]) == MAX_RETRIES))
  }

  lemma PrefixStep(probes: seq<Probe>, k: nat)
    requires k < |probes|
    ensures probes[..k + 1][..k] == probes[..k]
    ensures probes[..k + 1][k] == probes[k]
    ensures CountNotExist(probes[..k + 1]) == CountNotExist(probes[..k]) + (if probes[k] == NotExist then 1 else 0)
    ensures Continues(probes[k]) ==>
              Trace(probes[..k + 1]) == Trace(probes[..k]) + (if probes[k] == NotExist then [Sleep(RETRY_DELAY)] else [SignalRestart])
  {
    assert probes[..k + 1][..k] == probes[..k];
  }

  /** From probe i on, with the state the loop has after probes[..i], the
      run either stops at some probe k >= i as StopsAt describes or uses up
      every probe. */
  lemma {:induction false} WaitFromShape(probes: seq<Probe>, i: nat)
    requires i <= |probes|
    requires AllContinue(probes[..i]) && CountNotExist(probes[..i]) <= MAX_RETRIES
    ensures var r := WaitFrom(probes, i, CountNotExist(probes[..i]), Trace(probes[..i]));
            if r.outcome == Waiting then
              && AllContinue(probes) && CountNotExist(probes) <= MAX_RETRIES
              && r == WaitResult(Waiting, |probes|, CountNotExist(probes), Trace(probes))
            else
              && i < r.consumed && StopsAt(probes, r.consumed - 1)
              && var k := r.consumed - 1;
              && r.outcome == StopOutcome(probes[k])
              && r.retries == CountNotExist(probes[..k + 1])
              && r.actions == Trace(probes[..k]) + StopActions(r.outcome)
    decreases |probes| - i
  {
    if i == |probes| {
      assert probes[..i] == probes;
    } else {
      PrefixStep(probes, i);
      var retries, actions := CountNotExist(probes[..i]), Trace(probes[..i]);
      if Continues(probes[i]) && CountNotExist(probes[..i + 1]) <= MAX_RETRIES {
        assert AllContinue(probes[..i + 1]);
        assert WaitFrom(probes, i, retries, actions)
               == WaitFrom(probes, i + 1, CountNotExist(probes[..i + 1]), Trace(probes[..i + 1]));
        WaitFromShape(probes, i + 1);
      } else {
        assert StopsAt(probes, i);
        assert WaitFrom(probes, i, retries, actions)
               == WaitResult(StopOutcome(probes[i]), i + 1, CountNotExist(probes[..i + 1]),
                             actions + StopActions(StopOutcome(probes[i])));
      }
    }
  }

  /** The wait uses up its probes or stops at one probe k as StopsAt says,
      with retries equal to the number of not-exist results up to k. */
  lemma WaitShape(probes: seq<Probe>)
    ensures var r := Wait(probes);
            if r.outcome == Waiting then
              && AllContinue(probes) && CountNotExist(probes) <= MAX_RETRIES
              && r == WaitResult(Waiting, |probes|, CountNotExist(probes), Trace(probes))
            else
              && 0 < r.consumed && StopsAt(probes, r.consumed - 1)
              && r.outcome == StopOutcome(probes[r.consumed - 1])
              && r.retries == CountNotExist(probes[..r.consumed])
              && r.actions == Trace(probes[..r.consumed - 1]) + StopActions(r.outcome)
  {
    assert probes[..0] == [];
    WaitFromShape(probes, 0);
  }

  /** Where StopsAt holds is where the loop stops. */
  lemma {:induction false} WaitFromStopsAt(probes: seq<Probe>, i: nat, k: nat)
    requires i <= k && StopsAt(probes, k)
    ensures WaitFrom(probes, i, CountNotExist(probes[..i]), Trace(probes[..i])).consumed == k + 1
    decreases k - i
  {
    PrefixStep(probes, i);
    if i < k {
      assert probes[..k][i] == probes[i];
      CountNotExistMonotone(probes, i + 1, k);
      WaitFromStopsAt(probes, i + 1, k);
    }
  }

  lemma WaitStopsAt(probes: seq<Probe>, k: nat)
    requires StopsAt(probes, k)
    ensures Wait(probes).consumed == k + 1
  {
    assert probes[..0] == [];
    WaitFromStopsAt(probes, 0, k);
  }

  lemma {:induction false} CountNotExistMonotone(probes: seq<Probe>, a: nat, b: nat)
    requires a <= b <= |probes|
    ensures CountNotExist(probes[..a]) <= CountNotExist(probes[..b])
    decreases b - a
  {
    if a < b {
      PrefixStep(probes, b - 1);
      CountNotExistMonotone(probes, a, b - 1);
    }
  }

  /** A file that is there with a client proceeds at once, without retrying. */
  lemma ReadyAtOnce(probes: seq<Probe>)
    requires |probes| >= 1 && probes[0] == Opened(AlreadyPresent)
    ensures Wait(probes) == WaitResult(Ready, 1, 0, [])
  {
  }

  /** An open error other than not-exist ends the wait at once, through the
      fatal path. */
  lemma OtherOpenErrorIsFatal(probes: seq<Probe>, k: nat)
    requires k < |probes| && probes[k] == OpenError
    requires AllContinue(probes[..k]) && CountNotExist(probes[..k]) <= MAX_RETRIES
    ensures Wait(probes).outcome == OpenFailed && Wait(probes).consumed == k + 1
    ensures |Wait(probes).actions| > 0 && Wait(probes).actions[|Wait(probes).actions| - 1] == SignalTerminate
  {
    WaitStopsAt(probes, k);
    WaitShape(probes);
  }

  /** The wait times out exactly on the not-exist result that brings the
      count of not-exist results to 16. */
  lemma TimedOutIffSixteenthNotExist(probes: seq<Probe>)
    ensures Wait(probes).outcome == TimedOut <==>
            exists k: nat :: StopsAt(probes, k) && probes[k] == NotExist
    ensures Wait(probes).consumed <= |probes|
    ensures Wait(probes).outcome == TimedOut ==>
            CountNotExist(probes[..Wait(probes).consumed]) == MAX_RETRIES + 1
  {
    WaitShape(probes);
    var r := Wait(probes);
    if r.outcome == TimedOut {
      var k := r.consumed - 1;
      PrefixStep(probes, k);
      assert StopsAt(probes, k) && probes[k] == NotExist;
    }
    if k: nat :| StopsAt(probes, k) && probes[k] == NotExist {
      WaitStopsAt(probes, k);
    }
  }

  /** n not-exist results in a row, within the budget, add n to the
      counter and n one-second sleeps. */
  lemma {:induction false} MissesInARow(probes: seq<Probe>, i: nat, n: nat, retries: nat, actions: seq<Action>)
    requires i + n <= |probes| && retries + n <= MAX_RETRIES
    requires forall j :: i <= j < i + n ==> probes[j] == NotExist
    ensures WaitFrom(probes, i, retries, actions)
            == WaitFrom(probes, i + n, retries + n, actions + seq(n, _ => Sleep(RETRY_DELAY)))
    decreases n
  {
    if n == 0 {
      assert actions + seq(0, _ => Sleep(RETRY_DELAY)) == actions;
    } else {
      MissesInARow(probes, i + 1, n - 1, retries + 1, actions + [Sleep(RETRY_DELAY)]);
      assert actions + [Sleep(RETRY_DELAY)] + seq(n - 1, _ => Sleep(RETRY_DELAY))
             == actions + seq(n, _ => Sleep(RETRY_DELAY));
    }
  }

  /** A restart does not reset the counter: the loop goes round with the
      same `retries`. */
  lemma RestartKeepsCounter(probes: seq<Probe>, i: nat, retries: nat, actions: seq<Action>)
    requires i < |probes| && probes[i] == Opened(Created)
    ensures WaitFrom(probes, i, retries, actions) == WaitFrom(probes, i + 1, retries, actions + [SignalRestart])
  {
  }

  /** The budget is for the whole startup: ten misses, a created client and
      six more misses time out, although only six came after the restart. */
  lemma BudgetSharedAcrossRestarts()
    ensures var probes := seq(10, _ => NotExist) + [Opened(Created)] + seq(6, _ => NotExist);
            Wait(probes).outcome == TimedOut && Wait(probes).consumed == |probes|
  {
    var probes := seq(10, _ => NotExist) + [Opened(Created)] + seq(6, _ => NotExist);
    var tenSleeps := seq(10, _ => Sleep(RETRY_DELAY));
    MissesInARow(probes, 0, 10, 0, []);
    assert [] + tenSleeps == tenSleeps;
    RestartKeepsCounter(probes, 10, 10, tenSleeps);
    MissesInARow(probes, 11, 5, 10, tenSleeps + [SignalRestart]);
  }

  /** However many restarts happen in between, the whole wait sleeps at most
      fifteen times. */
  lemma SleepBudget(probes: seq<Probe>)
    ensures multiset(Wait(probes).actions)[Sleep(RETRY_DELAY)] <= MAX_RETRIES
  {
    WaitShape(probes);
    var r := Wait(probes);
    if r.outcome == Waiting {
      TraceCounts(probes);
    } else {
      var k := r.consumed - 1;
      TraceCounts(probes[..k]);
      assert multiset(r.actions) == multiset(Trace(probes[..k])) + multiset(StopActions(r.outcome));
    }
  }

  /** Sixteen not-exist results in a row: fifteen one-second sleeps, then the
      fatal path. */
  lemma SixteenMissesTimeOut(probes: seq<Probe>)
    requires |probes| >= 16 && forall j :: 0 <= j < 16 ==> probes[j] == NotExist
    ensures Wait(probes).outcome == TimedOut && Wait(probes).consumed == 16
    ensures Wait(probes).retries == 16
    ensures Wait(probes).actions == seq(15, _ => Sleep(RETRY_DELAY)) + [SignalTerminate]
  {
    var k := 15;
    forall n | 0 <= n <= 15
      ensures CountNotExist(probes[..n]) == n && Trace(probes[..n]) == seq(n, _ => Sleep(RETRY_DELAY))
    {
      CountOfMisses(probes, n);
    }
    assert AllContinue(probes[..k]);
    assert StopsAt(probes, k);
    WaitStopsAt(probes, k);
    WaitShape(probes);
    PrefixStep(probes, k);
  }

  lemma {:induction false} CountOfMisses(probes: seq<Probe>, n: nat)
    requires n <= |probes| && forall j :: 0 <= j < n ==> probes[j] == NotExist
    ensures CountNotExist(probes[..n]) == n
    ensures Trace(probes[..n]) == seq(n, _ => Sleep(RETRY_DELAY))
    decreases n
  {
    if n > 0 {
      CountOfMisses(probes, n - 1);
      PrefixStep(probes, n - 1);
    }
  }

  /** Along the way the loop sleeps once per not-exist result and signals one
      restart per created client, in the order of the probes. */
  lemma {:induction false} TraceCounts(s: seq<Probe>)
    requires AllContinue(s)
    ensures multiset(Trace(s))[Sleep(RETRY_DELAY)] == CountNotExist(s)
    ensures multiset(Trace(s))[SignalRestart] == |s| - CountNotExist(s)
    ensures |Trace(s)| == |s|
    decreases |s|
  {
    if s != [] {
      var init := s[..|s| - 1];
      assert AllContinue(init) by {
        forall j | 0 <= j < |init| ensures Continues(init[j]) {
          assert init[j] == s[j];
        }
      }
      TraceCounts(init);
    }
  }

  /** The first push at startup: unlike in the monitoring loop, a failure
      of getConfig or of the push itself is fatal. */
  function InitialPush(config: Result<string, ConfigError>, now: int, pushStatus: int): (r: seq<Action>)
    ensures config == Failure(Panicked) ==> r == [Crash]
    ensures config.Failure? && config != Failure(Panicked) ==> r == [SignalTerminate]
    ensures config.Success? ==>
              && |r| >= 1
              && r[0] == Push(RequestData(State(ACTIVE_STATE, Meta(now, config.value))), pushStatus == 200)
              && (r[|r| - 1] == SignalTerminate <==> pushStatus != 200)
    // One push, then either the monitoring goroutine takes over or fatal
    // sends the terminate signal.
    ensures config.Success? ==> |r| == (if pushStatus == 200 then 1 else 2)
  {
    match config
    case Failure(Panicked) => [Crash]
    case Failure(_) => [SignalTerminate]
    case Success(_) =>
      var data := SendConfigRequest(config, now).value;
      if PushSucceeded(pushStatus) then [Push(data, true)] else [Push(data, false), SignalTerminate]
  }

  /** The report sent on SIGINT or SIGTERM: state 3, monitored 0, and the
      best-effort configuration, which is "" when getConfig failed. */
  function ShutdownRequest(config: Result<string, ConfigError>): (d: RequestData)
    ensures d.state.state == ACTIVE_STATE && d.state.meta.monitored == 0
    ensures d.state.meta.wireguardConfig == if config.Success? then config.value else ""
  {
    RequestData(State(ACTIVE_STATE, Meta(0, match config case Success(text) => text case Failure(_) => "")))
  }

  /** The shutdown path: exactly one terminal push, whatever its status, then
      the terminate handshake. A panic inside getConfig ends the process
      before either. */
  function Shutdown(config: Result<string, ConfigError>, pushStatus: int): (r: seq<Action>)
    ensures config == Failure(Panicked) ==> r == [Crash]
    ensures config != Failure(Panicked) ==>
              && |r| == 2 && r[1] == SignalTerminate && r[0].Push?
              && r[0].data.state.meta.monitored == 0 && r[0].delivered == (pushStatus == 200)
              && (config.Failure? ==> r[0].data.state.meta.wireguardConfig == "")
    ensures config != Failure(Panicked) ==> r[0] == Push(ShutdownRequest(config), pushStatus == 200)
  {
    if config == Failure(Panicked) then [Crash]
    else [Push(ShutdownRequest(config), PushSucceeded(pushStatus)), SignalTerminate]
  }

  /** On a document without clients and with a server public key, a
      successful ensureClient leaves a document whose only client is the new
      one, and getConfig renders exactly that client against the server. */
  lemma RepairThenResolve(m: map<string, Value>, id: string, now: ClientStore.Instant,
                          keys: ClientStore.KeyOutputs, host: string, key: string)
    requires ClientStore.NeedsClient(Members(m)) && ClientStore.KeysGenerated(keys)
    requires "server" in m && m["server"].Object?
    requires StringMember(m["server"].fields, "publicKey").Some?
    ensures var o := ClientStore.Ensure(Parsed(Object(m)), id, now, keys, true);
            && o.changed
            && var f := Parsed(Object(o.written.value));
            && (Admissible(f, key) <==> key == id)
            && Resolve(f, id, host) == Success(WireGuardConfig(
                 TrimNewlines(keys.genkey.value), ClientStore.DEFAULT_ADDRESS, LISTEN_PORT, DNS,
                 m["server"].fields["publicKey"].s, TrimNewlines(keys.genpsk.value), ALLOWED_IPS,
                 host + ":" + ClientStore.WG_PORT))
  {
    var o := ClientStore.Ensure(Parsed(Object(m)), id, now, keys, true);
    var w := o.written.value;
    var clients := w["clients"].fields;
    assert ClientsOf(Members(w)) == Some(clients);
    assert ServerOf(Members(w)) == Some(m["server"].fields);
    var c := ClientStore.DefaultClient(id, now, keys);
    assert clients[id] == ClientStore.ClientToJson(c);
  }

  /** The document of the end-to-end case, {"clients":{},"server":{"publicKey":"SRVPUB"}},
      and generator outputs that end in a newline, as `wg` prints them. */
  function ExampleDoc(): map<string, Value> {
    map["clients" := Object(map[]), "server" := Object(map["publicKey" := Str("SRVPUB")])]
  }

  function ExampleKeys(): ClientStore.KeyOutputs {
    ClientStore.KeyOutputs(Some("PRIV\n"), Some("PUB\n"), Some("PSK\n"))
  }

  /** The document the example's first pass writes. */
  function ExampleWritten(id: string, now: ClientStore.Instant): FileContents {
    var o := ClientStore.Ensure(Parsed(Object(ExampleDoc())), id, now, ExampleKeys(), true);
    if o.written.Some? then Parsed(Object(o.written.value)) else Unreadable
  }

  /** Startup on the example document inserts one client, sends one restart
      signal and finds the client on the next pass. */
  lemma FirstStartRestartsOnce(id: string, now: ClientStore.Instant)
    ensures var o := ClientStore.Ensure(Parsed(Object(ExampleDoc())), id, now, ExampleKeys(), true);
            var o2 := ClientStore.Ensure(ExampleWritten(id, now), id, now, ExampleKeys(), true);
            && VerdictOf(o) == Created && VerdictOf(o2) == AlreadyPresent
            && Wait([Opened(VerdictOf(o)), Opened(VerdictOf(o2))]) == WaitResult(Ready, 2, 0, [SignalRestart])
  {
    assert ClientStore.NeedsClient(Members(ExampleDoc()));
    assert ClientStore.KeysGenerated(ExampleKeys());
    ClientStore.EnsureIdempotent(Parsed(Object(ExampleDoc())), id, now, ExampleKeys(), true,
                                 id, now, ExampleKeys(), true);
    var probes := [Opened(Created), Opened(AlreadyPresent)];
    assert Wait(probes) == WaitFrom(probes, 1, 0, [SignalRestart]);
  }

  /** On the next pass getConfig resolves the new client against the
      example's server, with the generator outputs trimmed: the rendered
      text then has `PublicKey = SRVPUB` on line 7 (RepairThenRender). */
  lemma FirstStartResolves(id: string, now: ClientStore.Instant, host: string)
    ensures Admissible(ExampleWritten(id, now), id)
    ensures Resolve(ExampleWritten(id, now), id, host) == Success(ExampleConfig(host))
  {
    assert ClientStore.NeedsClient(Members(ExampleDoc()));
    assert ClientStore.KeysGenerated(ExampleKeys());
    RepairThenResolve(ExampleDoc(), id, now, ExampleKeys(), host, id);
    assert TrimNewlines("PRIV\n") == "PRIV" by {
      assert "PRIV\n"[..4] == "PRIV";
    }
    assert TrimNewlines("PSK\n") == "PSK" by {
      assert "PSK\n"[..3] == "PSK";
    }
  }

  /** The configuration the example resolves to. */
  function ExampleConfig(host: string): WireGuardConfig {
    WireGuardConfig("PRIV", ClientStore.DEFAULT_ADDRESS, LISTEN_PORT, DNS,
                    "SRVPUB", "PSK", ALLOWED_IPS, host + ":" + ClientStore.WG_PORT)
  }

  /** After the repair, the first push carries the trimmed generated keys
      and the server's public key, each on its own line. */
  lemma RepairThenRender(m: map<string, Value>, id: string, now: ClientStore.Instant,
                         keys: ClientStore.KeyOutputs, host: string)
    requires ClientStore.NeedsClient(Members(m)) && ClientStore.KeysGenerated(keys)
    requires "server" in m && m["server"].Object?
    requires StringMember(m["server"].fields, "publicKey").Some?
    requires '\n' !in m["server"].fields["publicKey"].s && '\n' !in host
    requires '\n' !in TrimNewlines(keys.genkey.value) && '\n' !in TrimNewlines(keys.genpsk.value)
    ensures var o := ClientStore.Ensure(Parsed(Object(m)), id, now, keys, true);
            && o.changed
            && var f := Parsed(Object(o.written.value));
            && Admissible(f, id)
            && GetConfig(f, id, host).Success?
            && var ls := Split(GetConfig(f, id, host).value, '\n');
            && |ls| == 12
            && ls[1] == "PrivateKey = " + TrimNewlines(keys.genkey.value)
            && ls[2] == "Address = " + ClientStore.DEFAULT_ADDRESS
            && ls[7] == "PublicKey = " + m["server"].fields["publicKey"].s
            && ls[8] == "PresharedKey = " + TrimNewlines(keys.genpsk.value)
  {
    RepairThenResolve(m, id, now, keys, host, id);
    var o := ClientStore.Ensure(Parsed(Object(m)), id, now, keys, true);
    var f := Parsed(Object(o.written.value));
    var c := Resolve(f, id, host).value;
    assert '\n' !in c.serverEndpoint;
    assert '\n' !in c.serverAllowedIps[0];
    assert SingleLineFields(c);
    GetConfigLines(f, id, host);
  }
}
