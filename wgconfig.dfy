/**
 * WireGuardConfig and its CreateConfig method (monitoring.go): the client
 * side peer configuration text, and a reader for it that shows the layout is
 * exact and every field can be recovered from its line.
 */
module WgConfig {
  import opened Wrappers
  import opened Strings

  datatype WireGuardConfig = WireGuardConfig(
    clientPrivateKey: string,
    clientAddress: string,
    clientListenPort: int,
    clientDns: string,
    serverPublicKey: string,
    serverPresharedKey: string,
    serverAllowedIps: seq<string>,
    serverEndpoint: string)

  /** The Sprintf format string of CreateConfig with its eight verbs filled
      in by already formatted text: an [Interface] section, a blank line and a
      [Peer] section. */
  function PeerTemplate(privateKey: string, address: string, listenPort: string, dns: string,
                        publicKey: string, presharedKey: string, allowedIps: string,
                        endpoint: string): string
  {
    "[Interface]\nPrivateKey = " + privateKey
    + "\nAddress = " + address
    + "\nListenPort = " + listenPort
    + "\nDNS = " + dns
    + "\n\n[Peer]\nPublicKey = " + publicKey
    + "\nPresharedKey = " + presharedKey
    + "\nAllowedIPs = " + allowedIps
    + "\nEndpoint = " + endpoint
    + "\n"
  }

  /** CreateConfig: the port is written with `%d`, the allowed IPs are joined
      with commas, every other field is written as it is. */
  function CreateConfig(c: WireGuardConfig): (r: string)
    // Like the format string, the text ends with a newline.
    ensures |r| > 0 && r[|r| - 1] == '\n'
  {
    PeerTemplate(c.clientPrivateKey, c.clientAddress, IntToDecimal(c.clientListenPort), c.clientDns,
                 c.serverPublicKey, c.serverPresharedKey, Join(c.serverAllowedIps, ','),
                 c.serverEndpoint)
  }

  /** Every line followed by a newline. */
  function JoinLines(lines: seq<string>): string
    decreases |lines|
  {
    if lines == [] then "" else JoinLines(lines[..|lines| - 1]) + lines[|lines| - 1] + "\n"
  }

  lemma JoinLinesSnoc(lines: seq<string>, line: string)
    ensures JoinLines(lines + [line]) == JoinLines(lines) + line + "\n"
  {
    assert (lines + [line])[..|lines|] == lines;
  }

  /** Newline-terminated lines followed by one more text t split into the
      lines and t. */
  lemma {:induction false} SplitJoinLinesThen(lines: seq<string>, t: string)
    requires forall i :: 0 <= i < |lines| ==> '\n' !in lines[i]
    requires '\n' !in t
    ensures Split(JoinLines(lines) + t, '\n') == lines + [t]
    decreases |lines|
  {
    if lines == [] {
      assert JoinLines(lines) + t == t;
      SplitWithoutSeparator(t, '\n');
    } else {
      var init, last := lines[..|lines| - 1], lines[|lines| - 1];
      SplitJoinLinesThen(init, last);
      assert JoinLines(lines) + t == (JoinLines(init) + last) + ['\n'] + t;
      SplitConcat(JoinLines(init) + last, t, '\n');
      SplitWithoutSeparator(t, '\n');
      assert init + [last] == lines;
    }
  }

  /** Splitting newline-terminated lines on '\n' gives the lines and one
      empty piece after the last newline. */
  lemma SplitJoinLines(lines: seq<string>)
    requires forall i :: 0 <= i < |lines| ==> '\n' !in lines[i]
    ensures Split(JoinLines(lines), '\n') == lines + [""]
  {
    SplitJoinLinesThen(lines, "");
    assert JoinLines(lines) + "" == JoinLines(lines);
  }

  /** No field, and no allowed IP, spans more than one line. */
  predicate SingleLineFields(c: WireGuardConfig) {
    && '\n' !in c.clientPrivateKey
    && '\n' !in c.clientAddress
    && '\n' !in c.clientDns
    && '\n' !in c.serverPublicKey
    && '\n' !in c.serverPresharedKey
    && '\n' !in c.serverEndpoint
    && forall i :: 0 <= i < |c.serverAllowedIps| ==> '\n' !in c.serverAllowedIps[i]
  }

  /** The eleven lines of the template, in order. */
  function TemplateLines(privateKey: string, address: string, listenPort: string, dns: string,
                         publicKey: string, presharedKey: string, allowedIps: string,
                         endpoint: string): seq<string>
  {
    [ "[Interface]",
      "PrivateKey = " + privateKey,
      "Address = " + address,
      "ListenPort = " + listenPort,
      "DNS = " + dns,
      "",
      "[Peer]",
      "PublicKey = " + publicKey,
      "PresharedKey = " + presharedKey,
      "AllowedIPs = " + allowedIps,
      "Endpoint = " + endpoint ]
  }

  /** One more "Name = value" line extends the rendered prefix r. */
  lemma StepLine(ls: seq<string>, m: nat, r: string, nlLit: string, lit: string, x: string)
    requires m < |ls| && JoinLines(ls[..m]) == r + "\n"
    requires ls[m] == lit + x && nlLit == "\n" + lit
    ensures JoinLines(ls[..m + 1]) == r + nlLit + x + "\n"
  {
    assert ls[..m + 1] == ls[..m] + [ls[m]];
    JoinLinesSnoc(ls[..m], ls[m]);
  }

  /** The blank line, the [Peer] header and the PublicKey line. */
  lemma StepPeerSection(ls: seq<string>, r: string, publicKey: string)
    requires 8 <= |ls| && JoinLines(ls[..5]) == r + "\n"
    requires ls[5] == "" && ls[6] == "[Peer]" && ls[7] == "PublicKey = " + publicKey
    ensures JoinLines(ls[..8]) == r + "\n\n[Peer]\nPublicKey = " + publicKey + "\n"
  {
    assert ls[..6] == ls[..5] + [ls[5]];
    JoinLinesSnoc(ls[..5], ls[5]);
    assert ls[..7] == ls[..6] + [ls[6]];
    JoinLinesSnoc(ls[..6], ls[6]);
    assert ls[..8] == ls[..7] + [ls[7]];
    JoinLinesSnoc(ls[..7], ls[7]);
    assert "\n\n[Peer]\nPublicKey = " == "\n" + "\n" + "[Peer]" + "\n" + "PublicKey = ";
  }

  /** The [Interface] section: the first five lines. */
  lemma InterfaceSection(ls: seq<string>, p: string, a: string, n: string, d: string)
    requires 5 <= |ls| && ls[0] == "[Interface]" && ls[1] == "PrivateKey = " + p
    requires ls[2] == "Address = " + a && ls[3] == "ListenPort = " + n && ls[4] == "DNS = " + d
    ensures JoinLines(ls[..5])
            == "[Interface]\nPrivateKey = " + p + "\nAddress = " + a + "\nListenPort = " + n + "\nDNS = " + d + "\n"
  {
    assert ls[..1] == [] + [ls[0]];
    JoinLinesSnoc([], ls[0]);
    StepLine(ls, 1, "[Interface]", "\nPrivateKey = ", "PrivateKey = ", p);
    var r2 := "[Interface]" + "\nPrivateKey = " + p;
    assert r2 == "[Interface]\nPrivateKey = " + p;
    StepLine(ls, 2, r2, "\nAddress = ", "Address = ", a);
    var r3 := r2 + "\nAddress = " + a;
    StepLine(ls, 3, r3, "\nListenPort = ", "ListenPort = ", n);
    var r4 := r3 + "\nListenPort = " + n;
    StepLine(ls, 4, r4, "\nDNS = ", "DNS = ", d);
  }

  /** The Sprintf template is the eleven lines, each ended by a newline. */
  lemma PeerTemplateIsLines(p: string, a: string, n: string, d: string,
                            s: string, k: string, i: string, e: string)
    ensures PeerTemplate(p, a, n, d, s, k, i, e) == JoinLines(TemplateLines(p, a, n, d, s, k, i, e))
  {
    var ls := TemplateLines(p, a, n, d, s, k, i, e);
    InterfaceSection(ls, p, a, n, d);
    var r5 := "[Interface]\nPrivateKey = " + p + "\nAddress = " + a + "\nListenPort = " + n + "\nDNS = " + d;
    StepPeerSection(ls, r5, s);
    var r8 := r5 + "\n\n[Peer]\nPublicKey = " + s;
    StepLine(ls, 8, r8, "\nPresharedKey = ", "PresharedKey = ", k);
    var r9 := r8 + "\nPresharedKey = " + k;
    StepLine(ls, 9, r9, "\nAllowedIPs = ", "AllowedIPs = ", i);
    var r10 := r9 + "\nAllowedIPs = " + i;
    StepLine(ls, 10, r10, "\nEndpoint = ", "Endpoint = ", e);
    assert ls[..11] == ls;
  }

  /** The rendered text has exactly eleven lines, each terminated by a
      newline: the two section headers, one "Name = value" line per field and
      a blank line between the sections at index 5. */
  lemma CreateConfigLines(c: WireGuardConfig)
    requires SingleLineFields(c)
    ensures Split(CreateConfig(c), '\n') == [
      "[Interface]",
      "PrivateKey = " + c.clientPrivateKey,
      "Address = " + c.clientAddress,
      "ListenPort = " + IntToDecimal(c.clientListenPort),
      "DNS = " + c.clientDns,
      "",
      "[Peer]",
      "PublicKey = " + c.serverPublicKey,
      "PresharedKey = " + c.serverPresharedKey,
      "AllowedIPs = " + Join(c.serverAllowedIps, ','),
      "Endpoint = " + c.serverEndpoint,
      ""]
  {
    var portText, allowedIps := IntToDecimal(c.clientListenPort), Join(c.serverAllowedIps, ',');
    var ls := TemplateLines(c.clientPrivateKey, c.clientAddress, portText, c.clientDns,
                            c.serverPublicKey, c.serverPresharedKey, allowedIps, c.serverEndpoint);
    JoinAvoids(c.serverAllowedIps, ',', '\n');
    assert forall i :: 0 <= i < |ls| ==> '\n' !in ls[i];
    SplitJoinLines(ls);
    PeerTemplateIsLines(c.clientPrivateKey, c.clientAddress, portText, c.clientDns,
                        c.serverPublicKey, c.serverPresharedKey, allowedIps, c.serverEndpoint);
  }

  /** The value after a fixed "Name = " prefix. */
  function StripPrefix(line: string, prefix: string): (r: Option<string>)
    ensures r.Some? <==> prefix <= line
    ensures r.Some? ==> line == prefix + r.value
  {
    if prefix <= line then Some(line[|prefix|..]) else None
  }

  lemma StripPrefixOf(prefix: string, x: string)
    ensures StripPrefix(prefix + x, prefix) == Some(x)
  {
    assert prefix <= prefix + x;
    assert (prefix + x)[|prefix|..] == x;
  }

  /** Reads the pieces of a split peer configuration: the exact line layout
      of CreateConfig, each field taken from its line after the fixed prefix. */
  function ParseLines(ls: seq<string>): Option<WireGuardConfig> {
    if |ls| != 12 || ls[0] != "[Interface]" || ls[5] != "" || ls[6] != "[Peer]" || ls[11] != "" then None
    else
      var privateKey := StripPrefix(ls[1], "PrivateKey = ");
      var address := StripPrefix(ls[2], "Address = ");
      var port := StripPrefix(ls[3], "ListenPort = ");
      var dns := StripPrefix(ls[4], "DNS = ");
      var publicKey := StripPrefix(ls[7], "PublicKey = ");
      var presharedKey := StripPrefix(ls[8], "PresharedKey = ");
      var allowedIps := StripPrefix(ls[9], "AllowedIPs = ");
      var endpoint := StripPrefix(ls[10], "Endpoint = ");
      if privateKey.None? || address.None? || port.None? || dns.None? || publicKey.None?
         || presharedKey.None? || allowedIps.None? || endpoint.None? then None
      else
        match ParseDecimal(port.value)
        case None => None
        case Some(portNumber) =>
          Some(WireGuardConfig(privateKey.value, address.value, portNumber, dns.value,
                               publicKey.value, presharedKey.value,
                               Split(allowedIps.value, ','), endpoint.value))
  }

  /** Reads a peer configuration text back. */
  function ParseConfig(text: string): Option<WireGuardConfig> {
    ParseLines(Split(text, '\n'))
  }

  /** Rendering then reading gives back every field, provided no field spans
      two lines and the allowed-IP list is non-empty with no comma inside an
      entry (otherwise the joined list cannot be split back). */
  lemma CreateConfigRoundTrip(c: WireGuardConfig)
    requires SingleLineFields(c)
    requires |c.serverAllowedIps| >= 1
    requires forall i :: 0 <= i < |c.serverAllowedIps| ==> ',' !in c.serverAllowedIps[i]
    ensures ParseConfig(CreateConfig(c)) == Some(c)
  {
    CreateConfigLines(c);
    ParseDecimalRoundTrip(c.clientListenPort);
    SplitJoin(c.serverAllowedIps, ',');
    StripPrefixOf("PrivateKey = ", c.clientPrivateKey);
    StripPrefixOf("Address = ", c.clientAddress);
    StripPrefixOf("ListenPort = ", IntToDecimal(c.clientListenPort));
    StripPrefixOf("DNS = ", c.clientDns);
    StripPrefixOf("PublicKey = ", c.serverPublicKey);
    StripPrefixOf("PresharedKey = ", c.serverPresharedKey);
    StripPrefixOf("AllowedIPs = ", Join(c.serverAllowedIps, ','));
    StripPrefixOf("Endpoint = ", c.serverEndpoint);
  }

  /** Two configurations the round trip covers render to the same text only
      if they are the same configuration. */
  lemma CreateConfigInjective(c: WireGuardConfig, d: WireGuardConfig)
    requires SingleLineFields(c) && SingleLineFields(d)
    requires |c.serverAllowedIps| >= 1 && |d.serverAllowedIps| >= 1
    requires forall i :: 0 <= i < |c.serverAllowedIps| ==> ',' !in c.serverAllowedIps[i]
    requires forall i :: 0 <= i < |d.serverAllowedIps| ==> ',' !in d.serverAllowedIps[i]
    ensures CreateConfig(c) == CreateConfig(d) ==> c == d
  {
    CreateConfigRoundTrip(c);
    CreateConfigRoundTrip(d);
  }
}
