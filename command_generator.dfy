/**
 * The command generator behind GET /:id/commands. Two variants exist in the
 * repository: the server's (backend/routes/tunnels.ts), which renders an
 * `access` invocation for RDP and TCP records, and the older one
 * (src/api/routes/tunnels.ts), which always renders the generic run command.
 * Both are pure functions of the record's business fields.
 */
module CommandGenerator {
  import opened Strings
  import opened TunnelTypes

  /** `localHost:localPort` as a template literal renders it. */
  function Endpoint(t: Tunnel): string {
    t.localHost + ":" + IntToString(t.localPort)
  }

  /** The first special case: either field names RDP. */
  predicate IsRdp(t: Tunnel) {
    t.serviceType == "rdp" || t.protocol == "rdp"
  }

  /** The second special case: either field names TCP. */
  predicate IsTcp(t: Tunnel) {
    t.serviceType == "tcp" || t.protocol == "tcp"
  }

  function ConfigCommand(t: Tunnel): string {
    "cloudflared tunnel create " + t.name
  }

  /** The `--url` value of the generic command; the http/https test has two identical arms. */
  function ServiceUrl(t: Tunnel): string {
    if t.protocol == "http" || t.protocol == "https" then
      t.protocol + "://" + Endpoint(t)
    else
      t.protocol + "://" + Endpoint(t)
  }

  /** The generic run-tunnel invocation. */
  function TunnelRunCommand(t: Tunnel): string {
    "cloudflared tunnel --hostname " + t.hostname + " run " + t.name + " --url " + ServiceUrl(t)
  }

  function RdpAccessCommand(t: Tunnel): string {
    "cloudflared access rdp --hostname " + t.hostname + " --url rdp://" + Endpoint(t)
  }

  function TcpAccessCommand(t: Tunnel): string {
    "cloudflared access tcp --hostname " + t.hostname + " --url " + Endpoint(t)
  }

  /** The server's generator: RDP first, then TCP, otherwise the generic command. */
  function Generate(t: Tunnel): TunnelCommands {
    var run :=
      if IsRdp(t) then RdpAccessCommand(t)
      else if IsTcp(t) then TcpAccessCommand(t)
      else TunnelRunCommand(t);
    TunnelCommands(ConfigCommand(t), run)
  }

  /** The older generator: always the generic command. */
  function GenerateLegacy(t: Tunnel): TunnelCommands {
    TunnelCommands(ConfigCommand(t), TunnelRunCommand(t))
  }

  // ---------------------------------------------------------------------------
  // Properties
  // ---------------------------------------------------------------------------

  /** The configuration command names the tunnel and nothing else, in both variants. */
  lemma ConfigCommandIsFixed(t: Tunnel)
    ensures Generate(t).configCommand == "cloudflared tunnel create " + t.name
    ensures GenerateLegacy(t).configCommand == Generate(t).configCommand
  {
  }

  /** The configuration command determines the tunnel name. */
  lemma ConfigCommandDeterminesName(t1: Tunnel, t2: Tunnel)
    requires Generate(t1).configCommand == Generate(t2).configCommand
    ensures t1.name == t2.name
  {
    var prefix := "cloudflared tunnel create ";
    assert t1.name == Generate(t1).configCommand[|prefix|..];
    assert t2.name == Generate(t2).configCommand[|prefix|..];
  }

  /** Whatever the protocol, the generic `--url` is `protocol://localHost:localPort`. */
  lemma ServiceUrlIsOneFormula(t: Tunnel)
    ensures ServiceUrl(t) == t.protocol + "://" + t.localHost + ":" + IntToString(t.localPort)
  {
  }

  /** The server's run command, by the fixed order of its cases. */
  lemma RunCommandByPrecedence(t: Tunnel)
    ensures IsRdp(t) ==>
      Generate(t).runCommand == "cloudflared access rdp --hostname " + t.hostname
        + " --url rdp://" + t.localHost + ":" + IntToString(t.localPort)
    ensures !IsRdp(t) && IsTcp(t) ==>
      Generate(t).runCommand == "cloudflared access tcp --hostname " + t.hostname
        + " --url " + t.localHost + ":" + IntToString(t.localPort)
    ensures !IsRdp(t) && !IsTcp(t) ==>
      Generate(t).runCommand == "cloudflared tunnel --hostname " + t.hostname + " run " + t.name
        + " --url " + t.protocol + "://" + t.localHost + ":" + IntToString(t.localPort)
  {
  }

  /** The older generator ignores service type and protocol when choosing the template. */
  lemma LegacyRunCommandIsGeneric(t: Tunnel)
    ensures GenerateLegacy(t).runCommand ==
      "cloudflared tunnel --hostname " + t.hostname + " run " + t.name + " --url " + t.protocol + "://" + t.localHost + ":" + IntToString(t.localPort)
  {
  }

  /** The character at `|"cloudflared "|` tells an access command from a run-tunnel command. */
  lemma CommandKindMark(t: Tunnel)
    ensures |RdpAccessCommand(t)| > 12 && RdpAccessCommand(t)[12] == 'a'
    ensures |TcpAccessCommand(t)| > 12 && TcpAccessCommand(t)[12] == 'a'
    ensures |TunnelRunCommand(t)| > 12 && TunnelRunCommand(t)[12] == 't'
  {
    var rdp := "cloudflared access rdp --hostname ";
    var tcp := "cloudflared access tcp --hostname ";
    var run := "cloudflared tunnel --hostname ";
    assert RdpAccessCommand(t) == rdp + (t.hostname + " --url rdp://" + Endpoint(t));
    assert TcpAccessCommand(t) == tcp + (t.hostname + " --url " + Endpoint(t));
    assert TunnelRunCommand(t) == run + (t.hostname + " run " + t.name + " --url " + ServiceUrl(t));
  }

  /**
   * The two variants produce the same pair exactly when neither service type nor
   * protocol is "rdp" or "tcp".
   */
  lemma VariantsAgreeIffNoAccessCase(t: Tunnel)
    ensures Generate(t) == GenerateLegacy(t) <==> !IsRdp(t) && !IsTcp(t)
  {
    CommandKindMark(t);
  }

  /** The generator reads only the six business fields: id, owner and timestamps do not matter. */
  lemma GenerateIgnoresBookkeeping(t: Tunnel, id: string, userId: string, createdAt: nat, updatedAt: nat)
    ensures Generate(t.(id := id, userId := userId, createdAt := createdAt, updatedAt := updatedAt)) == Generate(t)
    ensures GenerateLegacy(t.(id := id, userId := userId, createdAt := createdAt, updatedAt := updatedAt)) == GenerateLegacy(t)
  {
  }

  /** The text the server's generator puts before `localHost:localPort`. */
  function BeforeEndpoint(t: Tunnel): string {
    if IsRdp(t) then "cloudflared access rdp --hostname " + t.hostname + " --url rdp://"
    else if IsTcp(t) then "cloudflared access tcp --hostname " + t.hostname + " --url "
    else LegacyBeforeEndpoint(t)
  }

  /** The text the generic command puts before `localHost:localPort`. */
  function LegacyBeforeEndpoint(t: Tunnel): string {
    "cloudflared tunnel --hostname " + t.hostname + " run " + t.name + " --url " + (t.protocol + "://")
  }

  /** Concatenation regrouped. */
  lemma Assoc(a: string, b: string, c: string)
    ensures a + (b + c) == a + b + c
  {
  }

  /** A common prefix cancels. */
  lemma CancelPrefix(p: string, x: string, y: string)
    requires p + x == p + y
    ensures x == y
  {
    assert x == (p + x)[|p|..];
    assert y == (p + y)[|p|..];
  }

  /** Both run commands end with the port, after a text that does not depend on it. */
  lemma RunCommandEndsWithPort(t: Tunnel)
    ensures Generate(t).runCommand == BeforeEndpoint(t) + (t.localHost + ":") + IntToString(t.localPort)
    ensures GenerateLegacy(t).runCommand == LegacyBeforeEndpoint(t) + (t.localHost + ":") + IntToString(t.localPort)
  {
    var n := IntToString(t.localPort);
    var e := t.localHost + ":";
    var g := "cloudflared tunnel --hostname " + t.hostname + " run " + t.name + " --url ";
    Assoc(g, t.protocol + "://", Endpoint(t));
    Assoc(LegacyBeforeEndpoint(t), e, n);
    assert GenerateLegacy(t).runCommand == LegacyBeforeEndpoint(t) + e + n;
    Assoc(BeforeEndpoint(t), e, n);
  }

  /**
   * The run command determines the local port: two records that differ only in
   * the port get different run commands, from either generator.
   */
  lemma RunCommandDeterminesPort(t: Tunnel, port: int)
    ensures Generate(t.(localPort := port)).runCommand == Generate(t).runCommand ==> port == t.localPort
    ensures GenerateLegacy(t.(localPort := port)).runCommand == GenerateLegacy(t).runCommand ==> port == t.localPort
  {
    var u := t.(localPort := port);
    RunCommandEndsWithPort(t);
    RunCommandEndsWithPort(u);
    var e := t.localHost + ":";
    if Generate(u).runCommand == Generate(t).runCommand {
      CancelPrefix(BeforeEndpoint(t) + e, IntToString(port), IntToString(t.localPort));
      IntToStringInjective(port, t.localPort);
    }
    if GenerateLegacy(u).runCommand == GenerateLegacy(t).runCommand {
      CancelPrefix(LegacyBeforeEndpoint(t) + e, IntToString(port), IntToString(t.localPort));
      IntToStringInjective(port, t.localPort);
    }
  }

  // ---------------------------------------------------------------------------
  // Worked records
  // ---------------------------------------------------------------------------

  lemma Port3000()
    ensures IntToString(3000) == "3000"
  {
    assert NatToString(3) == "3";
    assert NatToString(30) == "30";
    assert NatToString(300) == "300";
  }

  lemma Port3389()
    ensures IntToString(3389) == "3389"
  {
    assert NatToString(3) == "3";
    assert NatToString(33) == "33";
    assert NatToString(338) == "338";
  }

  lemma Endpoint3000(t: Tunnel)
    requires t.localHost == "localhost" && t.localPort == 3000
    ensures Endpoint(t) == "localhost:3000"
  {
    Port3000();
  }

  lemma Endpoint3389(t: Tunnel)
    requires t.localHost == "localhost" && t.localPort == 3389
    ensures Endpoint(t) == "localhost:3389"
  {
    Port3389();
  }

  /** An HTTP record on localhost:3000 gets the generic command with an http:// URL, in both variants. */
  lemma HttpRecordCommands(t: Tunnel)
    requires t.serviceType == "http" && t.protocol == "http"
    requires t.localHost == "localhost" && t.localPort == 3000
    ensures Generate(t) == GenerateLegacy(t)
    ensures Generate(t).runCommand
         == "cloudflared tunnel --hostname " + t.hostname + " run " + t.name + " --url http://localhost:3000"
  {
    Endpoint3000(t);
    var head := "cloudflared tunnel --hostname " + t.hostname + " run " + t.name;
    assert " --url " + "http" + "://" + "localhost:3000" == " --url http://localhost:3000";
    assert head + " --url " + "http" + "://" + "localhost:3000" == head + (" --url " + "http" + "://" + "localhost:3000");
  }

  /** An RDP record on localhost:3389 gets an access command from the server's generator. */
  lemma RdpRecordCommands(t: Tunnel)
    requires t.serviceType == "rdp" && t.protocol == "rdp"
    requires t.localHost == "localhost" && t.localPort == 3389
    ensures Generate(t).runCommand == "cloudflared access rdp --hostname " + t.hostname + " --url rdp://localhost:3389"
  {
    Endpoint3389(t);
    var access := "cloudflared access rdp --hostname " + t.hostname;
    assert " --url rdp://" + "localhost:3389" == " --url rdp://localhost:3389";
    assert access + " --url rdp://" + "localhost:3389" == access + (" --url rdp://" + "localhost:3389");
  }

  /** The older generator gives the same RDP record the generic run command. */
  lemma RdpRecordLegacyCommands(t: Tunnel)
    requires t.serviceType == "rdp" && t.protocol == "rdp"
    requires t.localHost == "localhost" && t.localPort == 3389
    ensures GenerateLegacy(t).runCommand
         == "cloudflared tunnel --hostname " + t.hostname + " run " + t.name + " --url rdp://localhost:3389"
  {
    Endpoint3389(t);
    var head := "cloudflared tunnel --hostname " + t.hostname + " run " + t.name;
    assert " --url " + "rdp" + "://" + "localhost:3389" == " --url rdp://localhost:3389";
    assert head + " --url " + "rdp" + "://" + "localhost:3389" == head + (" --url " + "rdp" + "://" + "localhost:3389");
  }

  /** The RDP case is checked first: service type tcp with protocol rdp takes the RDP branch. */
  lemma RdpProtocolBeatsTcpServiceType(t: Tunnel)
    requires t.serviceType == "tcp" && t.protocol == "rdp"
    ensures Generate(t).runCommand == RdpAccessCommand(t)
    ensures Generate(t).runCommand != TcpAccessCommand(t)
  {
    var rdp := "cloudflared access rdp --hostname ";
    var tcp := "cloudflared access tcp --hostname ";
    assert RdpAccessCommand(t)[19] == rdp[19] by {
      assert RdpAccessCommand(t) == rdp + (t.hostname + " --url rdp://" + Endpoint(t));
    }
    assert TcpAccessCommand(t)[19] == tcp[19] by {
      assert TcpAccessCommand(t) == tcp + (t.hostname + " --url " + Endpoint(t));
    }
  }

  /** A TCP record on localhost:3000 gets an access URL without a scheme. */
  lemma TcpRecordCommands(t: Tunnel)
    requires t.serviceType == "tcp" && t.protocol == "tcp"
    requires t.localHost == "localhost" && t.localPort == 3000
    ensures Generate(t).runCommand == "cloudflared access tcp --hostname " + t.hostname + " --url localhost:3000"
  {
    Endpoint3000(t);
    var access := "cloudflared access tcp --hostname " + t.hostname;
    assert " --url " + "localhost:3000" == " --url localhost:3000";
    assert access + " --url " + "localhost:3000" == access + (" --url " + "localhost:3000");
  }
}
