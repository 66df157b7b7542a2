/**
 * The chat terminal (src/components/ChatTerminal.tsx): the `create --key value`
 * parser, the command dispatcher and the message log it appends to or replaces.
 *
 * The command handler is asynchronous: it awaits `onCreateTunnel` for a valid
 * create command. The model splits it at that await: `HandleCommand` runs up to
 * it and hands out the request, `CompleteCreate` runs after it with the outcome.
 */
module ChatTerminal {
  import opened Wrappers
  import opened Strings
  import opened TunnelTypes
  import EditTunnelModal

  // ---------------------------------------------------------------------------
  // Reading `--key value` pairs
  // ---------------------------------------------------------------------------

  /** Token `j` is a flag naming `key` and the token after it is a non-empty value. */
  predicate SetsKey(parts: seq<string>, j: nat, key: string)
    requires j < |parts|
  {
    StartsWith(parts[j], "--") && parts[j][2..] == key && j + 1 < |parts| && parts[j + 1] != ""
  }

  /** One turn of the flag loop at index `i`. */
  function FlagStep(args: map<string, string>, parts: seq<string>, i: nat): map<string, string>
    requires i < |parts|
  {
    if StartsWith(parts[i], "--") && i + 1 < |parts| && parts[i + 1] != "" then
      args[parts[i][2..] := parts[i + 1]]
    else
      args
  }

  /**
   * The arguments read by the loop that visits the odd indices below `i`
   * (1, 3, 5, ...). Only non-empty values are ever stored.
   */
  function FlagsBefore(parts: seq<string>, i: nat): (args: map<string, string>)
    requires i % 2 == 1 && i <= |parts| + 1
    ensures forall k :: k in args ==> args[k] != ""
  {
    if i < 3 then map[] else FlagStep(FlagsBefore(parts, i - 2), parts, i - 2)
  }

  /** The index at which the stride-2 loop stops: the first odd number not below `n`. */
  function LoopEnd(n: nat): (e: nat)
    ensures e % 2 == 1 && n <= e <= n + 1
  {
    if n % 2 == 1 then n else n + 1
  }

  /** The arguments once the flag loop has run over all of `parts`. */
  function Flags(parts: seq<string>): (args: map<string, string>)
    ensures forall k :: k in args ==> args[k] != ""
  {
    FlagsBefore(parts, LoopEnd(|parts|))
  }

  /**
   * A key the loop meets with a value is stored with the value of its last
   * occurrence: a later repeat of a flag overrides an earlier one.
   */
  lemma {:induction false} FlagLastWins(parts: seq<string>, i: nat, j: nat, key: string)
    requires i % 2 == 1 && i <= |parts| + 1
    requires j % 2 == 1 && j < i && SetsKey(parts, j, key)
    requires forall k :: j < k < i && k < |parts| && k % 2 == 1 ==> !SetsKey(parts, k, key)
    ensures key in FlagsBefore(parts, i) && FlagsBefore(parts, i)[key] == parts[j + 1]
  {
    if j < i - 2 {
      FlagLastWins(parts, i - 2, j, key);
      assert !SetsKey(parts, i - 2, key);
    }
  }

  /** A key that no visited flag sets with a value is absent. */
  lemma {:induction false} FlagAbsent(parts: seq<string>, i: nat, key: string)
    requires i % 2 == 1 && i <= |parts| + 1
    requires forall k :: 0 < k < i && k < |parts| && k % 2 == 1 ==> !SetsKey(parts, k, key)
    ensures key !in FlagsBefore(parts, i)
  {
    if i >= 3 {
      FlagAbsent(parts, i - 2, key);
      assert !SetsKey(parts, i - 2, key);
    }
  }

  /** Flags are read only at odd indices: a flag at an even index is a value or ignored. */
  lemma {:induction false} FlagsOnlyAtOddIndices(parts: seq<string>, i: nat, key: string)
    requires i % 2 == 1 && i <= |parts| + 1
    requires key in FlagsBefore(parts, i)
    ensures exists j :: 0 < j < i && j < |parts| && j % 2 == 1 && SetsKey(parts, j, key)
  {
    if forall k :: 0 < k < i && k < |parts| && k % 2 == 1 ==> !SetsKey(parts, k, key) {
      FlagAbsent(parts, i, key);
    }
  }

  // ---------------------------------------------------------------------------
  // From arguments to a create request
  // ---------------------------------------------------------------------------

  /** The terminal's `defaultPorts` table. */
  const TerminalDefaults: map<string, PortDefaults> := map[
    "rdp" := PortDefaults(3389, "rdp"),
    "ssh" := PortDefaults(22, "tcp"),
    "http" := PortDefaults(80, "http"),
    "https" := PortDefaults(443, "https"),
    "tcp" := PortDefaults(8080, "tcp"),
    "udp" := PortDefaults(8080, "udp")
  ]

  /** What a service type outside the table falls back to. */
  const FallbackDefaults: PortDefaults := PortDefaults(8080, "http")

  /** The terminal's table is the edit dialog's table, rdp mapping to protocol "rdp". */
  lemma TableIsEditDialogTable()
    ensures TerminalDefaults == EditTunnelModal.EditDefaults
  {
  }

  /** `args.key || fallback`; stored values are never empty, so presence is truthiness. */
  function FlagOr(args: map<string, string>, key: string, fallback: string): string {
    if key in args then args[key] else fallback
  }

  /** `parseInt(args.port) || fallback`: the parsed port unless it is missing, NaN or zero. */
  function PortOr(args: map<string, string>, fallback: int): (p: int)
    ensures "port" in args && ParseInt(args["port"]).Some? && ParseInt(args["port"]).value != 0 ==>
              p == ParseInt(args["port"]).value
    ensures "port" !in args || ParseInt(args["port"]).None? || ParseInt(args["port"]).value == 0 ==>
              p == fallback
  {
    if "port" in args then
      match ParseInt(args["port"])
      case Some(n) => if n != 0 then n else fallback
      case None => fallback
    else
      fallback
  }

  function ServiceTypeOf(args: map<string, string>): string {
    FlagOr(args, "type", FlagOr(args, "service", "http"))
  }

  function DefaultsFor(serviceType: string): PortDefaults {
    if serviceType in TerminalDefaults then TerminalDefaults[serviceType] else FallbackDefaults
  }

  /** The request built from the arguments: null (None) without a name or a hostname. */
  function FromFlags(args: map<string, string>): (r: Option<CreateTunnelData>)
    ensures r.Some? <==> "name" in args && "hostname" in args
  {
    var serviceType := ServiceTypeOf(args);
    var defaults := DefaultsFor(serviceType);
    if "name" !in args || "hostname" !in args then None
    else
      Some(CreateTunnelData(
        args["name"], serviceType, args["hostname"],
        PortOr(args, defaults.port),
        FlagOr(args, "host", "localhost"),
        FlagOr(args, "protocol", defaults.protocol)))
  }

  /** `parseCommand` on the tokens of the trimmed command. */
  function ParseParts(parts: seq<string>): (r: Option<CreateTunnelData>)
    requires |parts| >= 1
  {
    if parts[0] != "create" then None else FromFlags(Flags(parts))
  }

  /** `parseCommand(command)`. */
  function ParsedCommand(command: string): Option<CreateTunnelData> {
    ParseParts(Split(Trim(command)))
  }

  /**
   * `parseCommand`: the stride-2 loop over the tokens of the trimmed command,
   * then the defaults.
   */
  method ParseCommand(command: string) returns (r: Option<CreateTunnelData>)
    ensures r == ParsedCommand(command)
  {
    var parts := Split(Trim(command));
    if parts[0] != "create" {
      return None;
    }
    var args: map<string, string> := map[];
    var i := 1;
    while i < |parts|
      invariant i % 2 == 1 && 1 <= i <= |parts| + 1
      invariant args == FlagsBefore(parts, i)
      decreases |parts| + 1 - i
    {
      assert FlagsBefore(parts, i + 2) == FlagStep(args, parts, i);
      if StartsWith(parts[i], "--") {
        var key := parts[i][2..];
        if i + 1 < |parts| && parts[i + 1] != "" {
          args := args[key := parts[i + 1]];
        }
      }
      i := i + 2;
    }
    assert i == LoopEnd(|parts|);
    r := FromFlags(args);
  }

  /** Anything whose first token is not exactly "create" is not a request. */
  lemma NotCreateIsNull(command: string)
    requires Split(Trim(command))[0] != "create"
    ensures ParsedCommand(command) == None
  {
  }

  /**
   * A parsed request copies name and hostname verbatim and takes every other
   * field from its flag, or else from the defaults.
   */
  lemma ParsedFields(parts: seq<string>)
    requires |parts| >= 1 && ParseParts(parts).Some?
    ensures var args, d := Flags(parts), ParseParts(parts).value;
      && parts[0] == "create"
      && d.name == args["name"] && d.hostname == args["hostname"]
      && ("type" in args ==> d.serviceType == args["type"])
      && ("type" !in args && "service" in args ==> d.serviceType == args["service"])
      && ("type" !in args && "service" !in args ==> d.serviceType == "http")
      && d.localHost == (if "host" in args then args["host"] else "localhost")
      && ("protocol" in args ==> d.protocol == args["protocol"])
  {
  }

  /** Without a usable `--port` or `--protocol`, a table type gets its table row. */
  lemma TableTypeDefaults(parts: seq<string>)
    requires |parts| >= 1 && ParseParts(parts).Some?
    requires ParseParts(parts).value.serviceType in TerminalDefaults
    requires "port" !in Flags(parts) && "protocol" !in Flags(parts)
    ensures var d := ParseParts(parts).value;
      d.localPort == TerminalDefaults[d.serviceType].port
      && d.protocol == TerminalDefaults[d.serviceType].protocol
  {
  }

  /** A service type outside the table falls back to port 8080 and protocol "http". */
  lemma UnknownTypeFallsBack(parts: seq<string>)
    requires |parts| >= 1 && ParseParts(parts).Some?
    requires ParseParts(parts).value.serviceType !in TerminalDefaults
    requires "protocol" !in Flags(parts)
    ensures ParseParts(parts).value.protocol == "http"
    ensures "port" !in Flags(parts) ==> ParseParts(parts).value.localPort == 8080
  {
  }

  /** `--port 0` counts as no port: zero is falsy. */
  lemma ZeroPortTakesDefault(parts: seq<string>)
    requires |parts| >= 1 && ParseParts(parts).Some?
    requires "port" in Flags(parts) && ParseInt(Flags(parts)["port"]) == Some(0)
    ensures ParseParts(parts).value.localPort == DefaultsFor(ParseParts(parts).value.serviceType).port
  {
  }

  /** Typed with single spaces, tokens come back from `trim().split(' ')` unchanged. */
  lemma TypedTokens(parts: seq<string>)
    requires |parts| >= 1 && parts[0] != [] && parts[|parts| - 1] != []
    requires !IsWhitespace(parts[0][0]) && !IsWhitespace(parts[|parts| - 1][|parts[|parts| - 1]| - 1])
    requires forall i :: 0 <= i < |parts| ==> ' ' !in parts[i]
    ensures Split(Trim(Join(parts))) == parts
  {
    JoinEnds(parts);
    TrimNoop(Join(parts));
    SplitJoin(parts);
  }

  /** The tokens of the first example in the help text. */
  const RdpExampleTokens: seq<string> :=
    ["create", "--name", "rdp-server", "--hostname", "rdp.example.com", "--type", "rdp"]

  /** The flag loop reads the first example's three flags. */
  lemma RdpExampleFlags()
    ensures Flags(RdpExampleTokens)
         == map["name" := "rdp-server", "hostname" := "rdp.example.com", "type" := "rdp"]
  {
    var parts := RdpExampleTokens;
    var m1 := map["name" := "rdp-server"];
    var m2 := m1["hostname" := "rdp.example.com"];
    assert FlagsBefore(parts, 3) == m1 by {
      assert parts[1] == "--name" && parts[2] == "rdp-server";
      assert "--name"[2..] == "name";
    }
    assert FlagsBefore(parts, 5) == m2 by {
      assert parts[3] == "--hostname" && parts[4] == "rdp.example.com";
      assert "--hostname"[2..] == "hostname";
    }
    assert parts[5] == "--type" && parts[6] == "rdp";
    assert "--type"[2..] == "type";
  }

  /** The first example's tokens parse to an rdp tunnel with the table's port and protocol "rdp". */
  lemma RdpExampleParts()
    ensures ParseParts(RdpExampleTokens)
         == Some(CreateTunnelData("rdp-server", "rdp", "rdp.example.com", 3389, "localhost", "rdp"))
  {
    RdpExampleFlags();
    assert DefaultsFor("rdp") == PortDefaults(3389, "rdp");
  }

  /** The first example of the help text, typed as its tokens separated by single spaces. */
  lemma RdpHelpExample()
    ensures ParsedCommand(Join(RdpExampleTokens))
         == Some(CreateTunnelData("rdp-server", "rdp", "rdp.example.com", 3389, "localhost", "rdp"))
  {
    TypedTokens(RdpExampleTokens);
    RdpExampleParts();
  }

  /**
   * A double space puts an empty token between a flag and its value; the
   * stride-2 loop then reads the value where a flag belongs, the name is lost
   * and the parse is null.
   */
  const DoubleSpaceTokens: seq<string> := ["create", "--name", "", "web", "--hostname", "h"]

  lemma DoubleSpaceLosesFlags()
    ensures ParsedCommand(Join(DoubleSpaceTokens)) == None
  {
    var parts := DoubleSpaceTokens;
    TypedTokens(parts);
    assert !StartsWith("web", "--") by {
      assert "web"[..2][0] != "--"[0];
    }
    assert !StartsWith("h", "--");
    assert FlagsBefore(parts, 3) == map[];
    assert FlagsBefore(parts, 5) == map[];
    assert Flags(parts) == map[];
  }

  // ---------------------------------------------------------------------------
  // Messages and dispatch
  // ---------------------------------------------------------------------------

  datatype MessageKind = User | System | Error | Success

  /** What a log entry says; `Text` gives the exact wording. */
  datatype Note =
    | Welcome
    | Help
    | Cleared
    | InvalidSyntax
    | CreateFailed
    | CreateAnother
    | Prompt(command: string)
    | UnknownCommand(command: string)
    | Created(name: string)

  /** A log entry; its id and timestamp are not modelled. */
  datatype Message = Message(kind: MessageKind, note: Note)

  /** The text the terminal shows for a note. */
  function Text(n: Note): string {
    match n
    case Welcome => "Welcome to Tunnel Terminal! Type \"help\" for available commands."
    case Help =>
      "Available commands:\n"
      + "\U{2022} help - Show this help message\n"
      + "\U{2022} create --name <name> --hostname <hostname> [options] - Create a new tunnel\n"
      + "\U{2022} clear - Clear terminal\n"
      + "\n"
      + "Create tunnel options:\n"
      + "--name <name>        Tunnel name (required)\n"
      + "--hostname <host>    Public hostname (required)\n"
      + "--type <type>        Service type (rdp, ssh, http, https, tcp, udp)\n"
      + "--port <port>        Local port number\n"
      + "--host <host>        Local host (default: localhost)\n"
      + "--protocol <proto>   Protocol override\n"
      + "\n"
      + "Examples:\n"
      + "$ create --name rdp-server --hostname rdp.example.com --type rdp\n"
      + "$ create --name web-app --hostname app.example.com --type http --port 3000\n"
      + "$ create --name ssh-server --hostname ssh.example.com --type ssh --port 2222"
    case Cleared => "Terminal cleared. Type \"help\" for available commands."
    case InvalidSyntax => "Invalid command syntax. Use: create --name <name> --hostname <hostname> [options]"
    case CreateFailed => "Failed to create tunnel. Please check your input and try again."
    case CreateAnother => "You can close this terminal or create another tunnel."
    case Prompt(command) => "$ " + command
    case UnknownCommand(command) => "Unknown command: " + command + ". Type \"help\" for available commands."
    case Created(name) => "\U{2713} Tunnel \"" + name + "\" created successfully!"
  }

  /** The echo of a command: the command as typed, after a "$ " prompt. */
  function Echo(command: string): Message {
    Message(User, Prompt(command))
  }

  /** Which branch of the command handler a command takes. */
  datatype Dispatch = ShowHelp | ClearLog | CreateTunnel(data: CreateTunnelData) | BadSyntax | Ignore | Unknown

  /**
   * "help" and "clear" are compared with the trimmed, lower-cased command;
   * "create " is a case-sensitive prefix test on the command as given.
   */
  function DispatchOf(command: string): Dispatch {
    var cmd := ToLower(Trim(command));
    if cmd == "help" then ShowHelp
    else if cmd == "clear" then ClearLog
    else if StartsWith(command, "create ") then
      match ParsedCommand(command)
      case Some(d) => CreateTunnel(d)
      case None => BadSyntax
    else if cmd == "" then Ignore
    else Unknown
  }

  /** The log once the handler has run up to its end, or up to the await of a create. */
  function LogAfter(log: seq<Message>, command: string): (r: seq<Message>)
    ensures DispatchOf(command) == ClearLog ==> r == [Message(System, Cleared)]
    ensures DispatchOf(command) != ClearLog ==> |r| > |log| && r[..|log| + 1] == log + [Echo(command)]
  {
    var echoed := log + [Echo(command)];
    match DispatchOf(command)
    case ShowHelp => echoed + [Message(System, Help)]
    case ClearLog => [Message(System, Cleared)]
    case CreateTunnel(_) => echoed
    case BadSyntax => echoed + [Message(Error, InvalidSyntax)]
    case Ignore => echoed
    case Unknown => echoed + [Message(Error, UnknownCommand(command))]
  }

  /** The log once the awaited create has succeeded or failed. */
  function LogAfterCreate(log: seq<Message>, name: string, created: bool): (r: seq<Message>)
    ensures |r| == |log| + (if created then 2 else 1) && r[..|log|] == log
    ensures created ==> r[|log|..] == [Message(Success, Created(name)), Message(System, CreateAnother)]
    ensures !created ==> r[|log|..] == [Message(Error, CreateFailed)]
  {
    if created then log + [Message(Success, Created(name)), Message(System, CreateAnother)]
    else log + [Message(Error, CreateFailed)]
  }

  /** The handler's branches, in its own order, and the log each one leaves. */
  lemma DispatchBranches(log: seq<Message>, command: string)
    ensures var cmd := ToLower(Trim(command));
      && (cmd == "help" ==>
            DispatchOf(command) == ShowHelp && LogAfter(log, command) == log + [Echo(command)] + [Message(System, Help)])
      && (cmd != "help" && cmd == "clear" ==>
            DispatchOf(command) == ClearLog && LogAfter(log, command) == [Message(System, Cleared)])
      && (cmd != "help" && cmd != "clear" && StartsWith(command, "create ") && ParsedCommand(command).None? ==>
            DispatchOf(command) == BadSyntax
            && LogAfter(log, command) == log + [Echo(command)] + [Message(Error, InvalidSyntax)])
      && (cmd != "help" && cmd != "clear" && StartsWith(command, "create ") && ParsedCommand(command).Some? ==>
            DispatchOf(command) == CreateTunnel(ParsedCommand(command).value)
            && LogAfter(log, command) == log + [Echo(command)])
      && (cmd != "help" && cmd != "clear" && !StartsWith(command, "create ") && cmd == "" ==>
            DispatchOf(command) == Ignore && LogAfter(log, command) == log + [Echo(command)])
      && (cmd != "help" && cmd != "clear" && !StartsWith(command, "create ") && cmd != "" ==>
            DispatchOf(command) == Unknown
            && LogAfter(log, command) == log + [Echo(command)] + [Message(Error, UnknownCommand(command))])
  {
    var cmd := ToLower(Trim(command));
    if cmd == "help" {
    } else if cmd == "clear" {
    } else if StartsWith(command, "create ") {
      if ParsedCommand(command).None? {
      } else {
      }
    } else if cmd == "" {
    } else {
    }
  }

  /** Case does not matter to "help": any mix of cases, with blanks around it. */
  lemma HelpIgnoresCase(command: string)
    requires ToLower(Trim(command)) == "help"
    ensures DispatchOf(command) == ShowHelp
    ensures LogAfter([], command) == [Echo(command), Message(System, Help)]
  {
  }

  /**
   * Whether a command is "help" or "clear" depends only on its trimmed,
   * lower-cased text: " HELP", "help" and "Help " are handled alike.
   */
  lemma HelpAndClearDependOnlyOnLowerCase(a: string, b: string)
    requires ToLower(Trim(a)) == ToLower(Trim(b))
    ensures DispatchOf(a) == ShowHelp <==> DispatchOf(b) == ShowHelp
    ensures DispatchOf(a) == ClearLog <==> DispatchOf(b) == ClearLog
  {
  }

  /** " HeLP " is the help command. */
  lemma MixedCaseHelp()
    ensures DispatchOf(" HeLP ") == ShowHelp
  {
    assert TrimStart(" HeLP ") == "HeLP " by {
      assert " HeLP "[1..] == "HeLP ";
    }
    assert TrimEnd("HeLP ") == "HeLP" by {
      assert "HeLP "[..4] == "HeLP";
    }
    var l := ToLower("HeLP");
    assert l[0] == 'h' && l[1] == 'e' && l[2] == 'l' && l[3] == 'p';
    HelpIgnoresCase(" HeLP ");
  }

  /**
   * A command starting with "create " always goes to the parser: it can never
   * read as "help", "clear" or an empty command.
   */
  lemma CreatePrefixGoesToParser(command: string)
    requires StartsWith(command, "create ")
    ensures ParsedCommand(command).None? ==> DispatchOf(command) == BadSyntax
    ensures ParsedCommand(command).Some? ==> DispatchOf(command) == CreateTunnel(ParsedCommand(command).value)
  {
    assert command[..7] == "create ";
    assert TrimStart(command) == command;
    TrimSpec(command);
    var t := Trim(command);
    assert t == command[..|t|];
    assert !IsWhitespace(command[5]);
    assert |t| >= 6;
    assert t[1] == 'r';
    assert ToLower(t)[1] == 'r';
    assert ToLower(t) != "clear" by {
      assert "clear"[1] == 'l';
    }
  }

  /** "create" is matched case-sensitively: "Create ..." is an unknown command. */
  lemma CapitalisedCreateIsUnknown()
    ensures DispatchOf("Create --name a --hostname b") == Unknown
  {
    var c := "Create --name a --hostname b";
    TrimNoop(c);
    assert |ToLower(Trim(c))| == 28;
    assert !StartsWith(c, "create ") by {
      assert c[0] != "create "[0];
    }
  }

  /** Without the space, "create" is no create command either. */
  lemma BareCreateIsUnknown()
    ensures DispatchOf("create") == Unknown
  {
    TrimNoop("create");
    assert ToLower("create") == "create";
  }

  /** Any non-blank command that is not help, clear or a create is an unknown command. */
  lemma UnknownCommandReported(command: string)
    requires ToLower(Trim(command)) !in {"help", "clear", ""}
    requires !StartsWith(command, "create ")
    ensures LogAfter([], command) == [Echo(command), Message(Error, UnknownCommand(command))]
  {
  }

  // ---------------------------------------------------------------------------
  // The component state
  // ---------------------------------------------------------------------------

  class Terminal {
    var messages: seq<Message>
    var input: string
    var isProcessing: bool
    /** The request handed to `onCreateTunnel` while its answer is awaited. */
    var pending: Option<CreateTunnelData>

    /** The handler is in flight exactly while a create is awaited. */
    ghost predicate Valid()
      reads this
    {
      isProcessing <==> pending.Some?
    }

    constructor ()
      ensures Valid()
      ensures messages == [Message(System, Welcome)]
      ensures input == "" && !isProcessing
    {
      messages := [Message(System, Welcome)];
      input := "";
      isProcessing := false;
      pending := None;
    }

    /** `addMessage`: appends one entry to the log. */
    method AddMessage(kind: MessageKind, note: Note)
      modifies this
      ensures messages == old(messages) + [Message(kind, note)]
      ensures input == old(input) && isProcessing == old(isProcessing) && pending == old(pending)
    {
      messages := messages + [Message(kind, note)];
    }

    method SetInput(value: string)
      modifies this
      ensures input == value
      ensures messages == old(messages) && isProcessing == old(isProcessing) && pending == old(pending)
    {
      input := value;
    }

    /**
     * `handleCommand` up to its end, or for a valid create up to the await: the
     * request returned is what `onCreateTunnel` receives. It is reached only from
     * `handleSubmit`, which refuses to run while a command is processing.
     */
    method HandleCommand(command: string) returns (request: Option<CreateTunnelData>)
      requires Valid() && !isProcessing
      modifies this
      ensures Valid()
      ensures messages == LogAfter(old(messages), command)
      ensures DispatchOf(command).CreateTunnel? ==>
                request == Some(DispatchOf(command).data) && pending == request && isProcessing
      ensures !DispatchOf(command).CreateTunnel? ==> request == None && !isProcessing
      ensures input == old(input)
    {
      DispatchBranches(messages, command);
      isProcessing := true;
      AddMessage(User, Prompt(command));
      var cmd := ToLower(Trim(command));
      request := None;
      if cmd == "help" {
        AddMessage(System, Help);
      } else if cmd == "clear" {
        messages := [Message(System, Cleared)];
      } else if StartsWith(command, "create ") {
        var tunnelData := ParseCommand(command);
        if tunnelData.None? {
          AddMessage(Error, InvalidSyntax);
        } else {
          request := tunnelData;
        }
      } else if cmd == "" {
      } else {
        AddMessage(Error, UnknownCommand(command));
      }
      pending := request;
      isProcessing := request.Some?;
    }

    /** The rest of `handleCommand` once `onCreateTunnel` has resolved or thrown. */
    method CompleteCreate(created: bool)
      requires Valid() && isProcessing
      modifies this
      ensures Valid() && !isProcessing
      ensures messages == LogAfterCreate(old(messages), old(pending).value.name, created)
      ensures input == old(input)
    {
      var name := pending.value.name;
      if created {
        AddMessage(Success, Created(name));
        AddMessage(System, CreateAnother);
      } else {
        AddMessage(Error, CreateFailed);
      }
      isProcessing := false;
      pending := None;
    }

    /**
     * `handleSubmit`: a blank input, or a command still processing, does nothing;
     * otherwise the trimmed input is handled and the input box is cleared.
     */
    method Submit() returns (request: Option<CreateTunnelData>)
      requires Valid()
      modifies this
      ensures Valid()
      ensures Trim(old(input)) == "" || old(isProcessing) ==>
                request == None && messages == old(messages) && input == old(input)
                && isProcessing == old(isProcessing) && pending == old(pending)
      ensures Trim(old(input)) != "" && !old(isProcessing) ==>
                var c := Trim(old(input));
                && messages == LogAfter(old(messages), c) && input == ""
                && request == (if DispatchOf(c).CreateTunnel? then Some(DispatchOf(c).data) else None)
                && pending == request && isProcessing == request.Some?
    {
      request := None;
      var command := Trim(input);
      if command != "" && !isProcessing {
        request := HandleCommand(command);
        SetInput("");
      }
    }
  }
}
