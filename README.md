# Cloudflare tunnel manager: a Dafny model of its core

The system is a small web application. Each user keeps a list of Cloudflare tunnel records: a
name, a service type, a public hostname, a local host and port, and a protocol. For each record
it renders the two `cloudflared` shell commands that set up and run that tunnel.

This project models the parts of the system that decide behaviour:

- **The tunnel routes** (`TunnelStore`). The older API and the server both work on
  one owner-scoped record store:
  - listing, newest first;
  - create and update, each with its all-fields guard and `parseInt` port coercion;
  - delete;
  - the ownership check behind every per-id route.
- **The command generator** (`CommandGenerator`), in both of its variants:
  - the server's, which renders `cloudflared access rdp|tcp` for RDP and TCP records, RDP first;
  - the older one, which always renders the generic `cloudflared tunnel ... run` command.
- **The chat terminal** (`ChatTerminal`):
  - the `create --key value` parser: `trim().split(' ')`, a loop over every second token, then the defaults;
  - the command dispatcher;
  - the message log it appends to or replaces;
  - the submit guard.
- **The two forms**:
  - the create form (`TunnelForm`): its defaults table and a submit that resets it;
  - the edit dialog (`EditTunnelModal`): a form taken from a tunnel, its own table, and a submit that keeps the tunnel's id.
- **The dashboard state** (`App`): the tunnel list, the tunnel whose commands dialog is open, and
  the create form's busy flag, as the fetch, create and delete handlers change them.

Support modules:

- `Strings` models the JavaScript string built-ins these parts use:
  - `trim`, `split(' ')` and `join(' ')`;
  - ASCII `toLowerCase` and `startsWith`;
  - the decimal rendering of integers;
  - `parseInt` on a leading run of digits.
- `TunnelTypes` holds the records of `src/types/tunnel.ts`.
- `Wrappers` holds `Option`.

Objects that the source updates in place are classes with `modifies` clauses:

- the store;
- the terminal;
- each form;
- the dashboard.

The generator, the parser, the defaults tables, the list filter and the log transitions are
functions, and lemmas state their properties. `ParseCommand` keeps the source's loop and is
proved equal to the function `ParsedCommand`. `Store.List` is a loop over the stored ids, proved
to return the owner's records newest first. `IsListing` fixes that result, and
`ListingIsUnique` proves it has only one possible value.

Asynchronous handlers are split at their `await`. The terminal's handler is two methods:
`HandleCommand` runs up to the `onCreateTunnel` call, and `CompleteCreate` gets the outcome. The
dashboard's create handler is likewise `BeginCreate` and `FinishCreate`.

A port whose text has no leading digit makes `parseInt` return `NaN`. The handler passes that
value to the integer column, which refuses it, and the catch answers 500. `Store.Create` and
`Store.Update` model this as `StorageError`, with the store unchanged.

## Model

| member | source | states |
|---|---|---|
| Strings.TrimSpec | src/components/ChatTerminal.tsx:54 | `trim` keeps a slice of its input: what it drops at either end is whitespace, and the kept part neither starts nor ends with whitespace |
| Strings.TrimIdempotent | src/components/ChatTerminal.tsx:97 | trimming twice is trimming once, so the trimmed input handed to the handler trims to itself |
| Strings.TrimNoop | src/components/ChatTerminal.tsx:54 | a string that neither starts nor ends with whitespace is its own trim |
| Strings.ToLowerSpec | src/components/ChatTerminal.tsx:97 | `toLowerCase` maps each of A-Z to its lower-case letter, keeps every other character, and leaves no upper-case ASCII letter |
| Strings.SplitHasNoSpaces | src/components/ChatTerminal.tsx:54 | no token of `split(' ')` contains a space |
| Strings.JoinSplit | src/components/ChatTerminal.tsx:54 | joining the tokens of `split(' ')` with single spaces gives back the input, so empty tokens stand for repeated spaces |
| Strings.SplitJoin | src/components/ChatTerminal.tsx:54 | splitting tokens that hold no space, once they are joined with single spaces, gives back those tokens |
| Strings.LeadingDigits | src/components/ChatTerminal.tsx:87 | the run `parseInt` reads is the longest prefix made only of digits |
| Strings.ParseInt | src/components/ChatTerminal.tsx:87 | `parseInt` is NaN (None) exactly when the text is empty or does not start with a digit |
| Strings.ParseIntOfNatToString | backend/routes/tunnels.ts:40 | a rendered number followed by a non-digit parses back to that number |
| Strings.IntToStringInjective | backend/routes/tunnels.ts:145 | distinct integers render as distinct text in a template literal |
| TunnelStore.ParsePort | backend/routes/tunnels.ts:40 | a JSON number is kept as it is; text is a number exactly when it starts with a digit, and then it is not negative |
| TunnelStore.InsertNewestFirst | backend/routes/tunnels.ts:14-17 | adding a record keeps the sequence newest first and adds exactly that record |
| TunnelStore.Store.constructor | backend/routes/tunnels.ts:12-24 | the store starts empty, with the clock at zero |
| TunnelStore.Store.List | backend/routes/tunnels.ts:12-24 | GET / returns the caller's records and only those, each once, ordered by decreasing `createdAt` |
| TunnelStore.Store.Create | backend/routes/tunnels.ts:27-52 | a missing or falsy field gives 400 and changes nothing; a port that does not parse gives the storage error and changes nothing; otherwise one new record is filed under the fresh id, owned by the caller, with the parsed port and fresh timestamps |
| TunnelStore.Store.Update | backend/routes/tunnels.ts:55-93 | validation comes first, then ownership (404), then the parse. An accepted update replaces only the six business fields and refreshes `updatedAt`; id, owner and `createdAt` are kept |
| TunnelStore.Store.Delete | backend/routes/tunnels.ts:96-121 | a caller who does not own the id gets 404 and the store is kept; otherwise exactly that record is removed |
| TunnelStore.Store.Commands | backend/routes/tunnels.ts:124-169 | 404 unless the caller owns the record; otherwise the server generator's pair for it |
| TunnelStore.Store.LegacyCommands | src/api/routes/tunnels.ts:83-117 | 404 unless the caller owns the record; otherwise the older generator's pair for it |
| TunnelStore.HeadIsNewest | backend/routes/tunnels.ts:16 | in a newest-first listing every other record is older than the head |
| TunnelStore.NewestFirstDetermined | backend/routes/tunnels.ts:14-17 | two newest-first sequences with the same records are equal |
| TunnelStore.ListingIsUnique | backend/routes/tunnels.ts:12-24 | the listing is determined by the store and the caller |
| TunnelStore.ListedOnce | backend/routes/tunnels.ts:14-17 | a listing names each record once |
| TunnelStore.ListingExcludesOthers | backend/routes/tunnels.ts:15 | another owner's record never appears in a caller's listing |
| TunnelStore.CreatedRecordListedFirst | backend/routes/tunnels.ts:35-45 | a record created after all others heads its owner's listing |
| TunnelStore.CreateInvisibleToOthers | backend/routes/tunnels.ts:35-45 | a create leaves every other owner's listing as it was |
| TunnelStore.OwnershipIsExclusive | backend/routes/tunnels.ts:65-74 | the ownership check passes for one owner only |
| TunnelStore.OverwriteTouchesOnlyBusinessFields | backend/routes/tunnels.ts:76-86 | an update writes the six business fields from the body and the parsed port, and keeps id, owner and `createdAt` |
| TunnelStore.TextPortParsesDecimal | backend/routes/tunnels.ts:40 | a text port such as "3000" or "3000px" is stored as the number its leading digits spell |
| CommandGenerator.ConfigCommandIsFixed | backend/routes/tunnels.ts:141 | both variants render the configuration command `cloudflared tunnel create <name>` |
| CommandGenerator.ConfigCommandDeterminesName | backend/routes/tunnels.ts:141 | two records with the same configuration command have the same name |
| CommandGenerator.ServiceUrlIsOneFormula | backend/routes/tunnels.ts:152-156 | both arms of the http/https test render `protocol://localHost:localPort` |
| CommandGenerator.RunCommandByPrecedence | backend/routes/tunnels.ts:143-158 | the server's run command: the RDP access form when either field is "rdp"; otherwise the TCP access form when either is "tcp"; otherwise the generic form |
| CommandGenerator.LegacyRunCommandIsGeneric | src/api/routes/tunnels.ts:98-107 | the older run command is always the generic form, whatever the service type and protocol |
| CommandGenerator.CommandKindMark | backend/routes/tunnels.ts:145-158 | access commands and run-tunnel commands differ at a fixed position, so they never coincide |
| CommandGenerator.VariantsAgreeIffNoAccessCase | backend/routes/tunnels.ts:139-159 | the two variants give the same pair exactly when neither field is "rdp" or "tcp" |
| CommandGenerator.GenerateIgnoresBookkeeping | backend/routes/tunnels.ts:139-159 | id, owner and timestamps do not affect either generator |
| CommandGenerator.RunCommandEndsWithPort | backend/routes/tunnels.ts:143-158 | each run command, in either variant, is a text that does not depend on the port, followed by the rendered port |
| CommandGenerator.RunCommandDeterminesPort | backend/routes/tunnels.ts:143-158 | two records that differ only in the port get different run commands, from either generator |
| CommandGenerator.HttpRecordCommands | backend/routes/tunnels.ts:152-158 | an http record on localhost:3000 gets `... --url http://localhost:3000` from both variants |
| CommandGenerator.RdpRecordCommands | backend/routes/tunnels.ts:143-145 | an rdp record on localhost:3389 gets `cloudflared access rdp --hostname <h> --url rdp://localhost:3389` |
| CommandGenerator.RdpRecordLegacyCommands | src/api/routes/tunnels.ts:98-107 | the older variant gives the same rdp record the generic command with `--url rdp://localhost:3389` |
| CommandGenerator.RdpProtocolBeatsTcpServiceType | backend/routes/tunnels.ts:143-148 | service type "tcp" with protocol "rdp" takes the RDP branch, not the TCP one |
| CommandGenerator.TcpRecordCommands | backend/routes/tunnels.ts:146-148 | a tcp record on localhost:3000 gets an access URL without a scheme, `--url localhost:3000` |
| ChatTerminal.FlagsBefore | src/components/ChatTerminal.tsx:59-65 | the flag loop stores only non-empty values |
| ChatTerminal.LoopEnd | src/components/ChatTerminal.tsx:59 | the stride-2 loop stops at the first odd index at or past the token count |
| ChatTerminal.Flags | src/components/ChatTerminal.tsx:58-65 | the finished loop's arguments hold only non-empty values |
| ChatTerminal.FlagLastWins | src/components/ChatTerminal.tsx:60-63 | a flag met at an odd index with a value is stored with its last occurrence's value |
| ChatTerminal.FlagAbsent | src/components/ChatTerminal.tsx:60-63 | a key that no visited flag sets with a value is absent |
| ChatTerminal.FlagsOnlyAtOddIndices | src/components/ChatTerminal.tsx:59-63 | every stored key comes from a flag at an odd index followed by a non-empty value |
| ChatTerminal.TableIsEditDialogTable | src/components/ChatTerminal.tsx:68-75 | the terminal's defaults table equals the edit dialog's, so rdp suggests protocol "rdp" |
| ChatTerminal.PortOr | src/components/ChatTerminal.tsx:87 | `--port` is used when it parses to a non-zero number; a missing port, NaN or 0 gives the default |
| ChatTerminal.FromFlags | src/components/ChatTerminal.tsx:79-90 | a request exists exactly when both name and hostname were given |
| ChatTerminal.ParseCommand | src/components/ChatTerminal.tsx:53-91 | the loop computes `ParsedCommand`: a first token other than "create" gives null; otherwise the flags, then the defaults |
| ChatTerminal.NotCreateIsNull | src/components/ChatTerminal.tsx:56 | a first token other than exactly "create" gives null |
| ChatTerminal.ParsedFields | src/components/ChatTerminal.tsx:67-90 | name and hostname are copied; the service type is `--type`, else `--service`, else "http"; the host is `--host` or "localhost"; `--protocol` wins when given |
| ChatTerminal.TableTypeDefaults | src/components/ChatTerminal.tsx:68-89 | with no port or protocol flag, a table type takes its row's port and protocol |
| ChatTerminal.UnknownTypeFallsBack | src/components/ChatTerminal.tsx:77 | a type outside the table falls back to protocol "http" and, with no port flag, port 8080 |
| ChatTerminal.ZeroPortTakesDefault | src/components/ChatTerminal.tsx:87 | `--port 0` counts as no port |
| ChatTerminal.TypedTokens | src/components/ChatTerminal.tsx:54 | tokens typed with single spaces come back unchanged from `trim().split(' ')` |
| ChatTerminal.RdpExampleFlags | src/components/ChatTerminal.tsx:114 | the first example from the help text yields exactly the name, hostname and type flags |
| ChatTerminal.RdpExampleParts | src/components/ChatTerminal.tsx:83-90 | that example's tokens parse to an rdp tunnel on localhost:3389 with protocol "rdp" |
| ChatTerminal.RdpHelpExample | src/components/ChatTerminal.tsx:114 | the first example, typed as shown, parses to that tunnel |
| ChatTerminal.DoubleSpaceLosesFlags | src/components/ChatTerminal.tsx:54-65 | a double space after `--name` moves the value to an even index and the parse is null |
| ChatTerminal.LogAfter | src/components/ChatTerminal.tsx:93-142 | "clear" replaces the log by one system entry; any other command keeps the log and appends the echo of the command first |
| ChatTerminal.LogAfterCreate | src/components/ChatTerminal.tsx:129-135 | after the awaited create the log grows by the success entry and the prompt to go on, or by the one failure entry |
| ChatTerminal.DispatchBranches | src/components/ChatTerminal.tsx:97-142 | the handler's branches are tried in the source's order (help, clear, create prefix, empty, unknown), and the log each one leaves |
| ChatTerminal.HelpIgnoresCase | src/components/ChatTerminal.tsx:97-99 | any command whose trimmed lower-case form is "help" shows the help after its echo |
| ChatTerminal.HelpAndClearDependOnlyOnLowerCase | src/components/ChatTerminal.tsx:97-117 | two commands with the same trimmed lower-case form are alike for "help" and for "clear" |
| ChatTerminal.MixedCaseHelp | src/components/ChatTerminal.tsx:97-99 | " HeLP " is the help command |
| ChatTerminal.CreatePrefixGoesToParser | src/components/ChatTerminal.tsx:124-128 | a command that starts with "create " always reaches the parser: null gives the syntax error, a request goes to `onCreateTunnel` |
| ChatTerminal.CapitalisedCreateIsUnknown | src/components/ChatTerminal.tsx:124 | the create prefix test is case-sensitive: "Create ..." is an unknown command |
| ChatTerminal.BareCreateIsUnknown | src/components/ChatTerminal.tsx:124 | "create" without the trailing space is an unknown command |
| ChatTerminal.UnknownCommandReported | src/components/ChatTerminal.tsx:140-142 | any other non-blank command is echoed and reported as unknown |
| ChatTerminal.Terminal.constructor | src/components/ChatTerminal.tsx:18-27 | the log starts with the welcome entry; the input is empty and nothing is processing |
| ChatTerminal.Terminal.AddMessage | src/components/ChatTerminal.tsx:43-51 | appends exactly one entry and changes nothing else |
| ChatTerminal.Terminal.SetInput | src/components/ChatTerminal.tsx:26 | sets the input box and changes nothing else |
| ChatTerminal.Terminal.HandleCommand | src/components/ChatTerminal.tsx:93-145 | the log becomes `LogAfter` of the old log; a valid create hands out its request and stays processing until the outcome; every other command ends with processing cleared |
| ChatTerminal.Terminal.CompleteCreate | src/components/ChatTerminal.tsx:129-135 | the log becomes `LogAfterCreate` for the pending request's name and the outcome; processing ends |
| ChatTerminal.Terminal.Submit | src/components/ChatTerminal.tsx:147-153 | a blank input or a command still processing changes nothing; otherwise the trimmed input is handled and the box is cleared, and a valid create hands out its request and stays processing with that request pending, ready for `CompleteCreate` |
| TunnelForm.WithServiceType | src/components/TunnelForm.tsx:28-36 | a type change sets the type, the table's port and protocol, and keeps the other fields |
| TunnelForm.TableKeysAreOptions | src/components/TunnelForm.tsx:19-26 | the table is defined for exactly the six service-type options |
| TunnelForm.TableProtocolsAreOptions | src/components/TunnelForm.tsx:19-26 | every protocol the table suggests is an option of the protocol select |
| TunnelForm.InitialFormFollowsTable | src/components/TunnelForm.tsx:10-17 | the initial state is the table's row for its own type, rdp |
| TunnelForm.ServiceTypeChangeLastWins | src/components/TunnelForm.tsx:28-36 | two type changes in a row are the last one alone |
| TunnelForm.CreateForm.constructor | src/components/TunnelForm.tsx:10-17 | the form starts in the initial state |
| TunnelForm.CreateForm.ChangeServiceType | src/components/TunnelForm.tsx:28-36 | the state after choosing a type from the table |
| TunnelForm.CreateForm.SetName | src/components/TunnelForm.tsx:65 | only the name changes |
| TunnelForm.CreateForm.SetHostname | src/components/TunnelForm.tsx:101 | only the hostname changes |
| TunnelForm.CreateForm.SetLocalPort | src/components/TunnelForm.tsx:116 | only the port changes |
| TunnelForm.CreateForm.SetLocalHost | src/components/TunnelForm.tsx:133 | only the local host changes |
| TunnelForm.CreateForm.SetProtocol | src/components/TunnelForm.tsx:146 | only the protocol changes |
| TunnelForm.CreateForm.Submit | src/components/TunnelForm.tsx:38-49 | the data as it was is submitted, and the form returns to the initial state |
| EditTunnelModal.FromTunnel | src/components/EditTunnelModal.tsx:13-21 | the form takes the tunnel's id and six business fields |
| EditTunnelModal.WithServiceType | src/components/EditTunnelModal.tsx:32-40 | a type change sets the type, the table's port and protocol, and keeps id and the other fields |
| EditTunnelModal.TableKeysAreOptions | src/components/EditTunnelModal.tsx:23-30 | the table is defined for exactly the six service-type options |
| EditTunnelModal.TableProtocolsAreOptions | src/components/EditTunnelModal.tsx:23-30 | every protocol the table suggests is an option of this dialog's protocol select |
| EditTunnelModal.TablesDifferOnlyInRdpProtocol | src/components/EditTunnelModal.tsx:23-30 | the edit table and the create table have the same keys and rows except rdp's protocol ("rdp" against "tcp") |
| EditTunnelModal.EditForm.constructor | src/components/EditTunnelModal.tsx:13-21 | the form is the tunnel's data, so the id matches |
| EditTunnelModal.EditForm.ChangeServiceType | src/components/EditTunnelModal.tsx:32-40 | the state after choosing a type from the table; the id is kept |
| EditTunnelModal.EditForm.SetName | src/components/EditTunnelModal.tsx:71 | only the name changes |
| EditTunnelModal.EditForm.SetHostname | src/components/EditTunnelModal.tsx:107 | only the hostname changes |
| EditTunnelModal.EditForm.SetLocalPort | src/components/EditTunnelModal.tsx:122 | only the port changes |
| EditTunnelModal.EditForm.SetLocalHost | src/components/EditTunnelModal.tsx:139 | only the local host changes |
| EditTunnelModal.EditForm.SetProtocol | src/components/EditTunnelModal.tsx:152 | only the protocol changes |
| EditTunnelModal.EditForm.Submit | src/components/EditTunnelModal.tsx:42-45 | the current form is saved with the edited tunnel's id; the form is not reset |
| App.WithoutId | src/App.tsx:77 | the filter keeps exactly the entries with another id, and never makes the list longer |
| App.WithoutIdAppend | src/App.tsx:77 | the filter keeps the order: it distributes over concatenation |
| App.WithoutAbsentId | src/App.tsx:77 | a list without that id is left as it is |
| App.WithoutIdIdempotent | src/App.tsx:77 | deleting twice is deleting once |
| App.CreateThenDeleteRestores | src/App.tsx:56 | deleting a just-prepended tunnel whose id was new gives back the earlier list |
| App.AppState.constructor | src/App.tsx:13-15 | no tunnels, no dialog open, not loading |
| App.AppState.FetchTunnels | src/App.tsx:23-39 | an ok response replaces the list; a non-ok or thrown one changes nothing |
| App.AppState.BeginCreate | src/App.tsx:41-42 | the form is marked busy; the list at call time is kept for the prepend |
| App.AppState.FinishCreate | src/App.tsx:54-63 | an ok response prepends the new tunnel to the list seen at call time and opens its commands; the busy flag is cleared on every outcome |
| App.AppState.DeleteTunnel | src/App.tsx:66-82 | an ok response drops the entries with that id; the open commands dialog is left alone |
| App.AppState.ShowCommands | src/App.tsx:110 | opens the commands dialog for that tunnel |
| App.AppState.CloseCommands | src/App.tsx:115 | closes the commands dialog |

## Left out

- Authentication:
  - the JWT middleware and `backend/server.ts` are not part of this model;
  - the caller's id is the `owner` parameter of each store method.
- HTTP and JSON wiring: status codes are `Reply` tags and error bodies are not modelled.
- The 500 catch of each route: a storage failure other than the integer column refusing a non-numeric port is not modelled.
- Concurrency between requests: each route handler is one atomic step. The gap between the ownership check and the write in update and delete cannot show.
- The database's id generator and clock:
  - the fresh id is a parameter and must not already be stored;
  - timestamps are a counter, not dates. This also makes `createdAt` values distinct, so the newest-first order has no ties.
- `TunnelStore.Store.Update`: the older API has no update route; the server's update is the one modelled.
- `Strings.ParseInt`: models `parseInt` only on a leading run of decimal digits. Signs, leading blanks, the `0x` radix prefix and floats are not modelled. Request bodies and terminal tokens can hold any text, so this shows in three members:
  - `TunnelStore.Store.Create` and `TunnelStore.Store.Update`: the text port `"-1"` is stored as -1 by the source, but the model answers `StorageError`.
  - `TunnelStore.Store.Create` and `TunnelStore.Store.Update`: the text port `" 80"` is stored as 80 by the source, but the model answers `StorageError`.
  - `TunnelStore.Store.Create` and `TunnelStore.Store.Update`: the text port `"0x50"` is stored as 80 by the source, but the model stores 0.
  - `ChatTerminal.PortOr`: with `--port -1` the source uses -1, but the model gives the default port.
- `Strings.ToLower`: lower-cases ASCII letters only. It does not model full Unicode case mapping.
- `ChatTerminal.UnknownTypeFallsBack` and `ChatTerminal.DefaultsFor`: the defaults lookup also finds inherited `Object.prototype` members. With `--type constructor`, `toString`, `valueOf` or `__proto__`, the source finds a truthy object with no `port` or `protocol`. Without `--port` and `--protocol`, the request then has an undefined port and protocol. The model gives such types 8080 and "http" like any other type outside the table.
- `ChatTerminal.Flags`: JavaScript prototype keys are treated as plain keys (for example, an argument named `constructor` is read like any other flag).
- `TunnelForm.CreateForm.SetLocalPort` and `EditTunnelModal.EditForm.SetLocalPort` take the parsed integer. The `NaN` that an emptied number input produces is not modelled.
- `ChatTerminal.Terminal.HandleCommand` requires that no command is processing. Only `handleSubmit` calls it, and `handleSubmit` checks exactly that.
- React scheduling: timing beyond the split at each `await` is not modelled.
  - The create form's own `await` on `onSubmit` is one step. `handleCreateTunnel` catches every error, so the form always resets.
  - `App.AppState.DeleteTunnel` is one step. The delete handler's stale-closure view of the list is therefore not modelled; the create handler's is, through `createBase`.
- Message ids and timestamps, scrolling and focus, `getMessageStyle` and all styling are not modelled.
- UI-only components are not part of this model:
  - `TunnelList`, `CommandsModal`, `Layout` and `ChatButton`;
  - the login and registration form.
