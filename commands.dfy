/** The commands of the shell (cmdShow, cmdSetv, cmdEnableField,
    cmdDisableField, cmdTest, cmdQuery) and processInput's dispatch, as
    functions of the session state: the field registry and the query
    variables. */
module Commands {
  import opened Basics
  import opened Strings
  import opened Input
  import opened Ordering
  import opened JsonTree
  import opened Registry
  import opened Request
  import opened Render

  /** The table main registers: command word to command. */
  datatype Command = Show | Set | Enable | Disable | Test | Query

  const CommandTable: map<string, Command> := map[
    "show" := Show, "set" := Set, "enable" := Enable,
    "disable" := Disable, "test" := Test, "query" := Query
  ]

  /** The query variables as the program starts with them. */
  const InitialVariables: map<string, string> := map["from" := "0", "size" := "50"]

  /** The state the commands share: `logfields` and `variables`. */
  datatype State = State(fields: map<string, LogField>, variables: map<string, string>)

  const Initial: State := State(InitialFields, InitialVariables)

  /** What holds of every state the shell reaches: the registry keeps its
      shape, so its keys fit cmdShow's padding and `vlogfields` points into
      it; and `from` and `size` are always set. */
  predicate Valid(s: State)
  {
    SameShape(s.fields) && Ready(s)
  }

  /** What the commands need of a state to run: the keys fit cmdShow's
      padding, `vlogfields` points into the registry, and `from` and `size`
      are set. */
  predicate Ready(s: State)
  {
    ShortKeys(s.fields) && Displayable(s.fields)
    && "from" in s.variables && "size" in s.variables
  }

  /** The program starts in a valid state. */
  lemma InitialIsValid()
    ensures Valid(Initial)
  {
    KeyLengths();
    DisplayOrderCoversRegistry();
  }

  /** One thing written to standard output: text, or a request body as
      jsoncpp's styled serialisation prints its Document (not modelled
      further). */
  datatype Piece = Text(text: string) | Styled(body: QueryBody)

  /** What the HTTP exchange brings back: the parsed reply body, or a failed
      connection with the strerror text for its status. */
  datatype Response = Reply(body: Json) | ConnectFailed(reason: string)

  /** What one input line does beyond the state change: what it writes,
      the request it posts, and whether the process then ends in
      std::terminate. UndefinedBehaviour: the line reaches undefined behaviour. */
  datatype Effect =
    | Effect(printed: seq<Piece>, sent: Option<HttpRequest>, terminates: bool)
    | UndefinedBehaviour

  /** Writing `t`; an empty text writes nothing. */
  function Say(t: string): (r: seq<Piece>)
    ensures |r| <= 1 && (|r| == 0 <==> |t| == 0)
  {
    if |t| == 0 then [] else [Text(t)]
  }

  /** A command that returns after writing `t` and sends nothing. */
  function Quiet(t: string): Effect
  {
    Effect(Say(t), None, false)
  }

  // ---------------------------------------------------------------- set

  /** cmdSetv's new variables: `set <variable> <value>` assigns (creating the
      variable if need be); extra tokens are ignored; fewer than three tokens
      change nothing. */
  function SetVariables(vars: map<string, string>, argv: seq<string>): map<string, string>
  {
    if |argv| < 3 then vars else vars[argv[1] := argv[2]]
  }

  lemma SetVariablesSpec(vars: map<string, string>, argv: seq<string>)
    ensures |argv| < 3 ==> SetVariables(vars, argv) == vars
    ensures |argv| >= 3 ==> (SetVariables(vars, argv).Keys == vars.Keys + {argv[1]} && SetVariables(vars, argv)[argv[1]] == argv[2]
      && forall k :: k in vars && k != argv[1] ==> SetVariables(vars, argv)[k] == vars[k])
  {
  }

  /** cmdSetv's output: the usage line when tokens are missing, which runs
      the command word into "set" with no blank. */
  function SetMessage(argv: seq<string>): (out: string)
    requires |argv| >= 1
    ensures out == "" <==> |argv| >= 3
    ensures |argv| < 3 ==> out == "usage: " + argv[0] + "set <variable> <value>\n"
  {
    if |argv| < 3 then "usage: " + argv[0] + "set <variable> <value>\n" else ""
  }

  // ---------------------------------------------------------------- show

  /** Keys short enough for the 14-column name padding of cmdShow. */
  predicate ShortKeys(fields: map<string, LogField>)
  {
    forall k :: k in fields ==> |k| <= 14
  }

  /** One registry line of cmdShow: the schema name, blanks up to 14 columns
      counted by the key's length, ": " and the flag as ostream prints a bool. */
  function FieldLine(fields: map<string, LogField>, key: string): string
    requires key in fields && |key| <= 14
  {
    " " + fields[key].name + Spaces(14 - |key|) + ": " + (if fields[key].enabled then "1" else "0") + "\n"
  }

  function FieldLines(fields: map<string, LogField>, keys: seq<string>): string
    requires forall k :: k in keys ==> k in fields && |k| <= 14
  {
    if keys == [] then "" else FieldLine(fields, keys[0]) + FieldLines(fields, keys[1..])
  }

  /** One variable line of cmdShow. */
  function VariableLine(vars: map<string, string>, key: string): string
    requires key in vars
  {
    " " + key + " = " + vars[key] + "\n"
  }

  function VariableLines(vars: map<string, string>, keys: seq<string>): string
    requires forall k :: k in keys ==> k in vars
  {
    if keys == [] then "" else VariableLine(vars, keys[0]) + VariableLines(vars, keys[1..])
  }

  /** cmdShow's output: both maps walked in key order. */
  ghost function ShowText(fields: map<string, LogField>, vars: map<string, string>): string
    requires ShortKeys(fields)
  {
    SortedKeysMembers(fields.Keys);
    SortedKeysMembers(vars.Keys);
    "fields\n" + FieldLines(fields, SortedKeys(fields.Keys))
    + "variables\n" + VariableLines(vars, SortedKeys(vars.Keys))
  }

  // ---------------------------------------------------------------- test and query

  /** cmdTest's new variables: reading `lte` and `gte` with std::map's
      operator[] creates them, empty, when they are not set. */
  function TestVariables(vars: map<string, string>): map<string, string>
  {
    var withLte := if "lte" in vars then vars else vars["lte" := ""];
    if "gte" in withLte then withLte else withLte["gte" := ""]
  }

  lemma TestVariablesSpec(vars: map<string, string>)
    ensures TestVariables(vars).Keys == vars.Keys + {"lte", "gte"}
    ensures forall k :: k in vars ==> TestVariables(vars)[k] == vars[k]
    ensures "lte" !in vars ==> TestVariables(vars)["lte"] == ""
    ensures "gte" !in vars ==> TestVariables(vars)["gte"] == ""
  {
  }

  /** The request cmdQuery posts: the query text is the tokens after the
      command word joined by single blanks. */
  function QueryRequest(vars: map<string, string>, input: seq<string>): HttpRequest
    requires "from" in vars && "size" in vars && |input| >= 1
  {
    HttpRequest(ConstructUrl(SearchPath), Header, QueryBody(Join(input[1..]), vars["from"], vars["size"]))
  }

  /** cmdTest: the request body is printed, not sent. */
  function TestEffect(s: State, input: seq<string>): Effect
    requires Ready(s) && |input| >= 1
  {
    Effect([Styled(QueryRequest(s.variables, input).body), Text("\n")], None, false)
  }

  /** How the exchange a query starts ends, from what the server sends back. */
  function ReplyEffect(response: Response, shown: seq<LogField>, request: HttpRequest): Effect
  {
    match response
    case ConnectFailed(reason) => Effect([Text("Error during the connection...: " + reason)], Some(request), false)
    case Reply(body) =>
      match RenderReply(body, shown)
      case Output(t) => Effect(Say(t), Some(request), false)
      case Terminated(t) => Effect(Say(t), Some(request), true)
      case Undefined => UndefinedBehaviour
  }

  /** cmdQuery: the usage line without a query, otherwise the request and
      the rendering of the reply with the registry as it stands. */
  function QueryEffect(s: State, input: seq<string>, response: Response): Effect
    requires Ready(s) && |input| >= 1
  {
    if |input| < 2 then Quiet("Usage: " + input[0] + " <query>\n")
    else ReplyEffect(response, Shown(s.fields), QueryRequest(s.variables, input))
  }

  // ---------------------------------------------------------------- processInput

  /** One input line: comments and empty lines do nothing; otherwise the
      line is split into tokens and dispatched. `response` is what the server
      answers if the line posts a query. */
  ghost function Process(s: State, line: string, response: Response): (State, Effect)
    requires Ready(s)
  {
    if |line| == 0 || line[0] == '#' then (s, Quiet("")) else Dispatch(s, Tokens(line), response)
  }

  /** The command vector of one line: no token reaches undefined behaviour
      (`arguments[0]` of an empty vector); an unknown command word is reported;
      otherwise the command runs. */
  ghost function Dispatch(s: State, args: seq<string>, response: Response): (State, Effect)
    requires Ready(s)
  {
    if args == [] then (s, UndefinedBehaviour)
    else if args[0] !in CommandTable then (s, Quiet("command doesn't exists\n"))
    else Run(s, CommandTable[args[0]], args, response)
  }

  /** One command on its argument vector (the command word first). */
  ghost function Run(s: State, command: Command, args: seq<string>, response: Response): (State, Effect)
    requires Ready(s) && |args| >= 1
  {
    match command
    case Show =>
      (s, Quiet(ShowText(s.fields, s.variables)))
    case Set => (s.(variables := SetVariables(s.variables, args)), Quiet(SetMessage(args)))
    case Enable =>
      if |args| < 2 then (s, UndefinedBehaviour)
      else (s.(fields := ManagedFields(s.fields, args[1], true)), Quiet(ManageMessage(s.fields, args[1])))
    case Disable =>
      if |args| < 2 then (s, UndefinedBehaviour)
      else (s.(fields := ManagedFields(s.fields, args[1], false)), Quiet(ManageMessage(s.fields, args[1])))
    case Test => (s.(variables := TestVariables(s.variables)), TestEffect(s, args))
    case Query => (s, QueryEffect(s, args, response))
  }

  /** Every command keeps the registry's shape and the `from`/`size`
      variables. */
  lemma RunKeepsValid(s: State, command: Command, args: seq<string>, response: Response)
    requires Valid(s) && |args| >= 1
    ensures Valid(Run(s, command, args, response).0)
  {
    SetVariablesSpec(s.variables, args);
    TestVariablesSpec(s.variables);
    if |args| >= 2 {
      ManagedFieldsSpec(s.fields, args[1], true);
      ManagedFieldsSpec(s.fields, args[1], false);
      ManagedFieldsKeepsShape(s.fields, args[1], true);
      ManagedFieldsKeepsShape(s.fields, args[1], false);
    }
  }

  /** A line that is neither empty nor a comment is dispatched on its tokens. */
  lemma ProcessDispatches(s: State, line: string, response: Response)
    requires Ready(s) && |line| > 0 && line[0] != '#'
    ensures Process(s, line, response) == Dispatch(s, Tokens(line), response)
  {
  }
}
