/** What the command layer promises: the state invariant, which lines change
    the state or post a request, what `set`, `enable`, `test` and `query` do
    end to end, and the layout and order of `show`. */
module CommandProperties {
  import opened Basics
  import opened Strings
  import opened Input
  import opened Ordering
  import opened JsonTree
  import opened Registry
  import opened Request
  import opened Render
  import opened Commands
  import Ansi

  // ---------------------------------------------------------------- the invariant

  /** Every command keeps the registry's shape and the `from`/`size`
      variables. */
  lemma DispatchKeepsValid(s: State, args: seq<string>, response: Response)
    requires Valid(s)
    ensures Valid(Dispatch(s, args, response).0)
  {
    if args != [] && args[0] in CommandTable {
      RunKeepsValid(s, CommandTable[args[0]], args, response);
    }
  }

  /** Every input line keeps the invariant. */
  lemma ProcessKeepsValid(s: State, line: string, response: Response)
    requires Valid(s)
    ensures Valid(Process(s, line, response).0)
  {
    if |line| > 0 && line[0] != '#' {
      ProcessDispatches(s, line, response);
      DispatchKeepsValid(s, Tokens(line), response);
    }
  }

  /** The command words main registers. */
  lemma CommandWords()
    ensures CommandTable.Keys == {"show", "set", "enable", "disable", "test", "query"}
    ensures forall w, v :: w in CommandTable && v in CommandTable && w != v ==> CommandTable[w] != CommandTable[v]
  {
  }

  // ---------------------------------------------------------------- dispatch

  /** Empty lines and comments do nothing at all. */
  lemma SkippedLines(s: State, line: string, response: Response)
    requires Ready(s)
    requires |line| == 0 || line[0] == '#'
    ensures Process(s, line, response) == (s, Effect([], None, false))
  {
  }

  /** A non-empty line of separators only reaches undefined behaviour (the
      converse, that a line with a token has a non-separator, is
      Input.NoTokensIffBlank). */
  lemma BlankLineIsUndefined(s: State, line: string, response: Response)
    requires Ready(s)
    requires |line| > 0 && line[0] != '#'
    requires forall i :: 0 <= i < |line| ==> IsSpace(line[i])
    ensures Process(s, line, response) == (s, UndefinedBehaviour)
  {
    NoTokensIffBlank(line);
    ProcessDispatches(s, line, response);
    NoWords(s, response);
  }

  /** An empty command vector reaches undefined behaviour. */
  lemma NoWords(s: State, response: Response)
    requires Ready(s)
    ensures Dispatch(s, [], response) == (s, UndefinedBehaviour)
  {
  }

  /** An unknown command word is reported and changes nothing. */
  lemma UnknownWord(s: State, args: seq<string>, response: Response)
    requires Ready(s)
    requires args != [] && args[0] !in CommandTable
    ensures Dispatch(s, args, response) == (s, Effect([Text("command doesn't exists\n")], None, false))
  {
  }

  lemma UnknownCommand(s: State, line: string, response: Response)
    requires Ready(s)
    requires |line| > 0 && line[0] != '#'
    requires Tokens(line) != [] && Tokens(line)[0] !in CommandTable
    ensures Process(s, line, response) == (s, Effect([Text("command doesn't exists\n")], None, false))
  {
    ProcessDispatches(s, line, response);
    UnknownWord(s, Tokens(line), response);
  }

  /** Only set, enable, disable and test change the state, and only query
      with an argument posts a request. */
  lemma RunChanges(s: State, command: Command, args: seq<string>, response: Response)
    requires Ready(s) && |args| >= 1
    ensures Run(s, command, args, response).0 != s ==> command in {Set, Enable, Disable, Test}
    ensures Run(s, command, args, response).1.Effect? && Run(s, command, args, response).1.sent.Some? ==>
      command == Query && |args| >= 2
  {
  }

  /** The command table, read backwards. */
  lemma CommandNames(w: string)
    requires w in CommandTable
    ensures CommandTable[w] == Set ==> w == "set"
    ensures CommandTable[w] == Enable ==> w == "enable"
    ensures CommandTable[w] == Disable ==> w == "disable"
    ensures CommandTable[w] == Test ==> w == "test"
    ensures CommandTable[w] == Query ==> w == "query"
  {
  }

  lemma DispatchChanges(s: State, args: seq<string>, response: Response)
    requires Ready(s)
    ensures Dispatch(s, args, response).0 != s ==>
      args != [] && args[0] in {"set", "enable", "disable", "test"}
    ensures Dispatch(s, args, response).1.Effect? && Dispatch(s, args, response).1.sent.Some? ==>
      |args| >= 2 && args[0] == "query"
  {
    if args != [] && args[0] in CommandTable {
      RunChanges(s, CommandTable[args[0]], args, response);
      CommandNames(args[0]);
    }
  }

  lemma WhatChangesWhat(s: State, line: string, response: Response)
    requires Ready(s)
    ensures Process(s, line, response).0 != s ==>
      |line| > 0 && line[0] != '#' && Tokens(line) != []
      && Tokens(line)[0] in {"set", "enable", "disable", "test"}
    ensures Process(s, line, response).1.Effect? && Process(s, line, response).1.sent.Some? ==>
      |line| > 0 && line[0] != '#' && |Tokens(line)| >= 2 && Tokens(line)[0] == "query"
  {
    if |line| > 0 && line[0] != '#' {
      ProcessDispatches(s, line, response);
      DispatchChanges(s, Tokens(line), response);
    }
  }

  // ---------------------------------------------------------------- show, set, enable

  /** `show` prints the listing and changes nothing. */
  lemma ShowCommand(s: State, args: seq<string>, response: Response)
    requires Ready(s)
    requires args != [] && args[0] == "show"
    ensures Dispatch(s, args, response) == (s, Effect([Text(ShowText(s.fields, s.variables))], None, false))
  {
    assert CommandTable[args[0]] == Show;
    assert Dispatch(s, args, response) == Run(s, Show, args, response);
    assert ShowText(s.fields, s.variables)[..7] == "fields\n";
  }

  /** `set <variable> <value>` assigns the variable (extra tokens are
      ignored) and prints nothing; with fewer tokens it prints the usage line,
      which runs the command word into "set". */
  lemma SetCommand(s: State, args: seq<string>, response: Response)
    requires Ready(s)
    requires args != [] && args[0] == "set"
    ensures |args| >= 3 ==>
      Dispatch(s, args, response) == (s.(variables := s.variables[args[1] := args[2]]), Effect([], None, false))
    ensures |args| < 3 ==>
      Dispatch(s, args, response) == (s, Effect([Text("usage: " + args[0] + "set <variable> <value>\n")], None, false))
  {
    assert CommandTable[args[0]] == Set;
    assert Dispatch(s, args, response) == Run(s, Set, args, response);
  }

  lemma SetAssigns(s: State, name: string, value: string, response: Response)
    requires Ready(s) && Word(name) && Word(value)
    ensures Process(s, Join(["set", name, value]), response) ==
      (s.(variables := s.variables[name := value]), Effect([], None, false))
  {
    assert Word("set");
    TokensOfJoin(["set", name, value]);
    ProcessDispatches(s, Join(["set", name, value]), response);
    SetCommand(s, ["set", name, value], response);
  }

  /** A `set` line with fewer than three tokens prints the usage line, the
      command word run into "set" (`usage: setset <variable> <value>`), and
      changes nothing. */
  lemma SetUsage(s: State, line: string, response: Response)
    requires Ready(s)
    requires |line| > 0 && line[0] != '#'
    requires 1 <= |Tokens(line)| < 3 && Tokens(line)[0] == "set"
    ensures Process(s, line, response) ==
      (s, Effect([Text("usage: " + "set" + "set <variable> <value>\n")], None, false))
  {
    ProcessDispatches(s, line, response);
    SetCommand(s, Tokens(line), response);
  }

  /** enable and disable require a field name (cmdManageField reads argv[1]);
      a known field, after lower-casing, gets the flag and nothing else
      changes; an unknown one is reported by its lower-cased name. */
  lemma ManageCommand(s: State, args: seq<string>, response: Response)
    requires Ready(s)
    requires args != [] && (args[0] == "enable" || args[0] == "disable")
    ensures |args| < 2 ==> Dispatch(s, args, response) == (s, UndefinedBehaviour)
    ensures |args| >= 2 && Lower(args[1]) in s.fields ==>
      Dispatch(s, args, response) ==
        (s.(fields := s.fields[Lower(args[1]) := s.fields[Lower(args[1])].(enabled := args[0] == "enable")]),
         Effect([], None, false))
    ensures |args| >= 2 && Lower(args[1]) !in s.fields ==>
      Dispatch(s, args, response) == (s, Effect([Text(Lower(args[1]) + " unvalid field name\n")], None, false))
  {
    var command := if args[0] == "enable" then Enable else Disable;
    assert CommandTable[args[0]] == command;
    assert Dispatch(s, args, response) == Run(s, command, args, response);
  }

  /** The schema names of the registry are single tokens. */
  lemma NamesAreWords()
    ensures forall k :: k in InitialFields ==> Word(InitialFields[k].name)
  {
  }

  /** `enable <Name>` with a field's schema name, in the case the registry
      spells it, sets that field and nothing else, and prints nothing. */
  lemma EnableByName(s: State, k: string, response: Response)
    requires Valid(s) && k in s.fields
    ensures Process(s, "enable " + s.fields[k].name, response) ==
      (s.(fields := s.fields[k := s.fields[k].(enabled := true)]), Effect([], None, false))
  {
    assert Word(s.fields[k].name) by {
      NamesAreWords();
    }
    ManageBySchemaName(s.fields, k, true);
    EnableWord(s, s.fields[k].name, response);
  }

  /** The line `enable <name>` for a name the registry finds. */
  lemma EnableWord(s: State, name: string, response: Response)
    requires Ready(s) && Word(name) && ManageMessage(s.fields, name) == ""
    ensures Process(s, "enable " + name, response) ==
      (s.(fields := ManagedFields(s.fields, name, true)), Effect([], None, false))
  {
    assert Word("enable");
    TwoTokens("enable", name);
    assert "enable " + name == "enable" + " " + name;
    var args := ["enable", name];
    assert args[0] == "enable" && args[1] == name && |args| == 2;
    ProcessDispatches(s, "enable " + name, response);
    ManageCommand(s, args, response);
  }

  /** An unknown field is reported by its lower-cased name; nothing changes. */
  lemma DisableUnknown(s: State, line: string, response: Response)
    requires Ready(s)
    requires |line| > 0 && line[0] != '#'
    requires |Tokens(line)| >= 2 && Tokens(line)[0] == "disable" && Lower(Tokens(line)[1]) !in s.fields
    ensures Process(s, line, response) ==
      (s, Effect([Text(Lower(Tokens(line)[1]) + " unvalid field name\n")], None, false))
  {
    ProcessDispatches(s, line, response);
    ManageCommand(s, Tokens(line), response);
  }

  // ---------------------------------------------------------------- test, query

  /** The request a query posts: to the search endpoint, with the query text
      whose tokens are the command's arguments, the highlight tags and the
      current `from` and `size`. */
  lemma QueryRequestSpec(vars: map<string, string>, input: seq<string>)
    requires "from" in vars && "size" in vars && |input| >= 1
    requires forall i :: 0 <= i < |input| ==> Word(input[i])
    ensures QueryRequest(vars, input).url == "http://localhost:9200/aos64-*/_search"
    ensures QueryRequest(vars, input).header == "Content-Type: application/json; charset=UTF-8\r\n"
    ensures Get(Document(QueryRequest(vars, input).body), QueryPath).Some?
    ensures Get(Document(QueryRequest(vars, input).body), QueryPath).value.JStr?
    ensures Tokens(Get(Document(QueryRequest(vars, input).body), QueryPath).value.s) == input[1..]
    ensures Get(Document(QueryRequest(vars, input).body), FromPath) == Some(JStr(vars["from"]))
    ensures Get(Document(QueryRequest(vars, input).body), SizePath) == Some(JStr(vars["size"]))
    ensures Get(Document(QueryRequest(vars, input).body), PreTagPath) == Some(JStr(Ansi.Red))
    ensures Get(Document(QueryRequest(vars, input).body), PostTagPath) == Some(JStr(Ansi.Reset))
  {
    SearchUrl();
    BuildQuerySpec(Join(input[1..]), vars["from"], vars["size"]);
    TokensOfJoin(input[1..]);
  }

  /** `query` without a query prints its usage line; otherwise it posts the
      request and its effect is how the exchange ends. Either way the state
      is unchanged. */
  lemma QueryCommand(s: State, args: seq<string>, response: Response)
    requires Ready(s)
    requires args != [] && args[0] == "query"
    ensures |args| < 2 ==>
      Dispatch(s, args, response) == (s, Effect([Text("Usage: " + args[0] + " <query>\n")], None, false))
    ensures |args| >= 2 ==>
      Dispatch(s, args, response) == (s, ReplyEffect(response, Shown(s.fields), QueryRequest(s.variables, args)))
  {
    assert CommandTable[args[0]] == Query;
    assert Dispatch(s, args, response) == Run(s, Query, args, response);
  }

  /** A query line that reaches the server sends exactly that request; a
      failed connection is reported with its reason, and a reply is rendered
      with the registry in display order. */
  lemma QuerySends(s: State, line: string, response: Response)
    requires Ready(s)
    requires |line| > 0 && line[0] != '#'
    requires |Tokens(line)| >= 2 && Tokens(line)[0] == "query"
    ensures Process(s, line, response).0 == s
    ensures response.ConnectFailed? ==>
      Process(s, line, response).1 == Effect([Text("Error during the connection...: " + response.reason)],
        Some(QueryRequest(s.variables, Tokens(line))), false)
    ensures response.Reply? && RenderReply(response.body, Shown(s.fields)) != Undefined ==>
      Process(s, line, response).1.Effect?
      && Process(s, line, response).1.sent == Some(QueryRequest(s.variables, Tokens(line)))
      && Process(s, line, response).1.terminates == RenderReply(response.body, Shown(s.fields)).Terminated?
    ensures response.Reply? && RenderReply(response.body, Shown(s.fields)) == Undefined ==>
      Process(s, line, response).1 == UndefinedBehaviour
  {
    ProcessDispatches(s, line, response);
    QueryCommand(s, Tokens(line), response);
    ReplyOutcomes(response, Shown(s.fields), QueryRequest(s.variables, Tokens(line)));
  }

  /** How a posted request ends: a failed connection is reported with its
      reason; otherwise the rendering decides what is written and whether
      the process terminates, and the request counts as sent. */
  lemma ReplyOutcomes(response: Response, shown: seq<LogField>, request: HttpRequest)
    ensures response.ConnectFailed? ==>
      ReplyEffect(response, shown, request) == Effect([Text("Error during the connection...: " + response.reason)], Some(request), false)
    ensures response.Reply? && RenderReply(response.body, shown) != Undefined ==>
      ReplyEffect(response, shown, request).Effect?
      && ReplyEffect(response, shown, request).sent == Some(request)
      && ReplyEffect(response, shown, request).terminates == RenderReply(response.body, shown).Terminated?
    ensures response.Reply? && RenderReply(response.body, shown) == Undefined ==>
      ReplyEffect(response, shown, request) == UndefinedBehaviour
  {
  }

  /** `query` alone prints its usage line, `Usage: query <query>`, and posts
      nothing. */
  lemma QueryUsage(s: State, line: string, response: Response)
    requires Ready(s)
    requires |line| > 0 && line[0] != '#'
    requires |Tokens(line)| == 1 && Tokens(line)[0] == "query"
    ensures Process(s, line, response) == (s, Effect([Text("Usage: " + "query" + " <query>\n")], None, false))
  {
    ProcessDispatches(s, line, response);
    QueryCommand(s, Tokens(line), response);
  }

  /** What `test` does to the state: the registry stays, `lte` and `gte`
      are set, and every variable already set keeps its value. */
  predicate TestKeeps(before: State, after: State)
  {
    after.fields == before.fields
    && "lte" in after.variables && "gte" in after.variables
    && forall k :: k in before.variables ==> k in after.variables && after.variables[k] == before.variables[k]
  }

  /** `test` prints the body `query` would post, sends nothing, and leaves
      `lte` and `gte` set, every other variable as it was. */
  lemma TestCommand(s: State, args: seq<string>, response: Response)
    requires Ready(s)
    requires args != [] && args[0] == "test"
    ensures Dispatch(s, args, response).1 ==
      Effect([Styled(QueryRequest(s.variables, args).body), Text("\n")], None, false)
    ensures TestKeeps(s, Dispatch(s, args, response).0)
  {
    assert CommandTable[args[0]] == Test;
    assert Dispatch(s, args, response) == Run(s, Test, args, response);
    TestStateKeeps(s);
  }

  /** Reading `lte` and `gte` through std::map's operator[] is all `test`
      does to the state. */
  lemma TestStateKeeps(s: State)
    ensures TestKeeps(s, s.(variables := TestVariables(s.variables)))
  {
    TestVariablesSpec(s.variables);
  }

  /** A `test` line prints the body a `query` line would post, sends
      nothing, and changes the state as the command does. */
  lemma TestPrintsBody(s: State, line: string, response: Response)
    requires Ready(s)
    requires |line| > 0 && line[0] != '#'
    requires Tokens(line) != [] && Tokens(line)[0] == "test"
    ensures Process(s, line, response).1 ==
      Effect([Styled(QueryRequest(s.variables, Tokens(line)).body), Text("\n")], None, false)
    ensures TestKeeps(s, Process(s, line, response).0)
  {
    ProcessDispatches(s, line, response);
    TestCommand(s, Tokens(line), response);
  }

  // ---------------------------------------------------------------- show

  /** Every registry line of `show` is 19 characters: the name from column 1,
      the colon at column 15, the flag at column 17. */
  lemma FieldLineLayout(fields: map<string, LogField>, key: string)
    requires SameShape(fields) && key in fields
    ensures |key| <= 14
    ensures |FieldLine(fields, key)| == 19
    ensures FieldLine(fields, key)[1..1 + |key|] == fields[key].name
    ensures FieldLine(fields, key)[15..17] == ": "
    ensures FieldLine(fields, key)[17] == (if fields[key].enabled then '1' else '0')
    ensures FieldLine(fields, key)[18] == '\n'
  {
    KeyLengths();
    var line := FieldLine(fields, key);
    var name := fields[key].name;
    assert line == (" " + name) + Spaces(14 - |key|) + ": " + (if fields[key].enabled then "1" else "0") + "\n";
    assert line[1..1 + |key|] == name;
  }

  /** The registry keys in ascending byte order. */
  lemma RegistryKeysAscending()
    ensures StrictlyAscending(["data", "file", "host", "line", "logid", "loglevel",
      "process", "routine", "sourceobject", "tags", "text", "thread", "timestamp"])
  {
    var order := ["data", "file", "host", "line", "logid", "loglevel",
      "process", "routine", "sourceobject", "tags", "text", "thread", "timestamp"];
    assert LexLess("logid", "loglevel") by {
      assert "logid"[1..] == "ogid" && "loglevel"[1..] == "oglevel";
      assert "ogid"[1..] == "gid" && "oglevel"[1..] == "glevel";
      assert "gid"[1..] == "id" && "glevel"[1..] == "level";
    }
    assert LexLess("tags", "text");
    assert LexLess("text", "thread");
    assert LexLess("thread", "timestamp");
    assert LexLess("line", "logid");
    assert forall i :: 0 <= i < |order| - 1 ==> LexLess(order[i], order[i + 1]);
    AscendingByNeighbours(order);
  }

  /** `show` lists the registry alphabetically by key, which differs from
      the display order. */
  lemma ShowOrder()
    ensures SortedKeys(InitialFields.Keys) == ["data", "file", "host", "line", "logid", "loglevel",
      "process", "routine", "sourceobject", "tags", "text", "thread", "timestamp"]
    ensures SortedKeys(InitialVariables.Keys) == ["from", "size"]
  {
    RegistryKeysAscending();
    SortedKeysUnique(["data", "file", "host", "line", "logid", "loglevel",
      "process", "routine", "sourceobject", "tags", "text", "thread", "timestamp"], InitialFields.Keys);
    AscendingByNeighbours(["from", "size"]);
    SortedKeysUnique(["from", "size"], InitialVariables.Keys);
  }
}
