/** The shell's mutable state (the `logfields` and `variables` globals) and
    the command functions that read and update it, proved against the
    functions of module Commands. */
module Shell {
  import opened Basics
  import opened Strings
  import opened Input
  import opened Ordering
  import opened JsonTree
  import opened Registry
  import opened Request
  import opened Render
  import opened Commands

  class Session {
    var fields: map<string, LogField>
    var variables: map<string, string>

    function Current(): State
      reads this
    {
      State(fields, variables)
    }

    ghost predicate Valid()
      reads this
    {
      Commands.Valid(Current())
    }

    /** The globals' initialisers. */
    constructor()
      ensures Current() == Initial && Valid()
    {
      fields := InitialFields;
      variables := InitialVariables;
      InitialIsValid();
    }

    /** cmdManageField: lower-case the name, report an unknown field, set the
        flag of a known one. */
    method ManageField(field: string, enable: bool) returns (out: string)
      requires Valid()
      modifies this
      ensures Valid()
      ensures fields == ManagedFields(old(fields), field, enable)
      ensures variables == old(variables)
      ensures out == ManageMessage(old(fields), field)
    {
      var key := Lower(field);
      if key !in fields {
        out := key + " unvalid field name\n";
      } else {
        out := "";
        fields := fields[key := fields[key].(enabled := enable)];
      }
      ManagedFieldsSpec(old(fields), field, enable);
      ManagedFieldsKeepsShape(old(fields), field, enable);
      ShapeIsDisplayable(fields);
    }

    /** cmdEnableField: argv[1] must exist. */
    method EnableField(argv: seq<string>) returns (out: string)
      requires Valid() && |argv| >= 2
      modifies this
      ensures Valid()
      ensures fields == ManagedFields(old(fields), argv[1], true)
      ensures variables == old(variables)
      ensures out == ManageMessage(old(fields), argv[1])
    {
      out := ManageField(argv[1], true);
    }

    /** cmdDisableField: argv[1] must exist. */
    method DisableField(argv: seq<string>) returns (out: string)
      requires Valid() && |argv| >= 2
      modifies this
      ensures Valid()
      ensures fields == ManagedFields(old(fields), argv[1], false)
      ensures variables == old(variables)
      ensures out == ManageMessage(old(fields), argv[1])
    {
      out := ManageField(argv[1], false);
    }

    /** cmdSetv. */
    method SetVariable(argv: seq<string>) returns (out: string)
      requires Valid() && |argv| >= 1
      modifies this
      ensures Valid()
      ensures variables == SetVariables(old(variables), argv)
      ensures fields == old(fields)
      ensures out == SetMessage(argv)
    {
      if |argv| < 3 {
        out := "usage: " + argv[0] + "set <variable> <value>\n";
        return;
      }
      out := "";
      variables := variables[argv[1] := argv[2]];
    }

    /** cmdShow: both maps in key order. */
    method ShowSettings() returns (out: string)
      requires Valid()
      ensures out == ShowText(fields, variables)
    {
      var keys := Ordered(fields.Keys);
      SortedKeysMembers(fields.Keys);
      SortedKeysMembers(variables.Keys);
      var fieldText := FieldListing(fields, keys);
      var names := Ordered(variables.Keys);
      var variableText := VariableListing(variables, names);
      out := "fields\n" + fieldText + "variables\n" + variableText;
    }

    /** cmdTest: the query body is printed; `lte` and `gte` come into
        existence as a side effect of reading them. */
    method TestQuery(input: seq<string>) returns (e: Effect)
      requires Valid() && |input| >= 1
      modifies this
      ensures Valid()
      ensures fields == old(fields)
      ensures variables == TestVariables(old(variables))
      ensures e == TestEffect(old(Current()), input)
    {
      var query := QueryText(input);
      var from := variables["from"];
      var size := variables["size"];
      if "lte" !in variables {
        variables := variables["lte" := ""];
      }
      if "gte" !in variables {
        variables := variables["gte" := ""];
      }
      e := Effect([Styled(QueryBody(query, from, size)), Text("\n")], None, false);
    }

    /** cmdQuery: build and post the request, then handle what comes back. */
    method RunQuery(input: seq<string>, response: Response) returns (e: Effect)
      requires Valid() && |input| >= 1
      ensures e == QueryEffect(Current(), input, response)
    {
      if |input| < 2 {
        return Quiet("Usage: " + input[0] + " <query>\n");
      }
      var query := QueryText(input);
      var from := variables["from"];
      var size := variables["size"];
      var url := ConstructUrl(SearchPath);
      var request := HttpRequest(url, Header, QueryBody(query, from, size));
      e := Exchange(response, Shown(fields), request);
    }

    /** processInput: skip comments and empty lines, split into tokens, then
        run the command the tokens name. */
    method ProcessInput(line: string, response: Response) returns (e: Effect)
      requires Valid()
      modifies this
      ensures Valid()
      ensures (Current(), e) == Process(old(Current()), line, response)
    {
      if |line| == 0 || line[0] == '#' {
        return Quiet("");
      }
      ProcessDispatches(Current(), line, response);
      var arguments := Tokenize(line);
      e := RunCommand(arguments, response);
    }

    /** The rest of processInput: `arguments[0]` must exist; look the command
        word up and call the command. */
    method RunCommand(arguments: seq<string>, response: Response) returns (e: Effect)
      requires Valid()
      modifies this
      ensures Valid()
      ensures (Current(), e) == Dispatch(old(Current()), arguments, response)
    {
      if |arguments| == 0 {
        return UndefinedBehaviour;
      }
      if arguments[0] !in CommandTable {
        return Quiet("command doesn't exists\n");
      }
      e := Execute(CommandTable[arguments[0]], arguments, response);
    }

    /** The call through the command table. */
    method Execute(command: Command, arguments: seq<string>, response: Response) returns (e: Effect)
      requires Valid() && |arguments| >= 1
      modifies this
      ensures Valid()
      ensures (Current(), e) == Run(old(Current()), command, arguments, response)
    {
      ghost var before := Current();
      match command {
        case Show =>
          var out := ShowSettings();
          e := Quiet(out);
        case Set =>
          var out := SetVariable(arguments);
          e := Quiet(out);
        case Enable =>
          if |arguments| < 2 {
            e := UndefinedBehaviour;
          } else {
            var out := EnableField(arguments);
            e := Quiet(out);
          }
        case Disable =>
          if |arguments| < 2 {
            e := UndefinedBehaviour;
          } else {
            var out := DisableField(arguments);
            e := Quiet(out);
          }
        case Test =>
          e := TestQuery(arguments);
        case Query =>
          e := RunQuery(arguments, response);
      }
      RunKeepsValid(before, command, arguments, response);
    }
  }

  /** connectionHandler's end of a posted request: report a failed
      connection, or render the reply. */
  method Exchange(response: Response, shown: seq<LogField>, request: HttpRequest) returns (e: Effect)
    ensures e == ReplyEffect(response, shown, request)
  {
    match response {
      case ConnectFailed(reason) =>
        e := Effect([Text("Error during the connection...: " + reason)], Some(request), false);
      case Reply(body) =>
        var o := HandleReply(body, shown);
        match o {
          case Output(t) => e := Effect(Say(t), Some(request), false);
          case Terminated(t) => e := Effect(Say(t), Some(request), true);
          case Undefined => e := UndefinedBehaviour;
        }
    }
  }

  /** The registry loop of cmdShow, over the keys in iteration order. */
  method FieldListing(fields: map<string, LogField>, keys: seq<string>) returns (text: string)
    requires forall k :: k in keys ==> k in fields && |k| <= 14
    ensures text == FieldLines(fields, keys)
  {
    text := "";
    var i := 0;
    while i < |keys|
      invariant 0 <= i <= |keys|
      invariant text + FieldLines(fields, keys[i..]) == FieldLines(fields, keys)
    {
      var line := FieldEntry(fields, keys[i]);
      FieldLinesStep(fields, keys, i);
      AppendAssociates(text, line, FieldLines(fields, keys[i + 1..]));
      text := text + line;
      i := i + 1;
    }
  }

  /** One registry line of cmdShow: the padded name, ": " and the flag. */
  method FieldEntry(fields: map<string, LogField>, key: string) returns (line: string)
    requires key in fields && |key| <= 14
    ensures line == FieldLine(fields, key)
  {
    line := PaddedName(fields[key].name, key);
    line := line + ": " + (if fields[key].enabled then "1" else "0") + "\n";
  }

  lemma AppendAssociates(a: string, b: string, c: string)
    ensures a + (b + c) == (a + b) + c
  {
  }

  lemma FieldLinesStep(fields: map<string, LogField>, keys: seq<string>, i: nat)
    requires forall k :: k in keys ==> k in fields && |k| <= 14
    requires i < |keys|
    ensures FieldLines(fields, keys[i..]) == FieldLine(fields, keys[i]) + FieldLines(fields, keys[i + 1..])
  {
    assert keys[i..][1..] == keys[i + 1..];
  }

  lemma VariableLinesStep(vars: map<string, string>, keys: seq<string>, j: nat)
    requires forall k :: k in keys ==> k in vars
    requires j < |keys|
    ensures VariableLines(vars, keys[j..]) == VariableLine(vars, keys[j]) + VariableLines(vars, keys[j + 1..])
  {
    assert keys[j..][1..] == keys[j + 1..];
  }

  /** A blank, the name, and one blank per column the key falls short of 14. */
  method PaddedName(name: string, key: string) returns (line: string)
    requires |key| <= 14
    ensures line == " " + name + Spaces(14 - |key|)
  {
    line := " " + name;
    var pad := 0;
    while pad < 14 - |key|
      invariant 0 <= pad <= 14 - |key|
      invariant line == " " + name + Spaces(pad)
    {
      line := line + " ";
      pad := pad + 1;
    }
  }

  /** The variables loop of cmdShow, over the keys in iteration order. */
  method VariableListing(vars: map<string, string>, keys: seq<string>) returns (text: string)
    requires forall k :: k in keys ==> k in vars
    ensures text == VariableLines(vars, keys)
  {
    text := "";
    var j := 0;
    while j < |keys|
      invariant 0 <= j <= |keys|
      invariant text + VariableLines(vars, keys[j..]) == VariableLines(vars, keys)
    {
      var line := " " + keys[j] + " = " + vars[keys[j]] + "\n";
      assert line == VariableLine(vars, keys[j]);
      VariableLinesStep(vars, keys, j);
      AppendAssociates(text, line, VariableLines(vars, keys[j + 1..]));
      text := text + line;
      j := j + 1;
    }
  }
}
