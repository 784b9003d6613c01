# cmdlog: a verified model of the command shell and its reply renderer

cmdlog is a small interactive client for an Elasticsearch log repository
(`src/cmdlog.cpp`). The user types commands at a prompt: `show`, `set`,
`enable`, `disable`, `test` and `query`. `query` turns the rest of the line
into a `query_string` search request. It posts the request to
`http://localhost:9200/aos64-*/_search` and prints one line per hit. Each line
shows the enabled log fields in a fixed display order. LogLevel is coloured,
and the highlighted fragment is used when the server sends exactly one.

This project models that program's logic in Dafny:

- `basics.dfy`, `ansi.dfy`, `strings.dfy`: the Option and "value or jsoncpp
  exception" wrappers, the ANSI codes the program writes, and the string
  formatting it relies on. That is `ostream` padding with `width`/`left`,
  `::tolower`, and jsoncpp's decimal rendering of integers.
- `json.dfy`: jsoncpp's `Json::Value` as a tree (`JNull | JBool | JNum | JStr | JArr | JObj`).
  It also holds the accessors the program uses, with jsoncpp's behaviour:
  - non-const `operator[]` on null yields null;
  - on a wrong kind of value it throws;
  - `size()` counts members or elements;
  - `asString()` is partial, so it returns an Option.
  Assignment along a path of subscripts is the `Put` function.
- `registry.dfy`: the `logfields` registry, the `vlogfields` display order
  and the enable/disable update of `cmdManageField`.
- `ordering.dfy`: the order in which a `std::map<std::string, …>` is walked,
  which `cmdShow` uses.
- `input.dfy`: `processInput`'s `>>` tokenizer and the query-text join loop
  of `cmdQuery` and `cmdTest`. Both are loops proved against functions.
- `request.dfy`: `constructUrl`, and `constructQuery` as five assignments
  into the parsed template tree.
- `render.dfy`: the `MG_EV_HTTP_REPLY` branch of `connectionHandler`. It is
  written as functions, with the handler's loops as methods proved equal to
  them. `reply_props.dfy` holds what those functions promise.
- `commands.dfy`: the commands and `processInput` as functions from a
  session state (registry and variables) to a new state and an effect.
  `commands_props.dfy` holds what they promise end to end.
- `session.dfy`: the same commands as methods of a `Session` class. The
  class holds the two global maps and updates them in place, and each
  method is proved against the functions above.

An effect is one of two things. The first is what the line writes (text, or
a request body as jsoncpp would print it) together with the request it
posts and whether the process then ends in `std::terminate`. The second is
`UndefinedBehaviour`.

## Behaviour the code has that a reader may not expect

The model follows the code. These behaviours follow from it and are proved:

- Hits are printed from the last hit of the response to the first
  (`ReplyProperties.HitsInReverseOrder`).
- The `tags` column never shows a tag (`ReplyProperties.TagsNeverPrinted`).
  The reason is the order of the two reads:
  - `asString()` of an array throws before the `[0]` branch is reached;
  - a scalar string survives `asString()`, but `[0]` on a scalar throws;
  - a missing value reads as "", which reaches undefined behaviour.
- An enabled field that a hit does not carry reads as null, hence as "".
  The next step, `strfield[strfield.size() - 1]`, is undefined behaviour
  (`ReplyProperties.MissingFieldIsUndefined`). The model makes this an
  explicit `Undefined` outcome of the reply.
- Before the LogLevel comparison, a value ending in `\n` loses two bytes. A
  `\r\n`-terminated level is therefore compared correctly. A level ending
  in a lone `\n` loses a letter and is printed uncoloured
  (`ReplyProperties.LevelColours`).
- Some jsoncpp exceptions happen outside the per-field `try`: reading
  `highlight` from a hit that is neither null nor an object, and reading
  `hits` or `error.root_cause` from a reply. Such an exception ends
  the process; the model's outcome is `Terminated` with the text already
  written. A hit that is an object never ends the process. If its
  `highlight` is neither null nor an object (a number, say), every field
  lookup throws inside the `try`, and the hit prints an empty line
  (`ReplyProperties.ObjectHitReturns`). A missing or null `highlight`
  reads as an empty object and the fields print as usual.
- A reply with no hits and no `error` member (a search that found
  nothing) reads `error.root_cause` as null, of size 0, and prints
  nothing (`ReplyProperties.EmptySearchPrintsNothing`).
- No request has a restricted or time-range shape. The only template is
  the plain `query_string` one. Its highlight tags are set directly to the
  red and reset escape codes, so rendering substitutes nothing. `test`
  reads `lte` and `gte` only for the side effect of `std::map::operator[]`,
  which creates them as "".
- An empty query text is not an error. `query` alone prints its usage
  line, and `test` alone prints a request with an empty query string.
- Three cases are undefined behaviour, and each is an explicit
  `UndefinedBehaviour` effect that changes no state:
  - a non-empty line made only of separators (`arguments[0]` of an empty vector);
  - `enable` or `disable` without an argument (`argv[1]` out of range);
  - an empty field string in a reply (described above).

## Model

| member | source | states |
|---|---|---|
| `Ansi.CodesDistinct` | src/cmdlog.cpp:68-86 | the red, green, yellow, magenta and reset codes are non-empty and pairwise different |
| `Strings.PadRightSpec` | src/cmdlog.cpp:329-342 | `width(9)` with `left` keeps the value as its prefix and fills with blanks up to 9 columns |
| `Strings.Lower` | src/cmdlog.cpp:448 | `::tolower` applied to every byte; the length is kept |
| `Strings.LowerIsLowerCase` | src/cmdlog.cpp:448 | lower-casing yields lower-case text and leaves lower-case text unchanged |
| `JsonTree.Key` | src/cmdlog.cpp:285 | `value[key]` succeeds exactly on null and objects and yields the member or null |
| `JsonTree.At` | src/cmdlog.cpp:290-291 | `value[i]` succeeds exactly on null and arrays and yields the element or null |
| `JsonTree.AsString` | src/cmdlog.cpp:316 | `asString()` fails exactly on arrays and objects, returns a string unchanged, and reads as "" only for null or "" |
| `JsonTree.PutGet` | src/cmdlog.cpp:243-248 | an assignment through a chain of subscripts reads back the assigned value |
| `JsonTree.PutFrame` | src/cmdlog.cpp:243-248 | an assignment changes nothing reached by a chain that parts ways with it |
| `Registry.DisplayOrderCoversRegistry` | src/cmdlog.cpp:188-219 | the display order has 13 entries, each registry key exactly once and nothing else |
| `Registry.InitiallyEnabled` | src/cmdlog.cpp:188-202 | initially exactly tags, sourceobject, loglevel, timestamp and text are enabled |
| `Registry.KeysAreLowerCasedNames` | src/cmdlog.cpp:188-202 | each registry key is its schema name lower-cased |
| `Registry.KeyLengths` | src/cmdlog.cpp:188-202 | every key has at most 14 bytes, as many as its schema name |
| `Registry.Shown` | src/cmdlog.cpp:205-219 | defines what `vlogfields` points at: the registry entries in display order |
| `Registry.ManagedFields` | src/cmdlog.cpp:447-455 | defines the registry after enable/disable: the lower-cased key's flag is set when that key is known |
| `Registry.ShownAfterManage` | src/cmdlog.cpp:205-219 | after enable/disable exactly the display slot of the lower-cased key shows the new flag and every other slot is unchanged; an unknown key changes nothing shown |
| `Registry.ManagedFieldsSpec` | src/cmdlog.cpp:447-455 | enable/disable keeps every key and name, sets only the lower-cased key's flag, and changes nothing for an unknown key |
| `Registry.ManageMessage` | src/cmdlog.cpp:450-451 | the diagnostic `<lower-cased key> unvalid field name` appears exactly when the key is unknown |
| `Registry.ManagedFieldsKeepsShape` | src/cmdlog.cpp:447-455 | enable/disable keeps the registry's keys and schema names |
| `Registry.ManageBySchemaName` | src/cmdlog.cpp:447-455 | a field named by its mixed-case schema name is found and only its flag changes |
| `Ordering.SortedKeysSpec` | src/cmdlog.cpp:422-433 | a std::map walk lists every key once, in strictly ascending byte order |
| `Ordering.SortedKeysUnique` | src/cmdlog.cpp:422-433 | only one ascending sequence lists exactly a given key set |
| `Ordering.Ordered` | src/cmdlog.cpp:422-433 | walking from begin() to end() yields the sorted key sequence |
| `Input.Tokens` | src/cmdlog.cpp:496-502 | defines the tokens `>>` extracts from a line: the maximal runs of non-separators, in order |
| `Input.Join` | src/cmdlog.cpp:379-387 | defines the query text: the tokens with one blank between neighbours |
| `Input.Tokenize` | src/cmdlog.cpp:496-502 | the `>>`/`push_back` loop yields exactly the whitespace-separated tokens of the line |
| `Input.Extract` | src/cmdlog.cpp:500 | one `>>` extraction takes the maximal run of non-separators |
| `Input.TokensAreWords` | src/cmdlog.cpp:500-502 | every token is non-empty and holds no separator |
| `Input.NoTokensIffBlank` | src/cmdlog.cpp:496-504 | a line yields no token exactly when it is all separators |
| `Input.QueryText` | src/cmdlog.cpp:379-387 | the join loop builds the tokens after the command word, separated by single blanks |
| `Input.TokensOfJoin` | src/cmdlog.cpp:379-387 | splitting the joined query text gives back the tokens |
| `Input.JoinOfTokensIsStable` | src/cmdlog.cpp:379-387 | re-joining a line's tokens only normalises spacing: tokenising again gives the same tokens |
| `Input.TwoTokens` | src/cmdlog.cpp:496-502 | a command word, one blank and an argument give two tokens |
| `Request.ConstructUrl` | src/cmdlog.cpp:229-232 | the URL is the base URL followed by the given path |
| `Request.SearchUrl` | src/cmdlog.cpp:392 | the search URL is `http://localhost:9200/aos64-*/_search` |
| `Request.TemplateHasPaths` | src/cmdlog.cpp:118-149 | the template has every assigned place, with its original value |
| `Request.FillValues` | src/cmdlog.cpp:243-248 | after the five assignments each place holds its new value |
| `Request.FillFrame` | src/cmdlog.cpp:243-248 | the five assignments change nothing else in the tree |
| `Request.BuildQuery` | src/cmdlog.cpp:234-251 | defines constructQuery's body: the template after the five assignments |
| `Request.BuildQuerySpec` | src/cmdlog.cpp:234-251 | the body is the template except the verbatim query, the red/reset tags and `from`/`size` as strings |
| `Request.PaginationBecomesStrings` | src/cmdlog.cpp:118-120 | the template's numeric `from`/`size` become strings in every built body |
| `Render.CauseText` | src/cmdlog.cpp:290-293 | defines one root cause's line, or none when reading `reason` or `type` throws |
| `Render.ErrorsFrom` | src/cmdlog.cpp:289-294 | defines the root-cause loop from cause i: the lines in order, ending the process at the first cause that throws |
| `Render.ErrorReport` | src/cmdlog.cpp:286-298 | defines the zero-hit branch: `error.root_cause` is read outside any try |
| `Render.Stripped` | src/cmdlog.cpp:317-319 | defines the comparison copy: a value ending in a newline loses its last two bytes, a one-byte value is kept whole |
| `Render.LevelText` | src/cmdlog.cpp:326-340 | defines the LogLevel column: colour, the value padded to 9 columns, the reset code, a blank |
| `Render.FieldText` | src/cmdlog.cpp:306-356 | defines one pass of the field loop: the body of its try, where an exception abandons the field |
| `Render.HitLine` | src/cmdlog.cpp:303-359 | defines one hit's line: `highlight` copied outside the try, the fields in display order, then endl |
| `Render.HitsFrom` | src/cmdlog.cpp:301-360 | defines the hit loop from hit n-1 down to hit 0 |
| `Render.RenderReply` | src/cmdlog.cpp:284-360 | defines the reply branch: the error report when `hits.hits` is empty, the hit lines otherwise |
| `Render.LevelColour` | src/cmdlog.cpp:332-340 | red exactly for Error/Emergency, yellow for Warning, green for Info, magenta for Debug, none otherwise |
| `Render.PrintErrors` | src/cmdlog.cpp:288-295 | the root-cause loop produces the error report function's outcome |
| `Render.PrintHit` | src/cmdlog.cpp:303-359 | the field loop of one hit produces that hit's line function |
| `Render.PrintHits` | src/cmdlog.cpp:301-360 | the loop from the last hit to the first produces the hit-loop function's outcome |
| `Render.HandleReply` | src/cmdlog.cpp:275-364 | the reply branch produces the rendering function's outcome |
| `ReplyProperties.DisabledFieldPrintsNothing` | src/cmdlog.cpp:314 | a disabled field prints nothing |
| `ReplyProperties.UnconvertibleValueSkipped` | src/cmdlog.cpp:315-316 | an array or object value is skipped: the exception is caught for that field only |
| `ReplyProperties.FieldUndefinedExactly` | src/cmdlog.cpp:311-318 | a field reaches undefined behaviour exactly when it is enabled and its value reads as "" |
| `ReplyProperties.MissingFieldIsUndefined` | src/cmdlog.cpp:315-318 | an enabled field that the record lacks reaches undefined behaviour |
| `ReplyProperties.TagsNeverPrinted` | src/cmdlog.cpp:315-325 | the tags column never prints text: it is skipped or undefined |
| `ReplyProperties.HighlightChoice` | src/cmdlog.cpp:311-312 | an ordinary field prints the first fragment when there is exactly one, else its own value, then a blank |
| `ReplyProperties.LogLevelColumn` | src/cmdlog.cpp:328-342 | LogLevel prints colour, the value padded to 9, the reset code and a blank, and ignores highlights |
| `ReplyProperties.StrippedCrLf` | src/cmdlog.cpp:318-320 | a value ending in CR LF is compared without both bytes |
| `ReplyProperties.LevelColours` | src/cmdlog.cpp:318-342 | concrete levels: Error is red and padded; Warning with CR LF is yellow; Info with a lone LF gets no colour |
| `ReplyProperties.OnlyEnabledFieldsMatter` | src/cmdlog.cpp:305-314 | a hit's line depends only on its enabled fields, in display order |
| `ReplyProperties.CombineInOrder` | src/cmdlog.cpp:305-357 | field outputs are written one after another, in order |
| `ReplyProperties.CombineUndefinedExactly` | src/cmdlog.cpp:305-357 | a line is undefined exactly when one of its fields is |
| `ReplyProperties.HitLineSpec` | src/cmdlog.cpp:303-359 | a hit's line is its fields' texts in display order plus a newline, or undefined exactly when a field is |
| `ReplyProperties.HitsWalkBackwards` | src/cmdlog.cpp:301 | the hit loop visits the hits from the last to the first |
| `ReplyProperties.SequencedInOrder` | src/cmdlog.cpp:301-360 | outcomes that all return normally write their texts in order |
| `ReplyProperties.HitsBranch` | src/cmdlog.cpp:285-287 | a non-empty `hits.hits` array takes the hit branch |
| `ReplyProperties.NewestFirstLines` | src/cmdlog.cpp:301-360 | the lines of well-behaved hits are written last hit first |
| `ReplyProperties.HitsInReverseOrder` | src/cmdlog.cpp:285-360 | a reply with hits prints one line per hit, in reverse response order |
| `ReplyProperties.BadHighlightTerminates` | src/cmdlog.cpp:301-303 | a hit that is neither null nor an object ends the process, because its `highlight` is read outside the try; the text written is exactly the lines of the hits after it in the response, last first |
| `ReplyProperties.EarlierFailureCarries` | src/cmdlog.cpp:301-303 | once hit i ends the process, the hit loop ends it too, after writing exactly the lines of hits n-1 down to i+1 |
| `ReplyProperties.ObjectHitReturns` | src/cmdlog.cpp:303-359 | a hit that is an object never ends the process; if its `highlight` is present and neither null nor an object, the hit prints an empty line |
| `ReplyProperties.AbandonedFields` | src/cmdlog.cpp:306-356 | when the highlight lookup throws, every field is abandoned inside the try and the fields print nothing |
| `ReplyProperties.CauseTextExactly` | src/cmdlog.cpp:290-294 | a root cause prints a line exactly when it can be subscripted and both `reason` and `type` convert with asString; the line is `error: <type>, <reason>` |
| `ReplyProperties.CauseLineExamples` | src/cmdlog.cpp:291-294 | a missing `type` prints as empty, a numeric one as its digits, and an array `reason` prints no line |
| `ReplyProperties.CauseLines` | src/cmdlog.cpp:290-295 | root causes that all convert print one `error: type, reason` line each, in order |
| `ReplyProperties.BadCauseCuts` | src/cmdlog.cpp:290-295 | the first root cause that does not convert ends the process, after the lines of the causes before it |
| `ReplyProperties.ErrorReplyLines` | src/cmdlog.cpp:285-299 | a zero-hit reply whose `error.root_cause` is an array of root causes that all convert (strings, numbers, booleans or missing members) prints exactly their lines and no hit line |
| `ReplyProperties.EmptySearchPrintsNothing` | src/cmdlog.cpp:285-299 | a zero-hit reply whose `error.root_cause` reads as something of size 0 (absent, null, or an empty array) prints nothing; in particular `{"hits":{"hits":[]}}` prints nothing |
| `ReplyProperties.ErrorReplyCut` | src/cmdlog.cpp:285-299 | a zero-hit reply whose root cause j does not convert prints the lines of causes 0..j-1 and then terminates |
| `ReplyProperties.ErrorOnlyReply` | src/cmdlog.cpp:285-299 | a reply without `hits` and with one root cause prints exactly its red error line |
| `Commands.Process` | src/cmdlog.cpp:491-514 | defines processInput: empty lines and comments do nothing, other lines are dispatched on their tokens |
| `Commands.Dispatch` | src/cmdlog.cpp:504-513 | defines the command lookup: no token is undefined, an unknown word is reported, a known one runs its command |
| `Commands.Run` | src/cmdlog.cpp:417-487 | defines each command's new state and effect |
| `Commands.ShowText` | src/cmdlog.cpp:417-436 | defines cmdShow's output: both maps walked in key order |
| `Commands.SetVariables` | src/cmdlog.cpp:438-445 | defines cmdSetv's new variables |
| `Commands.TestVariables` | src/cmdlog.cpp:478-481 | defines cmdTest's new variables: `lte` and `gte` created empty when absent |
| `Commands.QueryEffect` | src/cmdlog.cpp:371-413 | defines cmdQuery's effect: the usage line without a query, else the request and the rendered reply |
| `Commands.FieldLine` | src/cmdlog.cpp:423-429 | defines one registry line of cmdShow: a blank, the schema name, blanks up to 14 columns counted by the key, ": " and the flag as 1 or 0 |
| `Commands.VariableLine` | src/cmdlog.cpp:432-435 | defines one variable line of cmdShow: ` key = value` |
| `Commands.QueryRequest` | src/cmdlog.cpp:379-393 | defines the request cmdQuery and cmdTest build: the search URL, the JSON header and constructQuery's body for the joined query text and `from`/`size` |
| `Commands.TestEffect` | src/cmdlog.cpp:483-486 | defines cmdTest's effect: the body printed and a newline, nothing sent |
| `Commands.ReplyEffect` | src/cmdlog.cpp:262-364 | defines how the exchange ends: the connection-error text, or the rendered reply with its termination, or undefined behaviour |
| `Commands.InitialIsValid` | src/cmdlog.cpp:188-225 | the initial registry and variables satisfy the session invariant |
| `Commands.SetVariablesSpec` | src/cmdlog.cpp:438-445 | `set` with three or more tokens assigns argv[1] := argv[2] and keeps every other variable; fewer tokens change nothing |
| `Commands.SetMessage` | src/cmdlog.cpp:439-441 | `set` prints its usage line exactly when fewer than three tokens are given; that line runs the command word into `set` with no blank |
| `Commands.TestVariablesSpec` | src/cmdlog.cpp:478-481 | `test` keeps every variable and adds `lte`/`gte` as "" only when absent |
| `Commands.RunKeepsValid` | src/cmdlog.cpp:438-487 | every command keeps the registry's shape and the `from`/`size` variables |
| `Commands.ProcessDispatches` | src/cmdlog.cpp:491-502 | a line that is neither empty nor a comment is dispatched on its tokens |
| `CommandProperties.DispatchKeepsValid` | src/cmdlog.cpp:504-513 | dispatching a token vector keeps the invariant |
| `CommandProperties.ProcessKeepsValid` | src/cmdlog.cpp:491-513 | every input line keeps the invariant |
| `CommandProperties.CommandWords` | src/cmdlog.cpp:526-531 | the table has exactly the six command words, each bound to a different command |
| `CommandProperties.SkippedLines` | src/cmdlog.cpp:492-494 | empty lines and comments change nothing and print nothing |
| `CommandProperties.BlankLineIsUndefined` | src/cmdlog.cpp:496-504 | a non-empty all-separator line reaches undefined behaviour |
| `CommandProperties.NoWords` | src/cmdlog.cpp:504 | an empty argument vector reaches undefined behaviour |
| `CommandProperties.UnknownWord` | src/cmdlog.cpp:508-509 | an unknown command word prints `command doesn't exists` and changes nothing |
| `CommandProperties.UnknownCommand` | src/cmdlog.cpp:491-509 | a line whose first token is unknown prints `command doesn't exists` and changes nothing |
| `CommandProperties.RunChanges` | src/cmdlog.cpp:417-487 | only set, enable, disable and test change state; only query with an argument posts |
| `CommandProperties.CommandNames` | src/cmdlog.cpp:526-531 | each command is reached only through its own word |
| `CommandProperties.DispatchChanges` | src/cmdlog.cpp:504-513 | a state change needs a set/enable/disable/test word; a request needs `query` and an argument |
| `CommandProperties.WhatChangesWhat` | src/cmdlog.cpp:491-513 | the same, for whole input lines |
| `CommandProperties.ShowCommand` | src/cmdlog.cpp:417-436 | `show` prints the listing and changes nothing |
| `CommandProperties.SetCommand` | src/cmdlog.cpp:438-445 | `set` assigns and prints nothing, or prints its usage line and changes nothing |
| `CommandProperties.SetAssigns` | src/cmdlog.cpp:438-445 | the line `set name value` assigns exactly that variable |
| `CommandProperties.SetUsage` | src/cmdlog.cpp:439-441 | `set` with fewer than three tokens prints `usage: setset <variable> <value>` |
| `CommandProperties.ManageCommand` | src/cmdlog.cpp:447-465 | enable/disable: undefined without an argument, else sets one lower-cased known field or prints the diagnostic |
| `CommandProperties.NamesAreWords` | src/cmdlog.cpp:188-202 | every schema name is a single token |
| `CommandProperties.EnableByName` | src/cmdlog.cpp:457-460 | `enable <SchemaName>` sets exactly that field and prints nothing |
| `CommandProperties.DisableUnknown` | src/cmdlog.cpp:462-465 | disabling an unknown field prints its lower-cased name with the diagnostic and changes nothing |
| `CommandProperties.QueryRequestSpec` | src/cmdlog.cpp:381-393 | the request goes to the search URL with the JSON header; its query tokenises to the arguments, `from`/`size` are the variables, and the highlight tags are the red and reset codes |
| `CommandProperties.QueryCommand` | src/cmdlog.cpp:371-393 | `query` prints usage without text, else posts the request and renders the reply; state unchanged |
| `CommandProperties.QuerySends` | src/cmdlog.cpp:371-413 | a query line posts exactly its request and reports a failed connection or the rendered reply |
| `CommandProperties.ReplyOutcomes` | src/cmdlog.cpp:262-364 | how a posted request ends: connection error text, rendered text and termination, or undefined |
| `CommandProperties.QueryUsage` | src/cmdlog.cpp:372-375 | `query` alone prints `Usage: query <query>` and posts nothing |
| `CommandProperties.TestCommand` | src/cmdlog.cpp:467-487 | `test` prints the body `query` would post, sends nothing, and leaves lte/gte set and other variables unchanged |
| `CommandProperties.TestStateKeeps` | src/cmdlog.cpp:478-481 | reading `lte` and `gte` leaves the registry alone, sets both and keeps every variable already set |
| `CommandProperties.TestPrintsBody` | src/cmdlog.cpp:467-487 | a whole `test` input line prints the body `query` would post, sends nothing, and changes the state as the command does |
| `CommandProperties.FieldLineLayout` | src/cmdlog.cpp:423-429 | each registry line of `show` has 19 characters: name from column 1, ": " at 15, flag at 17 |
| `CommandProperties.RegistryKeysAscending` | src/cmdlog.cpp:188-202 | the registry keys in byte order |
| `CommandProperties.ShowOrder` | src/cmdlog.cpp:422-433 | `show` lists fields alphabetically by key and variables as from, size |
| `Shell.Session.constructor` | src/cmdlog.cpp:188-225 | the session starts with the initial registry and variables |
| `Shell.Session.ManageField` | src/cmdlog.cpp:447-455 | updates the registry in place as the enable/disable function says and prints its diagnostic |
| `Shell.Session.EnableField` | src/cmdlog.cpp:457-460 | `cmdEnableField` enables argv[1] |
| `Shell.Session.DisableField` | src/cmdlog.cpp:462-465 | `cmdDisableField` disables argv[1] |
| `Shell.Session.SetVariable` | src/cmdlog.cpp:438-445 | `cmdSetv` updates the variables in place and leaves the registry alone |
| `Shell.Session.ShowSettings` | src/cmdlog.cpp:417-436 | `cmdShow` prints both maps in key order |
| `Shell.Session.TestQuery` | src/cmdlog.cpp:467-487 | `cmdTest` prints the body and inserts lte/gte |
| `Shell.Session.RunQuery` | src/cmdlog.cpp:371-413 | `cmdQuery` posts the request and renders the reply |
| `Shell.Session.ProcessInput` | src/cmdlog.cpp:491-514 | `processInput` keeps the invariant and equals the line function |
| `Shell.Session.RunCommand` | src/cmdlog.cpp:504-513 | the command-table lookup and call |
| `Shell.Session.Execute` | src/cmdlog.cpp:511-512 | the call through the function pointer runs the command's function |
| `Shell.Exchange` | src/cmdlog.cpp:262-364 | the connection handler's result for one response |
| `Shell.FieldListing` | src/cmdlog.cpp:422-430 | the registry loop of `cmdShow` prints one padded line per key in order |
| `Shell.FieldEntry` | src/cmdlog.cpp:423-429 | one registry line of `cmdShow` is that key's field-line function |
| `Shell.PaddedName` | src/cmdlog.cpp:423-427 | the name is followed by `14 - key.size()` blanks |
| `Shell.VariableListing` | src/cmdlog.cpp:432-435 | each variable prints as ` key = value` in order |

## Left out

- HTTP transport and the event loop are not modelled: `mg_mgr_init`, `mg_connect_http`, `mg_mgr_poll`, `s_exit_flag` and the connection flags. They are network I/O. The server's answer is a parameter (`Response`): a parsed reply or a failed connection with its `strerror` text.
- The REPL, line history and `main` are not modelled (`linenoise*`, `getLineHistory`, `getpwuid`). They are terminal and OS plumbing. The command table that `main` fills is the constant `CommandTable`.
- JSON text is not modelled. Parsing the template and the reply is a foreign library call, so the template is given as the tree jsoncpp parses from it and a reply is given as a tree. `toStyledString` is not modelled either: a printed body is the `Styled(body)` piece, a deterministic function of the query, `from` and `size`.
- A reply body that jsoncpp cannot parse (empty, HTML, truncated) is not modelled. `jsonstream >> json` runs outside any try, so in the program such a body throws and ends the process; `Response` only carries parsed trees.
- `JsonTree.AsString` follows jsoncpp 1.x, where `asString()` of an integer gives its decimal text; jsoncpp 0.x throws there instead.
- jsoncpp real numbers are not modelled; `JNum` is an integer. A reply whose fields hold real numbers is outside the model.
- The `LOGMSG` macro, the header constant's use by the transport, and the unused colour constants are not modelled. Nothing in the core uses them.
- Output is accumulated as a string per command, so output interleaved with a crash is simplified. When an exception escapes the handler, the text written so far is kept and the process is marked as terminating.
- `Strings.LowerChar` leaves bytes outside A-Z unchanged. For a byte of 0x80 or more, passed as a negative `char`, `::tolower` is undefined by the C standard; glibc returns it unchanged, which is what the model does.
- In the undefined-behaviour cases the model stops and leaves the state as it was. The program's actual behaviour there is unspecified.
- `Input.QueryText`: requires at least one token. `processInput` always passes at least one, and `input.size() - 1` of an empty vector would wrap around.
- `Shell.Session.EnableField`: requires a second token, because `argv[1]` of a one-token vector is undefined behaviour. The dispatcher models that case as `UndefinedBehaviour`.
- `Shell.Session.DisableField`: requires a second token for the same reason.
