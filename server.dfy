/**
 * The context server (dot/__init__.py): the command registry, the request dispatcher and
 * the serving loop.
 */
module Server {
  import opened Wrappers
  import opened Json
  import opened Command
  import opened Protocol

  const ProtocolVersion := 1
  const ServerName := "dot context server"
  const ServerVersion := "0.1.0"

  /**
   * `self.commands`, a Python dict from command name to command. A dict iterates in the
   * order its keys were first inserted, and assigning to an existing key keeps its place,
   * so the table keeps that order beside the map.
   */
  datatype CommandTable = CommandTable(order: seq<string>, entries: map<string, PromptCommand>)
  {
    ghost predicate Valid()
    {
      && (forall i, j :: 0 <= i < j < |order| ==> order[i] != order[j])
      && (forall name :: name in entries <==> name in order)
      && (forall name :: name in entries ==> entries[name].name == name)
    }

    /** `self.commands[cmd.name] = cmd`. */
    function Insert(cmd: PromptCommand): (t: CommandTable)
      requires Valid()
      ensures t.Valid()
      ensures t.entries.Keys == entries.Keys + {cmd.name}
      ensures t.entries[cmd.name] == cmd
      ensures forall name :: name in entries && name != cmd.name ==> t.entries[name] == entries[name]
      ensures cmd.name in entries ==> t.order == order
      ensures cmd.name !in entries ==> t.order == order + [cmd.name]
    {
      CommandTable(if cmd.name in entries then order else order + [cmd.name], entries[cmd.name := cmd])
    }
  }

  /** Registering a second command under a name leaves no trace of the first. */
  lemma InsertLastWins(t: CommandTable, first: PromptCommand, second: PromptCommand)
    requires t.Valid() && first.name == second.name
    ensures t.Insert(first).Insert(second) == t.Insert(second)
  {
  }

  /** The public view of every registered command, by name. */
  function PublicViews(t: CommandTable): map<string, Value>
  {
    map name | name in t.entries :: Obj(Dict(t.entries[name]))
  }

  /** A map whose keys are the registered names and whose values are their views is `PublicViews`. */
  lemma PublicViewsExact(t: CommandTable, prompts: map<string, Value>)
    requires t.Valid()
    requires forall name :: name in prompts <==> name in t.order
    requires forall name :: name in prompts ==> name in t.entries && prompts[name] == Obj(Dict(t.entries[name]))
    ensures prompts == PublicViews(t)
  {
  }

  /** The `result` of `initialize`. */
  function InitializeResult(t: CommandTable): (r: Value)
    ensures r.Obj? && r.fields.Keys == {"protocolVersion", "capabilities", "serverInfo"}
    ensures r.fields["serverInfo"] == Obj(map["name" := Str("dot context server"), "version" := Str("0.1.0")])
  {
    Obj(map[
      "protocolVersion" := Int(ProtocolVersion),
      "capabilities" := Obj(map["prompts" := Obj(PublicViews(t))]),
      "serverInfo" := Obj(map["name" := Str(ServerName), "version" := Str(ServerVersion)])
    ])
  }

  lemma InitializeAdvertisesRegistry(t: CommandTable)
    ensures InitializeResult(t).fields["protocolVersion"] == Int(1)
    ensures InitializeResult(t).fields["capabilities"].fields.Keys == {"prompts"}
    ensures var prompts := InitializeResult(t).fields["capabilities"].fields["prompts"];
      && prompts.Obj?
      && prompts.fields.Keys == t.entries.Keys
      && forall name :: name in prompts.fields ==> prompts.fields[name] == Obj(Dict(t.entries[name]))
  {
  }

  /** `[command.dict() for command in self.commands.values()]`. */
  function ListedViews(t: CommandTable): (views: seq<Value>)
    requires t.Valid()
    ensures |views| == |t.order|
    ensures forall i :: 0 <= i < |views| ==> t.order[i] in t.entries && views[i].Obj? && "name" in views[i].fields && views[i].fields["name"] == Str(t.order[i])
  {
    seq(|t.order|, i requires 0 <= i < |t.order| => assert t.order[i] in t.order; Obj(Dict(t.entries[t.order[i]])))
  }

  /** `list_prompts`. */
  function ListPrompts(t: CommandTable): (r: Response)
    requires t.Valid()
    ensures r.Result? && r.result.Obj? && r.result.fields.Keys == {"prompts"}
    ensures r.result.fields["prompts"].Arr? && |r.result.fields["prompts"].items| == |t.order|
  {
    Result(Obj(map["prompts" := Arr(ListedViews(t))]))
  }

  lemma {:induction false} DistinctCardinality(s: seq<string>)
    requires forall i, j :: 0 <= i < j < |s| ==> s[i] != s[j]
    ensures |set x | x in s| == |s|
  {
    if s != [] {
      var rest := s[1..];
      DistinctCardinality(rest);
      assert (set x | x in s) == (set x | x in rest) + {s[0]};
      assert s[0] !in rest by {
        forall j | 0 <= j < |rest| ensures rest[j] != s[0] { assert rest[j] == s[j + 1]; }
      }
    }
  }

  /** The i-th view `prompts/list` gives is that of the i-th name first registered. */
  lemma ListedAt(t: CommandTable, i: int)
    requires t.Valid() && 0 <= i < |t.order|
    ensures t.order[i] in t.entries
    ensures |ListedViews(t)| == |t.order| && ListedViews(t)[i] == Obj(Dict(t.entries[t.order[i]]))
  {
  }

  /** `prompts/list` lists as many views as there are registered commands. */
  lemma ListedCount(t: CommandTable)
    requires t.Valid()
    ensures |ListedViews(t)| == |t.entries|
  {
    DistinctCardinality(t.order);
    assert (set x | x in t.order) == t.entries.Keys;
  }

  /** No two positions of the `prompts/list` result hold the same view. */
  lemma ListedDistinct(t: CommandTable, i: int, j: int)
    requires t.Valid() && 0 <= i < |t.order| && 0 <= j < |t.order|
    requires ListedViews(t)[i] == ListedViews(t)[j]
    ensures i == j
  {
    DictForgetsOnlyFunc(t.entries[t.order[i]], t.entries[t.order[j]]);
  }

  /** Every registered command's view appears in the `prompts/list` result. */
  lemma ListedCovers(t: CommandTable, name: string)
    requires t.Valid() && name in t.entries
    ensures exists i :: 0 <= i < |ListedViews(t)| && ListedViews(t)[i] == Obj(Dict(t.entries[name]))
  {
    var i :| 0 <= i < |t.order| && t.order[i] == name;
    ListedAt(t, i);
  }

  /** `prompts/list` lists every registered command exactly once (and, by ListedAt, nothing else). */
  lemma ListPromptsOnePerCommand(t: CommandTable)
    requires t.Valid()
    ensures |ListedViews(t)| == |t.entries|
    ensures forall name :: name in t.entries ==>
      exists i :: 0 <= i < |ListedViews(t)| && ListedViews(t)[i] == Obj(Dict(t.entries[name]))
    ensures forall i, j :: 0 <= i < |ListedViews(t)| && 0 <= j < |ListedViews(t)| && ListedViews(t)[i] == ListedViews(t)[j] ==> i == j
  {
    ListedCount(t);
    forall name | name in t.entries
      ensures exists i :: 0 <= i < |ListedViews(t)| && ListedViews(t)[i] == Obj(Dict(t.entries[name]))
    {
      ListedCovers(t, name);
    }
    forall i, j | 0 <= i < |ListedViews(t)| && 0 <= j < |ListedViews(t)| && ListedViews(t)[i] == ListedViews(t)[j]
      ensures i == j
    {
      ListedDistinct(t, i, j);
    }
  }

  /** A handler registered under its own name is listed by `prompts/list` under that name,
      with its arguments in declared order. */
  lemma RegisteredHandlerListed(t: CommandTable, h: Handler)
    requires t.Valid() && h.ident in t.entries && Describes(t.entries[h.ident], h)
    ensures exists i :: 0 <= i < |ListedViews(t)| && ListedViews(t)[i] == Obj(Dict(t.entries[h.ident]))
    ensures var view := Dict(t.entries[h.ident]);
      && view["name"] == Str(h.ident)
      && view["description"] == Str(DocText(h.doc))
      && |view["arguments"].items| == |h.params|
      && forall k :: 0 <= k < |h.params| ==>
           var item := view["arguments"].items[k];
           && item.Obj?
           && item.fields["name"] == Str(h.params[k].name)
           && item.fields["description"] == Str("")
           && item.fields["required"] == Bool(!h.params[k].hasDefault)
  {
    ListedCovers(t, h.ident);
    var cmd := t.entries[h.ident];
    forall k | 0 <= k < |h.params|
      ensures Dict(cmd)["arguments"].items[k] == Obj(ArgumentDict(PromptArgument(h.params[k].name, "", !h.params[k].hasDefault)))
    {
      assert ArgumentFor(cmd.arguments[k], h.params[k]);
    }
  }

  /** The message of the TypeError Python raises for `func(**arguments)` when `arguments`
      is not a mapping. */
  function NotAMappingMessage(name: string, arguments: Value): string
  {
    name + "() argument after ** must be a mapping, not " + TypeName(arguments)
  }

  /** `get_prompt`: look the command up by name and await its handler. */
  function GetPrompt(t: CommandTable, params: Value): (r: Response)
    ensures r.Error? ==> r.code == InvalidParams || r.code == InternalError
    ensures r.Result? <==>
      && params.Obj?
      && var name := Lookup(params.fields, "name", Null);
         var arguments := Lookup(params.fields, "arguments", Obj(map[]));
         && name.Str? && name.s in t.entries && arguments.Obj?
         && t.entries[name.s].func(arguments.fields).Success?
    ensures r.Result? ==> r.result.Obj? && r.result.fields.Keys == {"prompt"}
  {
    if !params.Obj? then
      Error(InternalError, NoAttributeMessage(params, "get"))
    else
      var name := Lookup(params.fields, "name", Null);
      var arguments := Lookup(params.fields, "arguments", Obj(map[]));
      if !Hashable(name) then
        Error(InternalError, UnhashableMessage(name))
      else if !(name.Str? && name.s in t.entries) then
        Error(InvalidParams, "Unknown prompt: " + Show(name))
      else
        var command := t.entries[name.s];
        if !arguments.Obj? then
          Error(InvalidParams, NotAMappingMessage(command.name, arguments))
        else
          match command.func(arguments.fields)
          case Success(prompt) => Result(Obj(map["prompt" := prompt]))
          case Failure(fault) => Error(InvalidParams, fault)
  }

  /** The method a request object names (`request.get("method")`). */
  function MethodOf(request: map<string, Value>): Value
  {
    Lookup(request, "method", Null)
  }

  /** `request.get("params", {})`. */
  function ParamsOf(request: map<string, Value>): Value
  {
    Lookup(request, "params", Obj(map[]))
  }

  /** `request.get("id")`. */
  function IdOf(request: map<string, Value>): Value
  {
    Lookup(request, "id", Null)
  }

  predicate Recognised(m: Value)
  {
    m == Str("initialize") || m == Str("prompts/list") || m == Str("prompts/get")
  }

  /** What `handle_request` answers to a decoded request, faults caught included. */
  function Dispatch(t: CommandTable, request: Value): (r: Response)
    requires t.Valid()
    ensures r.Result? ==> request.Obj? && Recognised(MethodOf(request.fields))
    ensures request.Obj? && MethodOf(request.fields) in {Str("initialize"), Str("prompts/list")} ==> r.Result?
  {
    if !request.Obj? then
      Error(InternalError, NoAttributeMessage(request, "get"))
    else
      var m := MethodOf(request.fields);
      if m == Str("initialize") then Result(InitializeResult(t))
      else if m == Str("prompts/list") then ListPrompts(t)
      else if m == Str("prompts/get") then GetPrompt(t, ParamsOf(request.fields))
      else Error(MethodNotFound, "Method not found: " + Show(m))
  }

  /** Which error codes `handle_request` produces, and exactly when. */
  lemma ErrorTaxonomy(t: CommandTable, request: Value)
    requires t.Valid()
    ensures var r := Dispatch(t, request);
      && (r.Error? ==> r.code in {MethodNotFound, InvalidParams, InternalError})
      && (r.Error? && r.code == MethodNotFound <==> request.Obj? && !Recognised(MethodOf(request.fields)))
      && (r.Error? && r.code == InternalError <==>
            !request.Obj?
            || (MethodOf(request.fields) == Str("prompts/get")
                && var params := ParamsOf(request.fields);
                   !params.Obj? || !Hashable(Lookup(params.fields, "name", Null))))
      && (r.Error? && r.code == InvalidParams <==>
            request.Obj? && MethodOf(request.fields) == Str("prompts/get")
            && var params := ParamsOf(request.fields);
               && params.Obj?
               && var name := Lookup(params.fields, "name", Null);
                  var arguments := Lookup(params.fields, "arguments", Obj(map[]));
                  && Hashable(name)
                  && (!(name.Str? && name.s in t.entries)
                      || !arguments.Obj?
                      || t.entries[name.s].func(arguments.fields).Failure?))
  {
  }

  /** A line of input: decoded by `json.loads`, or the message of the decoding fault. */
  datatype Line = Parsed(request: Value) | Malformed(fault: string)

  /** One `readline`: end of input, or a line. */
  datatype Read = Eof | Got(line: Line)

  /** The envelope the loop writes for one line. */
  function Reply(t: CommandTable, line: Line): (e: Envelope)
    requires t.Valid()
    ensures line.Parsed? && line.request.Obj? ==> e.id == IdOf(line.request.fields) && e.response == Dispatch(t, line.request)
    ensures !(line.Parsed? && line.request.Obj?) ==> e.id == Null && e.response.Error? && e.response.code == InternalError
  {
    match line
    case Malformed(fault) => Envelope(Null, Error(InternalError, fault))
    case Parsed(request) =>
      if request.Obj? then Envelope(IdOf(request.fields), Dispatch(t, request))
      else Envelope(Null, Error(InternalError, NoAttributeMessage(request, "get")))
  }

  /** A method other than the three recognised ones, of any type or missing, is answered with
      -32601 and its `str()`. */
  lemma UnknownMethodReply(t: CommandTable, request: map<string, Value>)
    requires t.Valid() && !Recognised(MethodOf(request))
    ensures Reply(t, Parsed(Obj(request))) ==
      Envelope(IdOf(request), Error(MethodNotFound, "Method not found: " + Show(MethodOf(request))))
    ensures "method" !in request ==>
      Reply(t, Parsed(Obj(request))) == Envelope(IdOf(request), Error(MethodNotFound, "Method not found: None"))
  {
    if "method" !in request {
      assert Show(MethodOf(request)) == "None";
      assert "Method not found: " + "None" == "Method not found: None";
    }
  }

  /** `prompts/get` naming an unregistered prompt is answered with -32602, whatever the handlers. */
  lemma UnknownPromptReply(t: CommandTable, request: map<string, Value>, params: map<string, Value>)
    requires t.Valid()
    requires MethodOf(request) == Str("prompts/get") && ParamsOf(request) == Obj(params)
    requires var name := Lookup(params, "name", Null); Hashable(name) && !(name.Str? && name.s in t.entries)
    ensures Reply(t, Parsed(Obj(request))) ==
      Envelope(IdOf(request), Error(InvalidParams, "Unknown prompt: " + Show(Lookup(params, "name", Null))))
    ensures "name" !in params ==>
      Reply(t, Parsed(Obj(request))) == Envelope(IdOf(request), Error(InvalidParams, "Unknown prompt: None"))
  {
    if "name" !in params {
      assert Show(Lookup(params, "name", Null)) == "None";
      assert "Unknown prompt: " + "None" == "Unknown prompt: None";
    }
  }

  /** `prompts/get` on a registered prompt answers with the handler's value or its fault;
      missing `arguments` invoke the handler with no arguments. */
  lemma PromptGetReply(t: CommandTable, request: map<string, Value>, params: map<string, Value>, name: string)
    requires t.Valid()
    requires MethodOf(request) == Str("prompts/get") && ParamsOf(request) == Obj(params)
    requires Lookup(params, "name", Null) == Str(name) && name in t.entries
    requires Lookup(params, "arguments", Obj(map[])).Obj?
    ensures var arguments := Lookup(params, "arguments", Obj(map[])).fields;
      && ("arguments" !in params ==> arguments == map[])
      && Reply(t, Parsed(Obj(request))) == Envelope(IdOf(request),
           match t.entries[name].func(arguments)
           case Success(prompt) => Result(Obj(map["prompt" := prompt]))
           case Failure(fault) => Error(InvalidParams, fault))
  {
  }

  /** The server object: the command registry and the operations over it. */
  class ContextServer {
    var commands: CommandTable

    ghost predicate Valid()
      reads this
    {
      commands.Valid()
    }

    /** `ContextServer()`: an empty registry. */
    constructor ()
      ensures Valid()
      ensures commands.entries == map[] && commands.order == []
    {
      commands := CommandTable([], map[]);
    }

    /** `txt`: register a handler under its own name, replacing any earlier one, and give
        the handler back; a non-callable value is refused and nothing is registered. */
    method Txt(f: Candidate) returns (r: Result<Candidate, string>)
      requires Valid()
      modifies this
      ensures Valid()
      ensures f.NotCallable? ==> r == Failure(NotCallableMessage) && commands == old(commands)
      ensures f.Callable? ==>
        && r == Success(f)
        && f.handler.ident in commands.entries
        && Describes(commands.entries[f.handler.ident], f.handler)
        && commands == old(commands).Insert(commands.entries[f.handler.ident])
    {
      var created := CreateCommand(f);
      if created.Failure? {
        return Failure(created.error);
      }
      var command := created.value;
      commands := commands.Insert(command);
      r := Success(f);
    }

    /** `initialize`: advertise every registered command's public view under its name. */
    method Initialize(params: Value) returns (r: Response)
      requires Valid()
      ensures r == Result(InitializeResult(commands))
    {
      var t := commands;
      var prompts: map<string, Value> := map[];
      for i := 0 to |t.order|
        invariant forall name :: name in prompts <==> name in t.order[..i]
        invariant forall name :: name in prompts ==> name in t.entries && prompts[name] == Obj(Dict(t.entries[name]))
      {
        var name := t.order[i];
        assert name in t.order;
        prompts := prompts[name := Obj(Dict(t.entries[name]))];
        assert t.order[..i + 1] == t.order[..i] + [name];
      }
      assert t.order[..|t.order|] == t.order;
      PublicViewsExact(t, prompts);
      var capabilities := map["prompts" := Obj(prompts)];
      r := Result(Obj(map[
        "protocolVersion" := Int(ProtocolVersion),
        "capabilities" := Obj(capabilities),
        "serverInfo" := Obj(map["name" := Str(ServerName), "version" := Str(ServerVersion)])
      ]));
    }

    /** `handle_request`: route a decoded request on its method. It answers as `Dispatch` does;
        what that answer is, per method and per error code, is stated by ErrorTaxonomy,
        UnknownMethodReply, UnknownPromptReply and PromptGetReply. */
    method HandleRequest(request: Value) returns (r: Response)
      requires Valid()
      ensures r == Dispatch(commands, request)
    {
      if !request.Obj? {
        return Error(InternalError, NoAttributeMessage(request, "get"));
      }
      var m := MethodOf(request.fields);
      var params := ParamsOf(request.fields);
      if m == Str("initialize") {
        r := Initialize(params);
      } else if m == Str("prompts/list") {
        r := ListPrompts(commands);
      } else if m == Str("prompts/get") {
        r := GetPrompt(commands, params);
      } else {
        r := Error(MethodNotFound, "Method not found: " + Show(m));
      }
    }

    /** `run`: read lines until end of input, answering each line with exactly one envelope,
        in order; a fault on one line is answered on that line and never stops the loop. */
    method Run(input: seq<Read>) returns (output: seq<Envelope>)
      requires Valid()
      ensures |output| <= |input|
      ensures |output| < |input| ==> input[|output|].Eof?
      ensures forall i :: 0 <= i < |output| ==> input[i].Got? && output[i] == Reply(commands, input[i].line)
    {
      output := [];
      var i := 0;
      while i < |input|
        invariant i == |output| <= |input|
        invariant forall j :: 0 <= j < i ==> input[j].Got? && output[j] == Reply(commands, input[j].line)
      {
        var read := input[i];
        if read.Eof? {
          break;
        }
        var envelope;
        match read.line {
          case Malformed(fault) =>
            envelope := Envelope(Null, Error(InternalError, fault));
          case Parsed(request) =>
            var response := HandleRequest(request);
            if request.Obj? {
              envelope := Envelope(IdOf(request.fields), response);
            } else {
              envelope := Envelope(Null, Error(InternalError, NoAttributeMessage(request, "get")));
            }
        }
        output := output + [envelope];
        i := i + 1;
      }
    }
  }
}
