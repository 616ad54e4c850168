/**
 * Turning a handler into a self-describing prompt command (dot/command.py).
 *
 * Python discovers a handler's parameters and doc text by reflection; here a handler
 * carries them explicitly: its identifier, its doc text if any, and its declared
 * parameters in declaration order, each with whether it declares a default.
 */
module Command {
  import opened Wrappers
  import opened Json

  /** What awaiting `func(**arguments)` does: return a value, or fail with a fault message. */
  type Invocation = map<string, Value> -> Result<Value, string>

  /** One declared parameter of a handler. */
  datatype Param = Param(name: string, hasDefault: bool)

  /** A handler: `__name__`, `inspect.getdoc`, the declared parameters and the behaviour. */
  datatype Handler = Handler(ident: string, doc: Option<string>, params: seq<Param>, call: Invocation)

  /** Anything offered for registration: a callable handler, or a value that cannot be called. */
  datatype Candidate = Callable(handler: Handler) | NotCallable

  /** The schema of one argument; `description` and `required` default as in the source. */
  datatype PromptArgument = PromptArgument(name: string, description: string := "", required: bool := false)

  /** A registered command: its public description and the handler behaviour it invokes. */
  datatype PromptCommand = PromptCommand(name: string, description: string := "", arguments: seq<PromptArgument>, func: Invocation)

  const NotCallableMessage := "The input must be a callable function."

  /** `inspect.getdoc(func) or ""`. */
  function DocText(doc: Option<string>): string
  {
    match doc
    case Some(text) => text
    case None => ""
  }

  /** The argument schema a declared parameter yields. */
  ghost predicate ArgumentFor(a: PromptArgument, p: Param)
  {
    a.name == p.name && a.description == "" && (a.required <==> !p.hasDefault)
  }

  /** `cmd` is the command registration builds from handler `h`. */
  ghost predicate Describes(cmd: PromptCommand, h: Handler)
  {
    && cmd.name == h.ident
    && cmd.description == DocText(h.doc)
    && |cmd.arguments| == |h.params|
    && (forall i :: 0 <= i < |h.params| ==> ArgumentFor(cmd.arguments[i], h.params[i]))
    && cmd.func == h.call
  }

  /** A command built without explicit description or flags takes the declared defaults. */
  lemma ArgumentDefaults(name: string)
    ensures PromptArgument(name).description == ""
    ensures !PromptArgument(name).required
    ensures forall f: Invocation :: PromptCommand(name := name, arguments := [], func := f).description == ""
  {
  }

  /** `create_command`: reject a non-callable value, otherwise build the argument list one
      declared parameter at a time and describe the handler. */
  method CreateCommand(candidate: Candidate) returns (r: Result<PromptCommand, string>)
    ensures r.Failure? <==> candidate.NotCallable?
    ensures r.Failure? ==> r.error == NotCallableMessage
    ensures r.Success? ==> Describes(r.value, candidate.handler)
  {
    if candidate.NotCallable? {
      return Failure(NotCallableMessage);
    }
    var h := candidate.handler;
    var arguments: seq<PromptArgument> := [];
    for i := 0 to |h.params|
      invariant |arguments| == i
      invariant forall j :: 0 <= j < i ==> ArgumentFor(arguments[j], h.params[j])
    {
      var param := h.params[i];
      var description := "";
      var argument := PromptArgument(name := param.name, description := description, required := !param.hasDefault);
      arguments := arguments + [argument];
    }
    r := Success(PromptCommand(h.ident, DocText(h.doc), arguments, h.call));
  }

  /** Two commands that both describe the same handler are the same command. */
  lemma DescribesUnique(a: PromptCommand, b: PromptCommand, h: Handler)
    requires Describes(a, h) && Describes(b, h)
    ensures a == b
  {
  }

  /** `PromptArgument.dict()`. */
  function ArgumentDict(a: PromptArgument): (d: map<string, Value>)
    ensures d.Keys == {"name", "description", "required"}
  {
    map["name" := Str(a.name), "description" := Str(a.description), "required" := Bool(a.required)]
  }

  /** `PromptCommand.dict()`: the public view, every field except the handler. */
  function Dict(c: PromptCommand): (d: map<string, Value>)
    ensures d.Keys == {"name", "description", "arguments"}
    ensures "func" !in d
    ensures d["arguments"].Arr? && |d["arguments"].items| == |c.arguments|
  {
    map[
      "name" := Str(c.name),
      "description" := Str(c.description),
      "arguments" := Arr(seq(|c.arguments|, i requires 0 <= i < |c.arguments| => Obj(ArgumentDict(c.arguments[i]))))
    ]
  }

  lemma ArgumentDictInjective(a: PromptArgument, b: PromptArgument)
    requires ArgumentDict(a) == ArgumentDict(b)
    ensures a == b
  {
  }

  /** The public view loses the handler and nothing else: two commands have the same view
      exactly when their names, descriptions and argument lists agree. */
  lemma DictForgetsOnlyFunc(a: PromptCommand, b: PromptCommand)
    ensures Dict(a) == Dict(b) <==>
      a.name == b.name && a.description == b.description && a.arguments == b.arguments
  {
    if Dict(a) == Dict(b) {
      assert Dict(a)["name"] == Dict(b)["name"];
      assert Dict(a)["description"] == Dict(b)["description"];
      var xs, ys := Dict(a)["arguments"].items, Dict(b)["arguments"].items;
      assert xs == ys;
      forall i | 0 <= i < |a.arguments|
        ensures a.arguments[i] == b.arguments[i]
      {
        assert xs[i] == ys[i];
        ArgumentDictInjective(a.arguments[i], b.arguments[i]);
      }
    }
  }
}
