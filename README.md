# dot: a verified model of the request-dispatch engine

`dot` is a small prompt server. Other code registers "prompt" handlers with `txt`. Each handler
becomes a `PromptCommand`: a name, a description, an ordered argument schema and the handler
itself. The server then reads newline-delimited JSON requests and answers each with one
JSON-RPC-style response line. It understands three methods: `initialize`, `prompts/list` and
`prompts/get`.

This project models that engine in Dafny and proves properties of the model:

- `command.dfy` (module `Command`) models `dot/command.py`. It covers the argument and command
  records, their public `dict()` views, and `create_command`, which builds the argument list one
  declared parameter at a time.
- `server.dfy` (module `Server`) models `dot/__init__.py`.
  - `CommandTable` is the insertion-ordered `self.commands` dict.
  - The `ContextServer` class holds that table and has `Txt`, `Initialize`, `HandleRequest` and
    the serving loop `Run`.
  - `Dispatch`, `GetPrompt`, `ListPrompts` and `Reply` are the pure functions that say what each
    request is answered with.
- `protocol.dfy` (module `Protocol`) defines the response bodies and stamped envelopes. It also
  holds the error codes from the JSON-RPC 2.0 error-code table (section 5.1 of the JSON-RPC 2.0
  specification): -32601 method not found, -32602 invalid params, -32603 internal error.
- `json.dfy` (module `Json`) holds decoded JSON values. It also models the bits of Python
  behaviour the server's messages show: type names, `str()` of scalars, and the texts of
  AttributeError and of the unhashable-key TypeError.
- `wrappers.dfy` (module `Wrappers`) holds `Option` and `Result`.

Python finds a handler's parameters by reflection. Here a handler carries them explicitly:
`Handler(ident, doc, params, call)`.

- `params` lists the declared parameters in order, each with whether it declares a default.
- `call` is the handler's behaviour. It is an opaque function from the keyword-argument map to a
  value or a fault message.

The serving loop takes the sequence of `readline` results:

- `Eof` is an empty read.
- `Got(Parsed(v))` is a line that `json.loads` decoded to `v`.
- `Got(Malformed(msg))` is a line that could not be decoded.

The loop returns the envelopes it writes, in order.

Three behaviours of the code that a reader might not expect:

- A fault caught by `handle_request` is answered with the fault's own message, `str(e)`; there
  is no fixed text.
- `json.loads` may decode a line to something other than an object, such as a list or a number.
  `handle_request` then answers -32603 with Python's AttributeError text. The loop's own
  `request.get("id")` then faults as well, so the line that is written has `id: null` and code
  -32603.
- In `prompts/get`, a list or object `name` makes the registry lookup fault with Python's
  "unhashable type" message. That is answered -32603, not -32602.

## Model

| member | source | states |
|---|---|---|
| `Command.ArgumentDefaults` | dot/command.py:7-15 | an argument built from a name alone has `description == ""` and `required == false`, and a command built without a description has `""` |
| `Command.CreateCommand` | dot/command.py:29-61 | a non-callable value is refused with "The input must be a callable function." and no command; otherwise the command's name is the handler's identifier, its description the doc text or `""`, it has one argument per declared parameter, at the same position and with the same name and an empty description, `required` exactly when the parameter has no default, and it invokes the handler |
| `Command.DescribesUnique` | dot/command.py:44-60 | the command built from a handler is determined by the handler: two commands that both describe it are equal |
| `Command.ArgumentDict` | dot/command.py:7-10 | an argument's public view has exactly the keys `name`, `description`, `required` |
| `Command.Dict` | dot/command.py:22-25 | a command's public view has exactly the keys `name`, `description`, `arguments`, never `func`, with one argument view per argument |
| `Command.DictForgetsOnlyFunc` | dot/command.py:22-25 | two commands have equal public views if and only if their names, descriptions and argument lists are equal: the view drops the handler and nothing else |
| `Protocol.Render` | dot/__init__.py:89-103 | every written envelope has `jsonrpc: "2.0"` and the stamped `id`, and exactly one of `result` and `error`; an `error` holds exactly `code` and `message` |
| `Server.CommandTable.Insert` | dot/__init__.py:19 | storing a command keeps the table well formed: it gains the command's name, maps that name to the command, leaves every other entry unchanged, keeps a re-registered name at its old place in iteration order, and appends a new name at the end |
| `Server.InsertLastWins` | dot/__init__.py:16-19 | registering a second command under the same name leaves no trace of the first |
| `Server.ContextServer.constructor` | dot/__init__.py:13-14 | a new server has an empty registry |
| `Server.ContextServer.Txt` | dot/__init__.py:16-21 | `txt(f)` returns `f`, and afterwards `commands[f's identifier]` is the command built from `f`; all other entries are unchanged and a same-named entry is replaced; a non-callable value is refused and the registry is unchanged |
| `Server.ContextServer.Initialize` | dot/__init__.py:45-57 | the loop over the registry yields protocolVersion 1, the server info and `capabilities.prompts` built from the registry (see InitializeAdvertisesRegistry) |
| `Server.InitializeAdvertisesRegistry` | dot/__init__.py:45-57 | the `initialize` result has protocolVersion 1; the keys of `capabilities.prompts` are exactly the registered names, and each value is that command's public view |
| `Server.ListedAt` | dot/__init__.py:59-62 | the i-th view in the `prompts/list` result is the public view of the i-th name in first-registration order |
| `Server.ListPromptsOnePerCommand` | dot/__init__.py:59-62 | `prompts/list` has as many views as there are registered commands; every registered command's view appears, and no two positions hold the same view |
| `Server.RegisteredHandlerListed` | dot/__init__.py:59-62 | a handler registered under its identifier is listed by `prompts/list`; its view has that name, the handler's doc text or `""` as description, and one argument view per declared parameter, in declared order, each holding the parameter's name, description `""`, and `required` exactly when the parameter has no default |
| `Server.InitializeResult` | dot/__init__.py:45-57 | reference definition of the `initialize` result: exactly the keys `protocolVersion`, `capabilities`, `serverInfo`, and the server info "dot context server" / "0.1.0"; its prompts are stated by InitializeAdvertisesRegistry |
| `Server.ListedViews` | dot/__init__.py:60 | reference definition of the list comprehension: one view per name in first-registration order, the i-th view carrying the i-th name; its counting and distinctness are stated by ListPromptsOnePerCommand and ListedAt |
| `Server.ListPrompts` | dot/__init__.py:59-62 | `list_prompts` always succeeds with a result holding exactly the key `prompts`, a list with one entry per registered name |
| `Server.GetPrompt` | dot/__init__.py:64-77 | reference definition of `get_prompt`: it succeeds exactly when params is an object naming a registered prompt, the arguments are an object and the handler returns a value, and the result then holds exactly the key `prompt`; every error it gives is -32602 or -32603 (details in UnknownPromptReply and PromptGetReply) |
| `Server.Dispatch` | dot/__init__.py:23-43 | reference definition of what `handle_request` answers: a result only for a request object naming a recognised method, and always a result for `initialize` and `prompts/list`; its error codes are stated by ErrorTaxonomy |
| `Server.Reply` | dot/__init__.py:84-105 | reference definition of one pass of the loop: a decoded request object is answered under its own id with the dispatcher's answer; a line that does not decode, or a request that is not an object, gets `id: null` and -32603 |
| `Json.NatDigitsValue` | dot/__init__.py:39 | the decimal text used when a number is interpolated into a message reads back as that number |
| `Server.ContextServer.HandleRequest` | dot/__init__.py:23-43 | `handle_request` answers every decoded request as `Dispatch` specifies; the answer is a result or an error, never both (see ErrorTaxonomy) |
| `Server.ErrorTaxonomy` | dot/__init__.py:23-43 | every error code is -32601, -32602 or -32603; -32601 is returned exactly for a request object whose method is none of the three recognised ones; -32603 exactly for a request that is not an object, or a `prompts/get` whose params are not an object or whose name is a list or object; -32602 exactly for a `prompts/get` whose name is unregistered, whose `arguments` are not an object, or whose handler fails |
| `Server.UnknownMethodReply` | dot/__init__.py:36-40 | a request whose method is none of the three recognised ones, whatever its type, is answered under its own id with -32601 and "Method not found: " followed by the method's `str()`; a request without a method gets "Method not found: None" |
| `Server.UnknownPromptReply` | dot/__init__.py:64-69 | `prompts/get` naming an unregistered prompt is answered with -32602 "Unknown prompt: <name>", with no handler involved; a missing name reads as "None" |
| `Server.PromptGetReply` | dot/__init__.py:64-77 | `prompts/get` on a registered prompt is answered with `{"prompt": r}` when the handler returns `r`, or with -32602 and the fault message when it fails; missing `arguments` call the handler with the empty map |
| `Server.ContextServer.Run` | dot/__init__.py:79-106 | the loop writes exactly one envelope per line read before the first end of input, in input order, and nothing for the end of input; a decoded request object gets its own `id` and the dispatcher's answer; a non-object request or a line that does not decode gets `id: null` and -32603; a faulty line never stops the loop |

## Left out

- Concurrency: `asyncio`, `asyncio.to_thread` and `await` on handlers are modelled as ordinary sequential calls. The loop handles one request at a time, so this changes no ordering.
- I/O: reading standard input and writing and flushing standard output are left out. `json.loads` is replaced by the already-decoded `Line`. `json.dump` is modelled as far as the rendered JSON object (`Protocol.Render`), not as text.
- Failures while writing the output are left out.
- Handler results that `json.dump` cannot serialise are left out; in Python they would leave a half-written line followed by an error line. A handler result here is always a JSON value.
- Logging calls only have side effects and are left out.
- Reflection (`inspect.signature`, `inspect.getdoc`) is replaced by the handler's declared parameter list and doc text. The doc text is taken as already cleaned of indentation.
- Pydantic's validation of the argument and command records is left out.
- A callable object without `__name__` is left out.
- The bodies of concrete handlers are opaque `call` functions. So is Python's binding of keyword arguments to parameters, including the TypeError for a missing required argument, which is one of the handler's possible faults.
- The module-level singleton `context_server` and the `txt` alias (dot/__init__.py:109-110) are global wiring and are left out.
- JSON numbers are integers only; floating-point numbers are left out.
- Json.Show: a list or object used as a method name is rendered as `[...]` or `{...}` in "Method not found: …", not with Python's `repr`.
- Server.NotAMappingMessage: the text for a non-object `arguments` is "<name>() argument after ** must be a mapping, not <type>". Python may also prefix the function name with its module. The code -32602 and the fact that no handler runs are modelled exactly.
