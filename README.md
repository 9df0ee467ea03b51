# cripy's generated protocol layer, modelled in Dafny

cripy is a Python client for the Chrome DevTools Protocol. Most of its code is
generated from the protocol schema, and this project models the core of that
generated layer:

- **Domain classes.** There is one per protocol domain, e.g. `Debugger`, `Input`,
  `Overlay`, `HeapProfiler`, `HeadlessExperimental`, `Storage`, `Database` and
  `Testing`.
  - Every command method builds a params dict `msg_dict` from its keyword
    arguments. It inserts each argument that is not `None` under its own name.
  - It then sends the command through the client and returns the reply.
  - Some commands rewrite typed keys of the reply in place before returning it
    (`res["locations"] = BreakLocation.safe_create_from_list(res["locations"])`).
  - The event helpers register a callback, with `once` or with `on`.
- **Defensive decoders.** These are `safe_create` and `safe_create_from_list` of the
  generated types and events.
  - `safe_create` never raises. It returns `None` for `None` and a new instance when
    `T(**init)` succeeds. Otherwise it returns its input unchanged.
  - `safe_create_from_list` decodes each value `for it in init` visits.
  - The `Log` domain's `EntryAddedEvent` has a strict variant whose exceptions reach
    the caller.
- **Tables and text.** These are the event-to-class and type-to-object tables, the
  event namespaces, and the `__repr__` text of the generated classes.
- **Generator helpers.** These are the string helpers of the generator
  `generate_protocol.py`: `PT_PYT`, `dtype_name`, `slotgen`, `event_ns_init`,
  `onEvent` and `generate_events`.

## Layout

| file | module | what it holds |
|---|---|---|
| `json.dfy` | `Json` | Wire values (`Json`) and the Python values they become (`Py`), plus `Option`, `Result` and Python's `TypeError` / `KeyError` / `IndexError`. |
| `text.dfy` | `Text` | `str.join`, `str.find` and `str.split` on strings. |
| `decoding.dfy` | `Decoding` | The generic decoder. A `Schema` describes a generated class: its keyword parameters, which of them are required, and which nested decoder each assignment applies. Also: keyword binding of `T(**init)`, `safe_create`, `safe_create_from_list`, and the `__repr__` pattern. |
| `css_types.dfy`, `runtime_events.dfy`, `target_events.dfy`, `tracing_types.dfy`, `log_events.dfy` | | The generated types and events of the `CSS`, `Runtime`, `Target`, `Tracing` and `Log` domains, with their tables. |
| `protocol.dfy` | `Protocol` | The client the domains talk to, as a class that records each `send` / `on` / `once` call and answers `send` from a script of replies. Also: the construction of `msg_dict` (`BuildParams`, built by the loop `MsgDict`) and the in-place rewriting of a reply (`Reply`, computed by the loop `RewriteReply`). |
| `debugger.dfy` … `testing.dfy` | `<Name>Domain` | One class per domain. Each gets one method per command and per event helper. |
| `generator.dfy` | `Generator` | The generator helpers. |

Types defined in modules that are not part of this model are parameters of the
modules that nest them: a `Schema` for each nested decoder such as `RemoteObject`,
`TargetInfo`, `LogEntry` or `BreakLocation`. The same goes for the events tables a
domain's `get_event_classes` returns.

## Model

| member | source | states |
|---|---|---|
| Decoding.Iterate | cripy/protocol/css/types.py:38 | `for it in init` succeeds exactly on lists, strings and dicts (their items, one-character strings, keys) and raises TypeError on anything else |
| Decoding.DecodeOutcome | cripy/protocol/css/types.py:24-32 | `safe_create` never raises: None gives None; otherwise the result is an instance of the class exactly when `T(**init)` succeeds, and the input unchanged when it raises |
| Decoding.ConvertOk | cripy/protocol/css/types.py:179-181 | one attribute assignment of `__init__` raises only for a list field given a value that is neither None nor iterable, and then raises TypeError |
| Decoding.AttrsShape | cripy/protocol/css/types.py:12-21 | the assignments of `__init__` succeed iff every field's assignment does; the instance then holds one attribute per declared parameter, in assignment order (the order of the `self.x = …` lines of `__init__`), each the converted keyword argument or None when it was not given |
| Decoding.ConstructFields | cripy/protocol/css/types.py:12-30 | `T(**init)` succeeds iff `init` is a dict whose keys are all parameters, that gives every required parameter, and whose list fields can be iterated |
| Decoding.ConstructDictLike | cripy/async/protocol/tracing/types.py:100-117 | a class derived from `dict` accepts every dict and keeps its entries, and raises TypeError on anything else |
| Decoding.DecodeFields | cripy/protocol/css/types.py:19-28 | a dict that binds and whose list fields can be iterated decodes to that class's instance, with the converted keyword arguments in assignment order (the order of the `self.x = …` lines of `__init__`) |
| Decoding.ScalarAttrs | cripy/protocol/css/types.py:19-21 | for a class without list fields: one attribute per parameter, with its name, in assignment order (the order of the `self.x = …` lines of `__init__`) |
| Decoding.ScalarDecodes | cripy/protocol/css/types.py:12-32 | a class without list fields decodes a dict exactly when the dict binds to `__init__`, and the instance holds `ScalarAttrs`; any other input that is not None comes back unchanged |
| Decoding.NonIterableRaw | cripy/protocol/css/types.py:172-192 | a list field given a number or a boolean makes the whole object fall back to its input |
| Decoding.DecodeListSpec | cripy/protocol/css/types.py:35-42 | `safe_create_from_list`: None for None, TypeError for a value that cannot be iterated, otherwise a fresh list holding `safe_create` of each value visited, in order |
| Decoding.SafeCreateFromList | cripy/protocol/css/types.py:35-42 | the loop appending `safe_create(it)` to `list_of_self` computes `DecodeList` |
| Decoding.ReprArgsComplete | cripy/gevent/protocol/target/events.py:39-47 | every attribute that is not None contributes its `name={!r}` piece to `repr_args` |
| Decoding.ReprArgsSound | cripy/gevent/protocol/target/events.py:39-47 | every piece of `repr_args` comes from an attribute that is not None: None attributes are left out |
| Decoding.ReprArgsCount | cripy/gevent/protocol/target/events.py:39-47 | at most one piece per attribute; exactly one each when all are set, none when all are None |
| Decoding.ReprAllNone | cripy/gevent/protocol/target/events.py:39-47 | an object whose attributes are all None prints as `Cls()` |
| CssTypes.TypeToObjectNames | cripy/protocol/css/types.py:932-954 | every key of `TYPE_TO_OBJECT` maps to the class of that name |
| CssTypes.TypeToObjectKeys | cripy/protocol/css/types.py:932-954 | `TYPE_TO_OBJECT` has exactly the 21 class names of the module as keys |
| CssTypes.SourceRangeNames | cripy/protocol/css/types.py:91-108 | `SourceRange` has the four parameters `startLine`, `startColumn`, `endLine`, `endColumn`, all required |
| CssTypes.SourceRangeDecodes | cripy/protocol/css/types.py:86-119 | `SourceRange.safe_create` gives an instance exactly for a dict whose keys are the four coordinates; a missing or extra key gives the input unchanged |
| CssTypes.SourceRangeAttrs | cripy/protocol/css/types.py:91-108 | a decoded `SourceRange` holds the four coordinates as given, in assignment order, which for `SourceRange` is also the parameter order |
| CssTypes.ValueDecodes | cripy/protocol/css/types.py:7-34 | `Value` needs `text` and accepts `range`: an absent range becomes None, a given one goes through `SourceRange.safe_create` |
| CssTypes.SelectorListKeepsRawSelectors | cripy/protocol/css/types.py:167-192 | a `SelectorList` whose `selectors` is a list decodes, and each selector is decoded on its own: one that fails to decode stays raw inside the decoded list |
| CssTypes.SelectorListNonIterable | cripy/protocol/css/types.py:172-192 | a `selectors` value that cannot be iterated makes the whole `SelectorList` stay raw |
| CssTypes.CSSStyleNonIterable | cripy/protocol/css/types.py:616-652 | a `cssProperties` value that cannot be iterated makes the `CSSStyle` stay raw, whatever its other keys |
| CssTypes.CSSRuleNeedsStyle | cripy/protocol/css/types.py:663-699 | a `CSSRule` without its required `style` stays raw |
| RuntimeEvents.ConsoleAPICalledRepr | cripy/gevent/protocol/runtime/events.py:49-65 | the repr text is `ConsoleAPICalledEvent(` + the `name={!r}` of each attribute that is not None, in slot order + `)` |
| RuntimeEvents.ExceptionRevokedRepr | cripy/gevent/protocol/runtime/events.py:129-137 | the same for `ExceptionRevokedEvent` |
| RuntimeEvents.ExceptionThrownRepr | cripy/gevent/protocol/runtime/events.py:201-209 | the same for `ExceptionThrownEvent` |
| RuntimeEvents.ExecutionContextCreatedRepr | cripy/gevent/protocol/runtime/events.py:270-276 | the same for `ExecutionContextCreatedEvent` |
| RuntimeEvents.ExecutionContextDestroyedRepr | cripy/gevent/protocol/runtime/events.py:337-343 | the same for `ExecutionContextDestroyedEvent` |
| RuntimeEvents.InspectRequestedRepr | cripy/gevent/protocol/runtime/events.py:459-467 | the same for `InspectRequestedEvent` |
| RuntimeEvents.RuntimeNsValuesAreKeys | cripy/gevent/protocol/runtime/events.py:511-531 | each field `F` of `RUNTIME_EVENTS_NS` names a key of `RUNTIME_EVENTS_TO_CLASS` whose class is `FEvent` |
| RuntimeEvents.RuntimeKeysAreNsValues | cripy/gevent/protocol/runtime/events.py:511-531 | every key of `RUNTIME_EVENTS_TO_CLASS` is a value of `RUNTIME_EVENTS_NS` |
| RuntimeEvents.SlotsAreFieldOrder | cripy/gevent/protocol/runtime/events.py:17-65 | each event's `__slots__` lists its parameters in the order `__init__` assigns them, so a decoded event is one its `__repr__` accepts |
| RuntimeEvents.ConsoleAPICalledNames | cripy/gevent/protocol/runtime/events.py:24-47 | `ConsoleAPICalledEvent` takes six parameters, of which `type`, `args`, `executionContextId` and `timestamp` are required |
| RuntimeEvents.ConsoleAPICalledDecodes | cripy/gevent/protocol/runtime/events.py:24-87 | `safe_create` gives an event iff the input is a dict that holds the four required keys, has no key beyond the six parameters, and whose `args` is None or iterable; otherwise the input comes back unchanged |
| RuntimeEvents.ConsoleAPICalledAttrs | cripy/gevent/protocol/runtime/events.py:24-47 | a decoded event keeps `type` as given, decodes `args` as a `RemoteObject` list and `stackTrace` as a `StackTrace`, None when absent |
| RuntimeEvents.ExecutionContextsClearedKeepsEntries | cripy/gevent/protocol/runtime/events.py:387-417 | the `dict`-derived `ExecutionContextsClearedEvent` decodes a dict to a copy with the same entries |
| RuntimeEvents.ExecutionContextsClearedOthers | cripy/gevent/protocol/runtime/events.py:396-417 | any other value that is not None comes back unchanged |
| TargetEvents.AttachedToTargetRepr | cripy/gevent/protocol/target/events.py:39-49 | `AttachedToTargetEvent(` + the `name={!r}` of each attribute that is not None, in slot order + `)` |
| TargetEvents.DetachedFromTargetRepr | cripy/gevent/protocol/target/events.py:114-122 | the same for `DetachedFromTargetEvent` |
| TargetEvents.ReceivedMessageFromTargetRepr | cripy/gevent/protocol/target/events.py:189-199 | the same for `ReceivedMessageFromTargetEvent` |
| TargetEvents.TargetCreatedRepr | cripy/gevent/protocol/target/events.py:260-266 | the same for `TargetCreatedEvent` |
| TargetEvents.TargetDestroyedRepr | cripy/gevent/protocol/target/events.py:327-333 | the same for `TargetDestroyedEvent` |
| TargetEvents.TargetInfoChangedRepr | cripy/gevent/protocol/target/events.py:395-401 | the same for `TargetInfoChangedEvent` |
| TargetEvents.TargetNsValuesAreKeys | cripy/gevent/protocol/target/events.py:445-463 | each field `F` of `TARGET_EVENTS_NS` names a key of `TARGET_EVENTS_TO_CLASS` whose class is `FEvent` |
| TargetEvents.TargetKeysAreNsValues | cripy/gevent/protocol/target/events.py:445-463 | every key of `TARGET_EVENTS_TO_CLASS` is a value of `TARGET_EVENTS_NS` |
| TargetEvents.SlotsAreFieldOrder | cripy/gevent/protocol/target/events.py:16-49 | each event's `__slots__` lists its parameters in the order `__init__` assigns them |
| TargetEvents.AttachedToTargetDecodes | cripy/gevent/protocol/target/events.py:23-71 | `safe_create` gives an event iff the keys are exactly `sessionId`, `targetInfo`, `waitingForDebugger`, and the input otherwise |
| TargetEvents.AttachedToTargetNames | cripy/gevent/protocol/target/events.py:23-37 | all three parameters of `AttachedToTargetEvent` are required |
| TargetEvents.AttachedToTargetAttrs | cripy/gevent/protocol/target/events.py:23-37 | a decoded event stores `sessionId` and `waitingForDebugger` as given and `targetInfo` through `TargetInfo.safe_create` |
| TargetEvents.DetachedFromTargetDecodes | cripy/gevent/protocol/target/events.py:101-144 | only `sessionId` is required: a dict holding it and at most `targetId` besides decodes, with an absent `targetId` None; anything else comes back unchanged |
| TargetEvents.DetachedFromTargetReprOmitsTargetId | cripy/gevent/protocol/target/events.py:114-122 | with `targetId` None the repr is `DetachedFromTargetEvent(sessionId=…)` |
| TracingTypes.TypeToObjectNames | cripy/async/protocol/tracing/types.py:132 | `TYPE_TO_OBJECT` has the keys `TraceConfig` and `MemoryDumpConfig`, each mapped to the class of that name |
| TracingTypes.TraceConfig.Dict | cripy/async/protocol/tracing/types.py:6-43 | `__dict__` lists the eight attributes in assignment order |
| TracingTypes.TraceConfig.constructor | cripy/async/protocol/tracing/types.py:6-43 | every argument is stored as given, except `memoryDumpConfig`, which goes through `MemoryDumpConfig.safe_create` |
| TracingTypes.TraceConfig.Contains | cripy/async/protocol/tracing/types.py:45-46 | `item in cfg` holds exactly for the eight attribute names, whatever their values |
| TracingTypes.TraceConfig.GetItem | cripy/async/protocol/tracing/types.py:48-49 | `cfg[k]` is the stored value of attribute `k`, and KeyError for any other key |
| TracingTypes.TraceConfig.Get | cripy/async/protocol/tracing/types.py:51-52 | `cfg.get(what, default)` is `cfg[what]` for an attribute name and `default` otherwise |
| TracingTypes.TraceConfig.Repr | cripy/async/protocol/tracing/types.py:54-76 | the eight `if … is not None` appends compute `TraceConfig(` + the set attributes' `name={!r}` pieces, in order + `)` |
| TracingTypes.TraceConfig.SafeCreate | cripy/async/protocol/tracing/types.py:77-87 | a new instance exactly when the generic decoder yields one, holding the same attributes; the decoder's result otherwise |
| TracingTypes.TraceConfigNamesSet | cripy/async/protocol/tracing/types.py:6-15 | `TraceConfig` has eight parameters and none is required |
| TracingTypes.TraceConfigDecodes | cripy/async/protocol/tracing/types.py:6-87 | a dict whose keys are attribute names decodes: each value kept as given, `memoryDumpConfig` decoded, absent ones None |
| TracingTypes.TraceConfigAttrs | cripy/async/protocol/tracing/types.py:6-43 | the attributes of a decoded `TraceConfig`, field by field |
| TracingTypes.TraceConfigEmpty | cripy/async/protocol/tracing/types.py:77-87 | `TraceConfig.safe_create({})` is an instance whose every attribute is None |
| TracingTypes.TraceConfigUnknownKey | cripy/async/protocol/tracing/types.py:77-87 | a key that names no attribute makes `safe_create` return its input unchanged |
| TracingTypes.MemoryDumpConfigKeepsEntries | cripy/async/protocol/tracing/types.py:100-117 | a `memoryDumpConfig` given as a dict becomes a `MemoryDumpConfig` with the same entries |
| LogEvents.SafeCreate | cripy/protocol/log/events.py:24-28 | None gives None; otherwise `EntryAddedEvent(**init)`, which succeeds iff `init` is a dict whose only key is `entry`, and raises TypeError otherwise |
| LogEvents.EntryAddedShape | cripy/protocol/log/events.py:15-21 | the constructor call succeeds iff the input is a dict with exactly the key `entry`; the event then holds `LogEntry.safe_create(entry)` |
| LogEvents.StrictAgreesWithDefensive | cripy/protocol/log/events.py:24-28 | where the strict decoder succeeds it agrees with a defensive one; where it raises, a defensive one would return the input |
| LogEvents.Events | cripy/protocol/log/events.py:33-36 | the events built from the items, in order, or TypeError as soon as one item does not construct |
| LogEvents.FromList | cripy/protocol/log/events.py:31-38 | None gives None; a value that cannot be iterated raises TypeError |
| LogEvents.SafeCreateFromList | cripy/protocol/log/events.py:31-38 | the loop computes `FromList`, returning at the first item that raises |
| LogEvents.EventsPrefixErr | cripy/protocol/log/events.py:34-35 | once a prefix raises, the whole list raises |
| LogEvents.FromListItems | cripy/protocol/log/events.py:31-38 | for a list: success iff every item is a dict holding just `entry`; then one event per item; a None item raises |
| LogEvents.FromListAgreesWithDefensive | cripy/protocol/log/events.py:31-38 | where the strict list decoder succeeds, it gives what the defensive one gives |
| LogEvents.EventToClassSpec | cripy/protocol/log/events.py:41-43 | `EVENT_TO_CLASS` has exactly one key, the class's `event` constant, mapped to `EntryAddedEvent` |
| Protocol.Client.constructor | cripy/asyncio/protocol/overlay/domain.py:20-26 | a fresh client has recorded no call and holds the reply script it is given |
| Protocol.Client.Send | cripy/async/protocol/debugger/__init__.py:95 | `chrome.send(command, params)` records exactly one `Sent` call, consumes one scripted reply and answers it; nothing else changes |
| Protocol.Client.On | cripy/asyncio/protocol/overlay/domain.py:272 | `chrome.on(event, fn)` records exactly one persistent registration and sends nothing |
| Protocol.Client.Once | cripy/asyncio/protocol/overlay/domain.py:270 | `chrome.once(event, fn)` records exactly one one-shot registration and sends nothing |
| Protocol.BuildParams | cripy/async/protocol/debugger/__init__.py:76-94 | the params hold exactly the declared `(name, argument)` pairs whose argument is not None, and no more entries than arguments |
| Protocol.MsgDict | cripy/async/protocol/debugger/__init__.py:76-94 | the run of `if x is not None: msg_dict["x"] = x` inserts computes `BuildParams` of the declared pairs |
| Protocol.BuildParamsAppend | cripy/async/protocol/debugger/__init__.py:76-94 | the inserts of two runs of arguments concatenate: the params are built argument by argument |
| Protocol.BuildParamsOrder | cripy/async/protocol/debugger/__init__.py:76-94 | with distinct names, two arguments that are both set appear in the params in declaration order |
| Protocol.BuildParamsLeading | cripy/gevent/protocol/input/domain.py:80-123 | when the first `n` arguments are set and the rest None, the params are exactly the first `n` pairs |
| Protocol.ParamsKeepFalsy | cripy/asyncio/protocol/overlay/domain.py:225-227 | the guard is `is not None`, not truthiness: `False`, `0` and `""` are sent |
| Protocol.BuildParamsOne | cripy/asyncio/protocol/overlay/domain.py:225-228 | a one-argument command sends its argument alone, or the empty mapping when it is None |
| Protocol.BuildParamsAllNone | cripy/async/protocol/debugger/__init__.py:18-33 | every argument None gives the empty mapping, required parameters included |
| Protocol.BuildParamsNoneMissing | cripy/async/protocol/debugger/__init__.py:76-94 | every argument set gives every pair, in order |
| Protocol.ArgBuildParams | cripy/async/protocol/debugger/__init__.py:76-94 | with distinct names, looking a key up in the params gives the argument of that name, and the key is present exactly when that argument is not None |
| Protocol.Rewritten | cripy/async/protocol/debugger/__init__.py:407-416 | the successive `res[k] = T.safe_create(res[k])` assignments keep the reply's keys, length and order; they succeed iff every key is present and each conversion succeeds, and the first missing key raises KeyError of that key |
| Protocol.RewriteReply | cripy/async/protocol/debugger/__init__.py:406-416 | the assignment loop computes `Reply`: the reply unchanged when there is nothing to rewrite, TypeError when it is not a dict, otherwise the rewritten dict |
| Protocol.RewrittenPrefixErr | cripy/async/protocol/debugger/__init__.py:407-416 | once an assignment raises, the later ones do not run and the exception is the result |
| Protocol.ReplyNoRewrites | cripy/async/protocol/debugger/__init__.py:141-152 | a command without typed reply keys answers the reply as received |
| Protocol.ReplyNotDict | cripy/async/protocol/debugger/__init__.py:96-97 | indexing a reply that is not a dict raises TypeError |
| Protocol.FirstMissingKey | cripy/async/protocol/debugger/__init__.py:96-100 | when the keys before `j` are present and convert, a missing key `j` gives KeyError of exactly that key |
| Protocol.RewriteKeepsOthers | cripy/async/protocol/debugger/__init__.py:407-416 | an entry whose key is not rewritten is kept as received, in its place |
| Protocol.RewriteSetsNamed | cripy/async/protocol/debugger/__init__.py:407-416 | a rewritten key sits where the reply had it, holding the conversion of the received value |
| Protocol.RewriteLookup | cripy/async/protocol/debugger/__init__.py:407-416 | after rewriting, each rewritten key is found at the position it had in the reply |
| Protocol.ReplyEntries | cripy/async/protocol/debugger/__init__.py:406-416 | a successful rewrite is a dict of the same length whose entry `i` is the received entry or, for a rewritten key, its converted value |
| Protocol.SingleRewrite | cripy/async/protocol/debugger/__init__.py:124-127 | one rewritten key: success iff the key is present and converts, KeyError when it is absent, and entry `i` is converted for that key and kept for every other |
| Generator.PythonType | generate_protocol.py:37-44 | `PT_PYT` maps exactly the six protocol primitives: `object` to `dict`, `string` to `str`, `integer` to `int`, `number` to `float`, `boolean` to `bool`, `any` to `Any` |
| Generator.DtypeName | generate_protocol.py:52-56 | the result never equals the domain name; it is `dt` iff `dt` differs from the domain name, and `dt + "T"` otherwise |
| Generator.DtypeNameIdempotent | generate_protocol.py:52-56 | renaming twice with the same domain changes nothing more |
| Generator.Slots | generate_protocol.py:59-62 | one quoted name per property, in order |
| Generator.SlotGen | generate_protocol.py:59-63 | the loop computes the quoted names joined by `", "`; no properties give `""` |
| Generator.SlotGenReadsBack | generate_protocol.py:59-63 | splitting the `slotgen` text on `", "` gives back the quoted names, in order, when no name holds a comma |
| Generator.OnEvent | generate_protocol.py:126-127 | `fe.split(".")[1]`, failing only with IndexError |
| Generator.OnEventDefined | generate_protocol.py:126-127 | `onEvent` succeeds exactly on names that contain a dot |
| Generator.OnEventScoped | generate_protocol.py:126-127 | `onEvent("Domain.event")` is `event` |
| Generator.NsEntries | generate_protocol.py:66-71 | one quoted, pascal-cased event name per value, in order, or IndexError when a name has no dot |
| Generator.EventNsInit | generate_protocol.py:66-71 | the loop computes the entries joined by `", "`, and succeeds iff every event name holds a dot |
| Generator.EventPairs | generate_protocol.py:91-93 | one `(scoped_name, class_name)` pair per event, in order |
| Generator.GenerateEvents | generate_protocol.py:89-95 | as written: the `return` inside the loop yields only the first pair; no events, or `has_events` false, gives None |
| Generator.GenerateEventsIntended | generate_protocol.py:89-95 | corrected: every event's pair, in order, when `has_events` holds; None otherwise |
| Generator.GenerateEventsLosesEvents | generate_protocol.py:89-95 | for a domain with two or more events, the as-written result differs from the full list of pairs |
| DebuggerDomain.Debugger.constructor | cripy/async/protocol/debugger/__init__.py:15-16 | the domain object keeps the client it is given (and the decoders of its reply types) |
| DebuggerDomain.Debugger.ContinueToLocation | cripy/async/protocol/debugger/__init__.py:18-33 | sends `Debugger.continueToLocation` exactly once with params holding the arguments that are not None under their own names, in declaration order, and nothing else; answers the next reply unchanged |
| DebuggerDomain.Debugger.Disable | cripy/async/protocol/debugger/__init__.py:35-37 | sends `Debugger.disable` exactly once without params; answers the next reply unchanged |
| DebuggerDomain.Debugger.Enable | cripy/async/protocol/debugger/__init__.py:39-42 | sends `Debugger.enable` exactly once without params; answers the next reply unchanged (the second await is not modelled) |
| DebuggerDomain.Debugger.EvaluateOnCallFrame | cripy/async/protocol/debugger/__init__.py:44-101 | sends `Debugger.evaluateOnCallFrame` exactly once with params holding the arguments that are not None under their own names, in declaration order, and nothing else; answers the next reply with `result` by `RemoteObject.safe_create`, `exceptionDetails` by `ExceptionDetails.safe_create` replaced in place, KeyError when the reply lacks one of them, TypeError when it is not a dict (the second await is not modelled) |
| DebuggerDomain.Debugger.GetPossibleBreakpoints | cripy/async/protocol/debugger/__init__.py:103-127 | sends `Debugger.getPossibleBreakpoints` exactly once with params holding the arguments that are not None under their own names, in declaration order, and nothing else; answers the next reply with `locations` by `BreakLocation.safe_create_from_list` replaced in place, KeyError when the reply lacks one of them, TypeError when it is not a dict (the second await is not modelled) |
| DebuggerDomain.Debugger.GetScriptSource | cripy/async/protocol/debugger/__init__.py:129-139 | sends `Debugger.getScriptSource` exactly once with params holding the arguments that are not None under their own names, in declaration order, and nothing else; answers the next reply unchanged (the second await is not modelled) |
| DebuggerDomain.Debugger.GetStackTrace | cripy/async/protocol/debugger/__init__.py:141-152 | sends `Debugger.getStackTrace` exactly once with params holding the arguments that are not None under their own names, in declaration order, and nothing else; answers the next reply with `stackTrace` by `StackTrace.safe_create` replaced in place, KeyError when the reply lacks one of them, TypeError when it is not a dict (the second await is not modelled) |
| DebuggerDomain.Debugger.Pause | cripy/async/protocol/debugger/__init__.py:154-156 | sends `Debugger.pause` exactly once without params; answers the next reply unchanged |
| DebuggerDomain.Debugger.PauseOnAsyncCall | cripy/async/protocol/debugger/__init__.py:158-167 | sends `Debugger.pauseOnAsyncCall` exactly once with params holding the arguments that are not None under their own names, in declaration order, and nothing else; answers the next reply unchanged |
| DebuggerDomain.Debugger.RemoveBreakpoint | cripy/async/protocol/debugger/__init__.py:169-178 | sends `Debugger.removeBreakpoint` exactly once with params holding the arguments that are not None under their own names, in declaration order, and nothing else; answers the next reply unchanged |
| DebuggerDomain.Debugger.RestartFrame | cripy/async/protocol/debugger/__init__.py:180-195 | sends `Debugger.restartFrame` exactly once with params holding the arguments that are not None under their own names, in declaration order, and nothing else; answers the next reply with `callFrames` by `CallFrame.safe_create_from_list`, `asyncStackTrace` by `StackTrace.safe_create`, `asyncStackTraceId` by `StackTraceId.safe_create` replaced in place, KeyError when the reply lacks one of them, TypeError when it is not a dict (the second await is not modelled) |
| DebuggerDomain.Debugger.Resume | cripy/async/protocol/debugger/__init__.py:197-199 | sends `Debugger.resume` exactly once without params; answers the next reply unchanged |
| DebuggerDomain.Debugger.ScheduleStepIntoAsync | cripy/async/protocol/debugger/__init__.py:201-203 | sends `Debugger.scheduleStepIntoAsync` exactly once without params; answers the next reply unchanged |
| DebuggerDomain.Debugger.SearchInContent | cripy/async/protocol/debugger/__init__.py:205-234 | sends `Debugger.searchInContent` exactly once with params holding the arguments that are not None under their own names, in declaration order, and nothing else; answers the next reply with `result` by `SearchMatch.safe_create_from_list` replaced in place, KeyError when the reply lacks one of them, TypeError when it is not a dict (the second await is not modelled) |
| DebuggerDomain.Debugger.SetAsyncCallStackDepth | cripy/async/protocol/debugger/__init__.py:236-245 | sends `Debugger.setAsyncCallStackDepth` exactly once with params holding the arguments that are not None under their own names, in declaration order, and nothing else; answers the next reply unchanged |
| DebuggerDomain.Debugger.SetBlackboxPatterns | cripy/async/protocol/debugger/__init__.py:247-256 | sends `Debugger.setBlackboxPatterns` exactly once with params holding the arguments that are not None under their own names, in declaration order, and nothing else; answers the next reply unchanged |
| DebuggerDomain.Debugger.SetBlackboxedRanges | cripy/async/protocol/debugger/__init__.py:258-273 | sends `Debugger.setBlackboxedRanges` exactly once with params holding the arguments that are not None under their own names, in declaration order, and nothing else; answers the next reply unchanged |
| DebuggerDomain.Debugger.SetBreakpoint | cripy/async/protocol/debugger/__init__.py:275-292 | sends `Debugger.setBreakpoint` exactly once with params holding the arguments that are not None under their own names, in declaration order, and nothing else; answers the next reply with `actualLocation` by `Location.safe_create` replaced in place, KeyError when the reply lacks one of them, TypeError when it is not a dict (the second await is not modelled) |
| DebuggerDomain.Debugger.SetBreakpointByUrl | cripy/async/protocol/debugger/__init__.py:294-333 | sends `Debugger.setBreakpointByUrl` exactly once with params holding the arguments that are not None under their own names, in declaration order, and nothing else; answers the next reply with `locations` by `Location.safe_create_from_list` replaced in place, KeyError when the reply lacks one of them, TypeError when it is not a dict (the second await is not modelled) |
| DebuggerDomain.Debugger.SetBreakpointOnFunctionCall | cripy/async/protocol/debugger/__init__.py:335-353 | sends `Debugger.setBreakpointOnFunctionCall` exactly once with params holding the arguments that are not None under their own names, in declaration order, and nothing else; answers the next reply unchanged (the second await is not modelled) |
| DebuggerDomain.Debugger.SetBreakpointsActive | cripy/async/protocol/debugger/__init__.py:355-364 | sends `Debugger.setBreakpointsActive` exactly once with params holding the arguments that are not None under their own names, in declaration order, and nothing else; answers the next reply unchanged |
| DebuggerDomain.Debugger.SetPauseOnExceptions | cripy/async/protocol/debugger/__init__.py:366-375 | sends `Debugger.setPauseOnExceptions` exactly once with params holding the arguments that are not None under their own names, in declaration order, and nothing else; answers the next reply unchanged |
| DebuggerDomain.Debugger.SetReturnValue | cripy/async/protocol/debugger/__init__.py:377-386 | sends `Debugger.setReturnValue` exactly once with params holding the arguments that are not None under their own names, in declaration order, and nothing else; answers the next reply unchanged |
| DebuggerDomain.Debugger.SetScriptSource | cripy/async/protocol/debugger/__init__.py:388-416 | sends `Debugger.setScriptSource` exactly once with params holding the arguments that are not None under their own names, in declaration order, and nothing else; answers the next reply with `callFrames` by `CallFrame.safe_create_from_list`, `asyncStackTrace` by `StackTrace.safe_create`, `asyncStackTraceId` by `StackTraceId.safe_create`, `exceptionDetails` by `ExceptionDetails.safe_create` replaced in place, KeyError when the reply lacks one of them, TypeError when it is not a dict (the second await is not modelled) |
| DebuggerDomain.Debugger.SetSkipAllPauses | cripy/async/protocol/debugger/__init__.py:418-427 | sends `Debugger.setSkipAllPauses` exactly once with params holding the arguments that are not None under their own names, in declaration order, and nothing else; answers the next reply unchanged |
| DebuggerDomain.Debugger.SetVariableValue | cripy/async/protocol/debugger/__init__.py:429-452 | sends `Debugger.setVariableValue` exactly once with params holding the arguments that are not None under their own names, in declaration order, and nothing else; answers the next reply unchanged |
| DebuggerDomain.Debugger.StepInto | cripy/async/protocol/debugger/__init__.py:454-463 | sends `Debugger.stepInto` exactly once with params holding the arguments that are not None under their own names, in declaration order, and nothing else; answers the next reply unchanged |
| DebuggerDomain.Debugger.StepOut | cripy/async/protocol/debugger/__init__.py:465-467 | sends `Debugger.stepOut` exactly once without params; answers the next reply unchanged |
| DebuggerDomain.Debugger.StepOver | cripy/async/protocol/debugger/__init__.py:469-471 | sends `Debugger.stepOver` exactly once without params; answers the next reply unchanged |
| DebuggerDomain.Debugger.GetEventClasses | cripy/async/protocol/debugger/__init__.py:473-475 | answers the events module's event-to-class table itself, never None |
| DebuggerDomain.EvaluateOnCallFrameParams | cripy/async/protocol/debugger/__init__.py:76-95 | for every key `k`, the params sent hold `k` exactly when argument `k` is not None, and then with that argument's value |
| DebuggerDomain.ContinueToLocationNone | cripy/async/protocol/debugger/__init__.py:18-33 | with both arguments None the params are the empty mapping: the required `location` is not enforced |
| DebuggerDomain.GetPossibleBreakpointsReply | cripy/async/protocol/debugger/__init__.py:124-127 | the reply goes through iff it holds `locations` and that value can be iterated; without `locations` it raises KeyError; entry `i` is the decoded `BreakLocation` list for `locations` and the received value for every other key |
| DebuggerDomain.EvaluateOnCallFrameKeys | cripy/async/protocol/debugger/__init__.py:95-101 | a non-dict reply raises TypeError; a dict lacking `result` raises KeyError(`result`), one with `result` but lacking `exceptionDetails` raises KeyError(`exceptionDetails`), and a dict succeeds iff it holds both |
| DebuggerDomain.SetScriptSourceNames | cripy/async/protocol/debugger/__init__.py:408-415 | the four rewritten keys are distinct and are exactly `callFrames`, `asyncStackTrace`, `asyncStackTraceId`, `exceptionDetails` |
| DebuggerDomain.SetScriptSourceKeepsOthers | cripy/async/protocol/debugger/__init__.py:406-416 | in a successful `setScriptSource` reply, every entry other than the four rewritten keys is kept as received, in its place |
| InputDomain.Input.constructor | cripy/gevent/protocol/input/domain.py:7-13 | the domain object keeps the client it is given |
| InputDomain.Input.DispatchKeyEvent | cripy/gevent/protocol/input/domain.py:15-78 | sends `Input.dispatchKeyEvent` exactly once with params holding the arguments that are not None under their own names, in declaration order, and nothing else; answers the next reply unchanged |
| InputDomain.Input.DispatchMouseEvent | cripy/gevent/protocol/input/domain.py:80-123 | sends `Input.dispatchMouseEvent` exactly once with params holding the arguments that are not None under their own names, in declaration order, and nothing else; answers the next reply unchanged |
| InputDomain.Input.DispatchTouchEvent | cripy/gevent/protocol/input/domain.py:125-148 | sends `Input.dispatchTouchEvent` exactly once with params holding the arguments that are not None under their own names, in declaration order, and nothing else; answers the next reply unchanged |
| InputDomain.Input.EmulateTouchFromMouseEvent | cripy/gevent/protocol/input/domain.py:150-193 | sends `Input.emulateTouchFromMouseEvent` exactly once with params holding the arguments that are not None under their own names, in declaration order, and nothing else; answers the next reply unchanged |
| InputDomain.Input.SetIgnoreInputEvents | cripy/gevent/protocol/input/domain.py:195-206 | sends `Input.setIgnoreInputEvents` exactly once with params holding the arguments that are not None under their own names, in declaration order, and nothing else; answers the next reply unchanged |
| InputDomain.Input.SynthesizePinchGesture | cripy/gevent/protocol/input/domain.py:208-235 | sends `Input.synthesizePinchGesture` exactly once with params holding the arguments that are not None under their own names, in declaration order, and nothing else; answers the next reply unchanged |
| InputDomain.Input.SynthesizeScrollGesture | cripy/gevent/protocol/input/domain.py:237-292 | sends `Input.synthesizeScrollGesture` exactly once with params holding the arguments that are not None under their own names, in declaration order, and nothing else; answers the next reply unchanged |
| InputDomain.Input.SynthesizeTapGesture | cripy/gevent/protocol/input/domain.py:294-321 | sends `Input.synthesizeTapGesture` exactly once with params holding the arguments that are not None under their own names, in declaration order, and nothing else; answers the next reply unchanged |
| InputDomain.Input.GetEventClasses | cripy/gevent/protocol/input/domain.py:323-334 | the domain declares no events: the table is None |
| InputDomain.DispatchKeyEventParams | cripy/gevent/protocol/input/domain.py:15-78 | for every key `k`, the params hold `k` exactly when argument `k` is not None, with its value |
| InputDomain.DispatchKeyEventOrder | cripy/gevent/protocol/input/domain.py:15-78 | two arguments that are both not None appear in the params in declaration order |
| InputDomain.DispatchMouseEventMinimal | cripy/gevent/protocol/input/domain.py:80-123 | with only `type`, `x` and `y` given, the params are exactly `type`, `x`, `y`, in that order |
| OverlayDomain.Overlay.constructor | cripy/asyncio/protocol/overlay/domain.py:20-26 | the domain object keeps the client it is given |
| OverlayDomain.Overlay.Disable | cripy/asyncio/protocol/overlay/domain.py:28-33 | sends `Overlay.disable` exactly once without params; answers the next reply unchanged |
| OverlayDomain.Overlay.Enable | cripy/asyncio/protocol/overlay/domain.py:35-40 | sends `Overlay.enable` exactly once without params; answers the next reply unchanged |
| OverlayDomain.Overlay.GetHighlightObjectForTest | cripy/asyncio/protocol/overlay/domain.py:42-53 | sends `Overlay.getHighlightObjectForTest` exactly once with params holding the arguments that are not None under their own names, in declaration order, and nothing else; answers the next reply unchanged |
| OverlayDomain.Overlay.HideHighlight | cripy/asyncio/protocol/overlay/domain.py:55-60 | sends `Overlay.hideHighlight` exactly once without params; answers the next reply unchanged |
| OverlayDomain.Overlay.HighlightFrame | cripy/asyncio/protocol/overlay/domain.py:62-81 | sends `Overlay.highlightFrame` exactly once with params holding the arguments that are not None under their own names, in declaration order, and nothing else; answers the next reply unchanged |
| OverlayDomain.Overlay.HighlightNode | cripy/asyncio/protocol/overlay/domain.py:83-107 | sends `Overlay.highlightNode` exactly once with params holding the arguments that are not None under their own names, in declaration order, and nothing else; answers the next reply unchanged |
| OverlayDomain.Overlay.HighlightQuad | cripy/asyncio/protocol/overlay/domain.py:109-128 | sends `Overlay.highlightQuad` exactly once with params holding the arguments that are not None under their own names, in declaration order, and nothing else; answers the next reply unchanged |
| OverlayDomain.Overlay.HighlightRect | cripy/asyncio/protocol/overlay/domain.py:130-161 | sends `Overlay.highlightRect` exactly once with params holding the arguments that are not None under their own names, in declaration order, and nothing else; answers the next reply unchanged |
| OverlayDomain.Overlay.SetInspectMode | cripy/asyncio/protocol/overlay/domain.py:163-179 | sends `Overlay.setInspectMode` exactly once with params holding the arguments that are not None under their own names, in declaration order, and nothing else; answers the next reply unchanged |
| OverlayDomain.Overlay.SetPausedInDebuggerMessage | cripy/asyncio/protocol/overlay/domain.py:181-190 | sends `Overlay.setPausedInDebuggerMessage` exactly once with params holding the arguments that are not None under their own names, in declaration order, and nothing else; answers the next reply unchanged |
| OverlayDomain.Overlay.SetShowDebugBorders | cripy/asyncio/protocol/overlay/domain.py:192-203 | sends `Overlay.setShowDebugBorders` exactly once with params holding the arguments that are not None under their own names, in declaration order, and nothing else; answers the next reply unchanged |
| OverlayDomain.Overlay.SetShowFPSCounter | cripy/asyncio/protocol/overlay/domain.py:205-216 | sends `Overlay.setShowFPSCounter` exactly once with params holding the arguments that are not None under their own names, in declaration order, and nothing else; answers the next reply unchanged |
| OverlayDomain.Overlay.SetShowPaintRects | cripy/asyncio/protocol/overlay/domain.py:218-229 | sends `Overlay.setShowPaintRects` exactly once with params holding the arguments that are not None under their own names, in declaration order, and nothing else; answers the next reply unchanged |
| OverlayDomain.Overlay.SetShowScrollBottleneckRects | cripy/asyncio/protocol/overlay/domain.py:231-242 | sends `Overlay.setShowScrollBottleneckRects` exactly once with params holding the arguments that are not None under their own names, in declaration order, and nothing else; answers the next reply unchanged |
| OverlayDomain.Overlay.SetShowViewportSizeOnResize | cripy/asyncio/protocol/overlay/domain.py:244-255 | sends `Overlay.setShowViewportSizeOnResize` exactly once with params holding the arguments that are not None under their own names, in declaration order, and nothing else; answers the next reply unchanged |
| OverlayDomain.Overlay.SetSuspended | cripy/asyncio/protocol/overlay/domain.py:257-266 | sends `Overlay.setSuspended` exactly once with params holding the arguments that are not None under their own names, in declaration order, and nothing else; answers the next reply unchanged |
| OverlayDomain.Overlay.InspectNodeRequested | cripy/asyncio/protocol/overlay/domain.py:268-272 | registers `fn` for `Overlay.inspectNodeRequested` once: with `once` when the `once` argument is truthy in Python's sense (`Json.Truthy`), with `on` otherwise (the default `False` included); no command is sent |
| OverlayDomain.Overlay.NodeHighlightRequested | cripy/asyncio/protocol/overlay/domain.py:274-278 | registers `fn` for `Overlay.nodeHighlightRequested` once: with `once` when the `once` argument is truthy in Python's sense (`Json.Truthy`), with `on` otherwise (the default `False` included); no command is sent |
| OverlayDomain.Overlay.ScreenshotRequested | cripy/asyncio/protocol/overlay/domain.py:280-284 | registers `fn` for `Overlay.screenshotRequested` once: with `once` when the `once` argument is truthy in Python's sense (`Json.Truthy`), with `on` otherwise (the default `False` included); no command is sent |
| OverlayDomain.Overlay.GetEventClasses | cripy/asyncio/protocol/overlay/domain.py:286-297 | answers the events module's event-to-class table itself, never None |
| OverlayDomain.HighlightRectParams | cripy/asyncio/protocol/overlay/domain.py:130-161 | for every key `k`, the params hold `k` exactly when argument `k` is not None, with its value |
| OverlayDomain.SetShowPaintRectsKey | cripy/asyncio/protocol/overlay/domain.py:218-229 | the flag travels under the key `result` (the parameter's name), alone; None sends the empty mapping |
| OverlayDomain.SetPausedInDebuggerMessageEmpty | cripy/asyncio/protocol/overlay/domain.py:181-190 | with no message the params built are the empty mapping; that this mapping is still sent (`Some([])`, not no params) is the ensures of `OverlayDomain.Overlay.SetPausedInDebuggerMessage` |
| HeapProfilerDomain.HeapProfiler.constructor | cripy/asyncio/protocol/heapprofiler.py:11-17 | the domain object keeps the client it is given |
| HeapProfilerDomain.HeapProfiler.AddInspectedHeapObject | cripy/asyncio/protocol/heapprofiler.py:19-31 | sends `HeapProfiler.addInspectedHeapObject` exactly once with params holding the arguments that are not None under their own names, in declaration order, and nothing else; answers the next reply unchanged |
| HeapProfilerDomain.HeapProfiler.CollectGarbage | cripy/asyncio/protocol/heapprofiler.py:33-35 | sends `HeapProfiler.collectGarbage` exactly once without params; answers the next reply unchanged |
| HeapProfilerDomain.HeapProfiler.Disable | cripy/asyncio/protocol/heapprofiler.py:37-39 | sends `HeapProfiler.disable` exactly once without params; answers the next reply unchanged |
| HeapProfilerDomain.HeapProfiler.Enable | cripy/asyncio/protocol/heapprofiler.py:41-43 | sends `HeapProfiler.enable` exactly once without params; answers the next reply unchanged |
| HeapProfilerDomain.HeapProfiler.GetHeapObjectId | cripy/asyncio/protocol/heapprofiler.py:45-54 | sends `HeapProfiler.getHeapObjectId` exactly once with params holding the arguments that are not None under their own names, in declaration order, and nothing else; answers the next reply unchanged |
| HeapProfilerDomain.HeapProfiler.GetObjectByHeapObjectId | cripy/asyncio/protocol/heapprofiler.py:56-69 | sends `HeapProfiler.getObjectByHeapObjectId` exactly once with params holding the arguments that are not None under their own names, in declaration order, and nothing else; answers the next reply unchanged |
| HeapProfilerDomain.HeapProfiler.GetSamplingProfile | cripy/asyncio/protocol/heapprofiler.py:71-73 | sends `HeapProfiler.getSamplingProfile` exactly once without params; answers the next reply unchanged |
| HeapProfilerDomain.HeapProfiler.StartSampling | cripy/asyncio/protocol/heapprofiler.py:75-84 | sends `HeapProfiler.startSampling` exactly once with params holding the arguments that are not None under their own names, in declaration order, and nothing else; answers the next reply unchanged |
| HeapProfilerDomain.HeapProfiler.StartTrackingHeapObjects | cripy/asyncio/protocol/heapprofiler.py:86-95 | sends `HeapProfiler.startTrackingHeapObjects` exactly once with params holding the arguments that are not None under their own names, in declaration order, and nothing else; answers the next reply unchanged |
| HeapProfilerDomain.HeapProfiler.StopSampling | cripy/asyncio/protocol/heapprofiler.py:97-99 | sends `HeapProfiler.stopSampling` exactly once without params; answers the next reply unchanged |
| HeapProfilerDomain.HeapProfiler.StopTrackingHeapObjects | cripy/asyncio/protocol/heapprofiler.py:101-110 | sends `HeapProfiler.stopTrackingHeapObjects` exactly once with params holding the arguments that are not None under their own names, in declaration order, and nothing else; answers the next reply unchanged |
| HeapProfilerDomain.HeapProfiler.TakeHeapSnapshot | cripy/asyncio/protocol/heapprofiler.py:112-121 | sends `HeapProfiler.takeHeapSnapshot` exactly once with params holding the arguments that are not None under their own names, in declaration order, and nothing else; answers the next reply unchanged |
| HeapProfilerDomain.HeapProfiler.AddHeapSnapshotChunk | cripy/asyncio/protocol/heapprofiler.py:123-127 | registers `fn` for `HeapProfiler.addHeapSnapshotChunk` once: with `once` when the `once` argument is truthy in Python's sense (`Json.Truthy`), with `on` otherwise (the default `False` included); no command is sent |
| HeapProfilerDomain.HeapProfiler.HeapStatsUpdate | cripy/asyncio/protocol/heapprofiler.py:129-136 | registers `fn` for `HeapProfiler.heapStatsUpdate` once: with `once` when the `once` argument is truthy in Python's sense (`Json.Truthy`), with `on` otherwise (the default `False` included); no command is sent |
| HeapProfilerDomain.HeapProfiler.LastSeenObjectId | cripy/asyncio/protocol/heapprofiler.py:138-147 | registers `fn` for `HeapProfiler.lastSeenObjectId` once: with `once` when the `once` argument is truthy in Python's sense (`Json.Truthy`), with `on` otherwise (the default `False` included); no command is sent |
| HeapProfilerDomain.HeapProfiler.ReportHeapSnapshotProgress | cripy/asyncio/protocol/heapprofiler.py:149-153 | registers `fn` for `HeapProfiler.reportHeapSnapshotProgress` once: with `once` when the `once` argument is truthy in Python's sense (`Json.Truthy`), with `on` otherwise (the default `False` included); no command is sent |
| HeapProfilerDomain.HeapProfiler.ResetProfiles | cripy/asyncio/protocol/heapprofiler.py:155-159 | registers `fn` for `HeapProfiler.resetProfiles` once: with `once` when the `once` argument is truthy in Python's sense (`Json.Truthy`), with `on` otherwise (the default `False` included); no command is sent |
| HeapProfilerDomain.GetObjectByHeapObjectIdGroup | cripy/asyncio/protocol/heapprofiler.py:56-69 | `objectGroup` is in the params exactly when it is not None, with its value |
| HeapProfilerDomain.StartSamplingEmpty | cripy/asyncio/protocol/heapprofiler.py:75-84 | with no sampling interval the params are the empty mapping |
| HeadlessExperimentalDomain.HeadlessExperimental.constructor | cripy/asyncio/protocol/headlessexperimental/domain.py:17-23 | the domain object keeps the client it is given |
| HeadlessExperimentalDomain.HeadlessExperimental.BeginFrame | cripy/asyncio/protocol/headlessexperimental/domain.py:25-51 | sends `HeadlessExperimental.beginFrame` exactly once with params holding the arguments that are not None under their own names, in declaration order, and nothing else; answers the next reply unchanged |
| HeadlessExperimentalDomain.HeadlessExperimental.Disable | cripy/asyncio/protocol/headlessexperimental/domain.py:53-58 | sends `HeadlessExperimental.disable` exactly once without params; answers the next reply unchanged |
| HeadlessExperimentalDomain.HeadlessExperimental.Enable | cripy/asyncio/protocol/headlessexperimental/domain.py:60-65 | sends `HeadlessExperimental.enable` exactly once without params; answers the next reply unchanged |
| HeadlessExperimentalDomain.HeadlessExperimental.NeedsBeginFramesChanged | cripy/asyncio/protocol/headlessexperimental/domain.py:67-71 | registers `fn` for `HeadlessExperimental.needsBeginFramesChanged` once: with `once` when the `once` argument is truthy in Python's sense (`Json.Truthy`), with `on` otherwise (the default `False` included); no command is sent |
| HeadlessExperimentalDomain.HeadlessExperimental.GetEventClasses | cripy/asyncio/protocol/headlessexperimental/domain.py:73-84 | answers the events module's event-to-class table itself, never None |
| HeadlessExperimentalDomain.BeginFrameParams | cripy/asyncio/protocol/headlessexperimental/domain.py:25-51 | for every key `k`, the params hold `k` exactly when argument `k` is not None, with its value |
| HeadlessExperimentalDomain.BeginFrameAllNone | cripy/asyncio/protocol/headlessexperimental/domain.py:25-51 | with every argument None the params are the empty mapping |
| StorageDomain.Storage.constructor | cripy/async/protocol/storage/__init__.py:8-9 | the domain object keeps the client it is given (and the decoders of its reply types) |
| StorageDomain.Storage.ClearDataForOrigin | cripy/async/protocol/storage/__init__.py:11-26 | sends `Storage.clearDataForOrigin` exactly once with params holding the arguments that are not None under their own names, in declaration order, and nothing else; answers the next reply unchanged |
| StorageDomain.Storage.GetUsageAndQuota | cripy/async/protocol/storage/__init__.py:28-41 | sends `Storage.getUsageAndQuota` exactly once with params holding the arguments that are not None under their own names, in declaration order, and nothing else; answers the next reply with `usageBreakdown` by `UsageForType.safe_create_from_list` replaced in place, KeyError when the reply lacks one of them, TypeError when it is not a dict (the second await is not modelled) |
| StorageDomain.Storage.TrackCacheStorageForOrigin | cripy/async/protocol/storage/__init__.py:43-54 | sends `Storage.trackCacheStorageForOrigin` exactly once with params holding the arguments that are not None under their own names, in declaration order, and nothing else; answers the next reply unchanged |
| StorageDomain.Storage.TrackIndexedDBForOrigin | cripy/async/protocol/storage/__init__.py:56-65 | sends `Storage.trackIndexedDBForOrigin` exactly once with params holding the arguments that are not None under their own names, in declaration order, and nothing else; answers the next reply unchanged |
| StorageDomain.Storage.UntrackCacheStorageForOrigin | cripy/async/protocol/storage/__init__.py:67-78 | sends `Storage.untrackCacheStorageForOrigin` exactly once with params holding the arguments that are not None under their own names, in declaration order, and nothing else; answers the next reply unchanged |
| StorageDomain.Storage.UntrackIndexedDBForOrigin | cripy/async/protocol/storage/__init__.py:80-89 | sends `Storage.untrackIndexedDBForOrigin` exactly once with params holding the arguments that are not None under their own names, in declaration order, and nothing else; answers the next reply unchanged |
| StorageDomain.Storage.GetEventClasses | cripy/async/protocol/storage/__init__.py:91-93 | answers the events module's event-to-class table itself, never None |
| StorageDomain.ClearDataForOriginParams | cripy/async/protocol/storage/__init__.py:11-26 | for every key `k`, the params hold `k` exactly when argument `k` is not None, with its value |
| StorageDomain.GetUsageAndQuotaReply | cripy/async/protocol/storage/__init__.py:36-41 | the reply goes through iff it holds an iterable `usageBreakdown` (KeyError when it is absent); entry `i` is the decoded `UsageForType` list for `usageBreakdown` and the received value otherwise |
| DatabaseDomain.Database.constructor | cripy/asyncio/protocol/database/domain.py:11-17 | the domain object keeps the client it is given (and the decoders of its reply types) |
| DatabaseDomain.Database.Disable | cripy/asyncio/protocol/database/domain.py:19-24 | sends `Database.disable` exactly once without params; answers the next reply unchanged |
| DatabaseDomain.Database.Enable | cripy/asyncio/protocol/database/domain.py:26-31 | sends `Database.enable` exactly once without params; answers the next reply unchanged |
| DatabaseDomain.Database.ExecuteSQL | cripy/asyncio/protocol/database/domain.py:33-47 | sends `Database.executeSQL` exactly once with params holding the arguments that are not None under their own names, in declaration order, and nothing else; answers the next reply with `sqlError` by `Error.safe_create` replaced in place, KeyError when the reply lacks one of them, TypeError when it is not a dict |
| DatabaseDomain.Database.GetDatabaseTableNames | cripy/asyncio/protocol/database/domain.py:49-58 | sends `Database.getDatabaseTableNames` exactly once with params holding the arguments that are not None under their own names, in declaration order, and nothing else; answers the next reply unchanged |
| DatabaseDomain.Database.AddDatabase | cripy/asyncio/protocol/database/domain.py:60-64 | registers `fn` for `Database.addDatabase` once: with `once` when the `once` argument is truthy in Python's sense (`Json.Truthy`), with `on` otherwise (the default `False` included); no command is sent |
| DatabaseDomain.Database.GetEventClasses | cripy/asyncio/protocol/database/domain.py:66-77 | answers the events module's event-to-class table itself, never None |
| DatabaseDomain.ExecuteSQLParams | cripy/asyncio/protocol/database/domain.py:33-47 | for every key `k`, the params hold `k` exactly when argument `k` is not None, with its value |
| DatabaseDomain.ExecuteSQLReply | cripy/asyncio/protocol/database/domain.py:45-47 | the reply goes through iff it holds `sqlError` (KeyError otherwise); entry `i` is `Error.safe_create` of `sqlError` for that key and the received value for every other key |
| TestingDomain.Testing.constructor | cripy/protocol/testing.py:13-20 | the domain object keeps the client it is given |
| TestingDomain.Testing.GenerateTestReport | cripy/protocol/testing.py:24-40 | sends `Testing.generateTestReport` exactly once with params holding the arguments that are not None under their own names, in declaration order, and nothing else; answers the next reply unchanged |
| TestingDomain.GenerateTestReportParams | cripy/protocol/testing.py:35-39 | `message` and `group` are each in the params exactly when not None, each with its value |

## Left out

- The connection and session code behind `send`, `on` and `once` is not part of this model. `Protocol.Client` stands in for it: it records each call and answers `send` from a script of replies given to its constructor.
- Coroutines and greenlets are not modelled. `await` and gevent's `wres.get()` (for example cripy/gevent/protocol/input/domain.py:78) are taken as the identity on the reply. The second `await` on the reply, as in cripy/async/protocol/debugger/__init__.py:40-41, is not modelled either.
- TestingDomain.Testing.GenerateTestReport: returns the scripted reply. The source returns `send`'s result without awaiting it, and the model does not tell the two apart.
- The straight-line `if x is not None: msg_dict["x"] = x` statements are modelled by one loop, `Protocol.MsgDict`, over the declared (name, value) pairs. The straight-line `res["k"] = T.safe_create…(res["k"])` statements are modelled by `Protocol.RewriteReply`, a loop over the declared rewrites. The order and the effect are the same.
- Protocol.Reply: the source changes the reply dict in place. The model returns a new value, so aliasing of the reply with other references is not captured.
- Numbers in the wire format are opaque `JNum` values. Floating point is not modelled.
- Json.IndexOf: a mapping with a duplicate key reads the first occurrence. The round-trip lemmas suppose distinct keys, as JSON objects decoded by Python have.
- Generator.NsEntries and Generator.EventNsInit: `stringcase.pascalcase` is the parameter `pascal`, not a modelled text transform.
- Decoding.Repr, Decoding.Piece and the `*Repr` methods (`RuntimeEvents.*Repr`, `TargetEvents.*Repr`, `TracingTypes.TraceConfig.Repr`): `{!r}`, Python's `repr` of an attribute value, is the parameter `show`, not a modelled text transform.
- TracingTypes.TraceConfig.Contains/GetItem/Get: these read the eight attributes set by the constructor. `TraceConfig` has no `__slots__`, so an attribute assigned after construction would also appear in `__dict__`; such attributes are not modelled.
- The generator's file and template work is left out because it is I/O: `read_json`, `generate_types`, `generate_commands`, `generate_domain_init`, `gen`, `proto_gen_good`, the jinja2 templates, and the generator's `Domain` class beyond the fields its helpers read.
- Modules that only hold data, and the types of domains outside this model, are left out. Their decoders are `Schema` parameters: RemoteObject, TargetInfo, LogEntry, BreakLocation, UsageForType and the domains' events tables.
- `MemoryDumpConfig.__repr__` and `ExecutionContextsClearedEvent.__repr__` are left out because each returns a constant string.
- The class attributes `dependencies` and `events` of the domain classes are data and are left out.
- Python type hints are not enforced by the source. The command arguments are `Json` values, so a wrongly typed argument travels through unchanged; the `once` flag of the event helpers is a `Py` value tested with Python's truthiness. Other Python values that the wire format cannot carry (functions, arbitrary objects) are not modelled as arguments.
- Default arguments are passed explicitly: every command's `=None` arguments (as `JNull`), the event helpers' `once=False` (as `PBool(false)`), and `TraceConfig.get`'s `default=None` (as `PNone`).

## Findings

| source | as written | input that shows it | evidently intended | confidence | as-written member | corrected member |
|---|---|---|---|---|---|---|
| generate_protocol.py:89-95 | `generate_events` has its `return` inside the `for` loop, so it returns after the first event | a domain with `has_events` set and two events: one pair comes back | one (scoped name, class name) pair per event, in order | not executed | Generator.GenerateEventsLosesEvents | Generator.GenerateEventsIntended |
