# FetchBits tool-schema compiler, modelled in Dafny

This project models the part of FetchBits that turns a Python callable into
the tool schema that LLM function-calling APIs expect. It also models the two
small pieces around that compiler.

- **The compiler** (`convert_function_to_function_schema`) takes the
  callable's parameters in declaration order and handles each one:
  - It resolves the parameter's annotation. An evaluated type hint wins over
    the raw annotation, and a missing annotation becomes `Any`.
  - It normalises `*args` to a `list[...]` and `**kwargs` to a `dict[...]`.
  - It decides whether the field is required and what its default is.
  - It attaches the description that the docstring gives for that name.
  - It wraps the field map in the fixed
    `{"type": "function", "function": {...}}` envelope.
- **Docstring extraction** (`_generate_func_documentation`) picks the summary
  (the first text section) and the parameter descriptions (all `Args:`
  entries, where a later entry wins) out of the parsed docstring.
- **`Tool`** copies the envelope's `function` part into a record and can
  rebuild the envelope from it.
- **`VectorStoreEntry.text_or_image_required`** accepts or rejects an entry.

Modules, one per concern:

- `common.dfy`: `Common`. It holds `Option` (Python's `X | None`), a validator
  `Result`, and the plain `Value`s that appear as defaults and metadata.
- `dicts.dfy`: `Dicts`. A Python `dict` is modelled as its insertion-ordered
  keys plus a map. `FromPairs` is the dict built by one `d[k] = v` per pair.
  Both the docstring comprehension and the field loop build their dicts this
  way.
- `py_types.dfy`: `PyTypes`. An annotation as `typing.get_origin` and
  `typing.get_args` see it.
- `func_documentation.dfy`: `FuncDocumentation`. The docstring extraction.
- `function_schema.dfy`: `FunctionSchema`. The compiler. `SchemaOf` is its
  specification. `ConvertFunctionToFunctionSchema` follows the source step by
  step: a copying loop over the parameters (`CollectParameters`), then the
  per-parameter loop that fills the field map (`BuildFields`, whose loop body
  is `ParameterField`). It is proved to return `SchemaOf(f)`. The lemmas
  state the compiler's properties about `SchemaOf`.
- `tool.dfy`: `AgentTool`. The `Tool` and `ToolCallResult` records.
- `vector_store.dfy`: `VectorStore`. The entry and its validator.

Inputs that Python obtains by reflection are parameters of the model:

- the callable's `__name__`;
- its docstring, together with the sections the docstring parser makes of it;
- its `inspect.signature` parameters (name, kind, annotation, default);
- its `get_type_hints` map.

## Model

| member | source | states |
|---|---|---|
| `FuncDocumentation.GenerateFuncDocumentation` | packages/core/src/fetchbits/core/utils/function_schema.py:22-62 | The name is always the callable's own. A missing or empty docstring gives no summary and no parameter map. Otherwise the summary is the first text section. The parameter map is never reported as an empty dict: it is absent exactly when no entry was collected, and otherwise it is the collected dict. |
| `FuncDocumentation.FirstText` | packages/core/src/fetchbits/core/utils/function_schema.py:46-48 | The summary, when present, is the text of one of the docstring's text sections. |
| `FuncDocumentation.ParamDescriptions` | packages/core/src/fetchbits/core/utils/function_schema.py:51-56 | The collected dict is well formed. Every name listed in a parameter section is a key, and every key is the name of a listed entry. |
| `FuncDocumentation.FirstTextIsFirst` | packages/core/src/fetchbits/core/utils/function_schema.py:46-48 | If section `i` is the first text section, the summary is its text. |
| `FuncDocumentation.FirstTextAbsent` | packages/core/src/fetchbits/core/utils/function_schema.py:46-48 | The summary is absent exactly when no section is a text section. |
| `FuncDocumentation.DocParamsMembership` | packages/core/src/fetchbits/core/utils/function_schema.py:51-56 | An entry is collected exactly when some parameter section lists it. Other section kinds contribute nothing. |
| `FuncDocumentation.LaterSectionWins` | packages/core/src/fetchbits/core/utils/function_schema.py:51-56 | A parameter section appended after any others decides the description of every name it lists. |
| `FuncDocumentation.LastDescriptionKept` | packages/core/src/fetchbits/core/utils/function_schema.py:51-56 | Among the collected entries, the description kept for a name is that of its last entry. |
| `Dicts.Dict.Get` | packages/core/src/fetchbits/core/utils/function_schema.py:114 | `d.get(k, None)` is present exactly when `k` is a key, and then it is the stored value. |
| `Dicts.Dict.Set` | packages/core/src/fetchbits/core/utils/function_schema.py:159-168 | `d[k] = v` keeps the dict well formed. Afterwards `k` maps to `v` and every other key is unchanged. A new key goes to the end of the key order; an existing key keeps its place. |
| `Dicts.FromPairs` | packages/core/src/fetchbits/core/utils/function_schema.py:51-56 | Assigning the pairs one by one gives a well-formed dict. Its keys are exactly the keys assigned. |
| `Dicts.FromPairsKeyOrder` | packages/core/src/fetchbits/core/utils/function_schema.py:102-168 | When no key repeats, the dict lists its keys in assignment order. |
| `Dicts.FromPairsLastWins` | packages/core/src/fetchbits/core/utils/function_schema.py:51-56 | The value kept under a key is that of the last pair with that key. |
| `Dicts.FromPairsOverride` | packages/core/src/fetchbits/core/utils/function_schema.py:51-56 | Pairs assigned later override earlier ones on every key they assign. |
| `FunctionSchema.VarPositionalType` | packages/core/src/fetchbits/core/utils/function_schema.py:117-129 | The type of a `*args` field is always a one-argument `list`. |
| `FunctionSchema.VarKeywordType` | packages/core/src/fetchbits/core/utils/function_schema.py:138-150 | The type of a `**kwargs` field is always a two-argument `dict`. |
| `FunctionSchema.FieldFor` | packages/core/src/fetchbits/core/utils/function_schema.py:105-168 | A parameter's field is required exactly when the parameter is neither variadic nor has a default. A normal parameter's field has its declared type. The field's description is present exactly when the docstring dict has the parameter's name, and then it is that entry. |
| `FunctionSchema.RequiredNames` | packages/core/src/fetchbits/core/utils/function_schema.py:172-186 | `required` holds exactly the fields that have neither a default nor a default factory. It keeps the field order, is never longer than the field list, and repeats no name when the field names are distinct. |
| `FunctionSchema.ModelJsonSchema` | packages/core/src/fetchbits/core/utils/function_schema.py:172-186 | The generated schema is an object whose properties are the fields. A name is in `required` exactly when it is a field without a default. For a well-formed field dict, `required` lists each such name once, in field order. |
| `FunctionSchema.SchemaOf` | packages/core/src/fetchbits/core/utils/function_schema.py:64-189 | The compiled schema has `type` "function", `parameters.type` "object" and the callable's name. Its properties form a well-formed dict whose keys are exactly the parameter names. |
| `FunctionSchema.CollectParameters` | packages/core/src/fetchbits/core/utils/function_schema.py:87-99 | The first pass (the first parameter, then the rest) returns every parameter exactly once, in declaration order: `filtered_params == params`. |
| `FunctionSchema.ParameterField` | packages/core/src/fetchbits/core/utils/function_schema.py:105-168 | The loop body, reassigning the annotation step by step, builds the field that `FieldFor` specifies for the parameter. |
| `FunctionSchema.BuildFields` | packages/core/src/fetchbits/core/utils/function_schema.py:102-168 | The per-parameter loop fills the field map with one assignment per parameter, in order. The result equals `FromPairs` of the specified fields. |
| `FunctionSchema.ConvertFunctionToFunctionSchema` | packages/core/src/fetchbits/core/utils/function_schema.py:64-189 | The compiler returns exactly the specified schema `SchemaOf(f)`. |
| `FunctionSchema.SchemaEnvelope` | packages/core/src/fetchbits/core/utils/function_schema.py:178-189 | `type` is "function" and `parameters.type` is "object". `function.name` is the callable's `__name__`. The description is the docstring summary, absent without a docstring. |
| `FunctionSchema.PropertiesAreParameters` | packages/core/src/fetchbits/core/utils/function_schema.py:102-185 | The property keys are exactly the parameter names, each listed once. With distinct names they are listed in declaration order. |
| `FunctionSchema.PropertyOfParameter` | packages/core/src/fetchbits/core/utils/function_schema.py:105-168 | The property stored under a parameter's name is the field built from that parameter. If a name repeats, it is the field of the last such parameter. |
| `FunctionSchema.RequiredAreProperties` | packages/core/src/fetchbits/core/utils/function_schema.py:158-186 | A name is in `required` exactly when it is a property whose field has no default. |
| `FunctionSchema.RequiredIffNoDefault` | packages/core/src/fetchbits/core/utils/function_schema.py:132-168 | A parameter's name is in `required` exactly when it is a non-variadic parameter without a default. |
| `FunctionSchema.RequiredInDeclarationOrder` | packages/core/src/fetchbits/core/utils/function_schema.py:102-186 | With distinct parameter names, `required` lists the names of the non-variadic parameters without a default, each once, in declaration order. |
| `FunctionSchema.NoParameters` | packages/core/src/fetchbits/core/utils/function_schema.py:102-189 | A callable without parameters gets no properties and an empty `required`. |
| `FunctionSchema.VariadicFieldsOptional` | packages/core/src/fetchbits/core/utils/function_schema.py:132-156 | `*args` and `**kwargs` fields are never required. Their factories produce an empty list and an empty dict. |
| `FunctionSchema.NormalFieldDefault` | packages/core/src/fetchbits/core/utils/function_schema.py:158-168 | A normal parameter keeps its declared type. It is required iff it has no default; otherwise its declared default is recorded unchanged. |
| `FunctionSchema.VariadicFieldType` | packages/core/src/fetchbits/core/utils/function_schema.py:117-150 | A `*args` field's type is the `*args` normalisation of the parameter's declared type; a `**kwargs` field's type is the `**kwargs` normalisation of it. |
| `FunctionSchema.MissingAnnotationIsAny` | packages/core/src/fetchbits/core/utils/function_schema.py:106-150 | Without a hint or an annotation, the type is `Any` for a normal parameter, `list[Any]` for `*args` and `dict[str, Any]` for `**kwargs`. |
| `FunctionSchema.VarPositionalNormalisation` | packages/core/src/fetchbits/core/utils/function_schema.py:117-129 | For `*args`: `tuple[X, ...]` gives `list[X]`; a two-argument tuple not ending in `...` or a tuple of any other length gives `list[Any]`; a non-tuple `T` gives `list[T]`. |
| `FunctionSchema.VarKeywordNormalisation` | packages/core/src/fetchbits/core/utils/function_schema.py:138-150 | For `**kwargs`: `dict[K, V]` stays `dict[K, V]`; a `dict` origin with another number of arguments gives `dict[str, Any]`; a non-dict `T` gives `dict[str, T]`. |
| `FunctionSchema.DescriptionPropagation` | packages/core/src/fetchbits/core/utils/function_schema.py:79-114 | A parameter's property carries the docstring's description of its name. It carries none when the docstring is missing or does not describe that name. |
| `FunctionSchema.AddExample` | packages/core/src/fetchbits/core/utils/function_schema.py:64-189 | For `add(a: int, b: int = 0)` documented "Adds two numbers." with `a: first` and `b: second`: the summary is "Adds two numbers."; the properties are `a`, `b` in that order; `a` is required, `b` defaults to 0; each carries its description; `required == ["a"]`. |
| `FunctionSchema.LogExample` | packages/core/src/fetchbits/core/utils/function_schema.py:117-135 | For `log(*tags: str)`: `tags` is a `list[str]` field, not required, defaulting to an empty list. |
| `AgentTool.Tool.FromCallable` | packages/agents/src/fetchbits/agents/tool.py:27-36 | The tool stores the given callable itself as `on_tool_call`. |
| `AgentTool.Tool.ToFunctionSchema` | packages/agents/src/fetchbits/agents/tool.py:38-52 | The result's `type` is always "function". Its `function.name`, `function.description` and `function.parameters` are the tool's fields. |
| `AgentTool.FromCallableCopiesSchema` | packages/agents/src/fetchbits/agents/tool.py:29-34 | `from_callable` copies name, description and parameters verbatim from the compiled schema's `function` part. The name is the callable's `__name__`. |
| `AgentTool.RoundTrip` | packages/agents/src/fetchbits/agents/tool.py:29-52 | `to_function_schema(from_callable(f))` equals the schema the compiler produces for `f`. |
| `AgentTool.ToFunctionSchemaKeepsFields` | packages/agents/src/fetchbits/agents/tool.py:38-52 | Reading the fields back out of a tool's schema gives the same tool, so converting changes and loses nothing but the callable. |
| `VectorStore.DefaultEntry` | packages/core/src/fetchbits/core/vector_stores/base.py:19-23 | An entry given only its id keeps that id, has no text, no image bytes and empty metadata. |
| `VectorStore.TextOrImageRequired` | packages/core/src/fetchbits/core/vector_stores/base.py:43-49 | The validator accepts exactly when `text` is non-empty and `image_bytes` is absent or empty. On success it returns the same entry; otherwise it fails with its fixed message. |
| `VectorStore.ImageRejectedEvenWithText` | packages/core/src/fetchbits/core/vector_stores/base.py:45-46 | An entry with non-empty `image_bytes` is rejected, even when its text is non-empty. |
| `VectorStore.MissingTextRejected` | packages/core/src/fetchbits/core/vector_stores/base.py:45-46 | An entry whose `text` is `None` or `""` is always rejected. |
| `VectorStore.DefaultEntryRejected` | packages/core/src/fetchbits/core/vector_stores/base.py:19-46 | The defaults are `text=None`, `image_bytes=None` and `metadata={}`. An entry built from these defaults is rejected. |
| `VectorStore.ImageOnlyEntryRejected` | packages/core/src/fetchbits/core/vector_stores/base.py:45-46 | As written, an entry with image bytes and no text is rejected. |
| `VectorStore.TextOrImagePresent` | packages/core/src/fetchbits/core/vector_stores/base.py:43-49 | The corrected validator accepts exactly when text or image bytes are present, and returns the entry unchanged. |
| `VectorStore.IntendedAcceptsMore` | packages/core/src/fetchbits/core/vector_stores/base.py:45-46 | The corrected validator accepts everything the written one accepts. The entries only it accepts are exactly those with image bytes. |

## Left out

- Docstring parsing itself is not modelled. The Google-style parse is done by an external library (`function_schema.py:41-43`), so its output, a list of sections, is an input. That library's classes are not imported in the file either.
- `_suppress_griffe_logging` (`function_schema.py:10-19`) is not modelled. It changes a process-wide logger level around the parse: logging plumbing, with a race under concurrent calls.
- Python reflection is not modelled. The callable's name, docstring, `inspect.signature` parameters and `get_type_hints` map are inputs (`Callable`). `get_origin` and `get_args` are read off the annotation's shape (`PyTypes.Ty`).
- pydantic's `create_model` / `model_json_schema` (`function_schema.py:171-176`) are modelled only as far as the field map. Each property is the field's type, default and description. How pydantic renders a type as JSON Schema (`"integer"`, `"array"`, titles, `$defs`) is not modelled. Nor are its failures: it refuses field names that start with an underscore, raises for an annotation it cannot build a schema for (an arbitrary class, a `Callable`), and leaves out defaults that are not JSON-serialisable. `SchemaOf` always returns a schema that has every parameter and every default.
- The first pass's annotation lookups (`function_schema.py:93,98`) assign a variable that is never read. `CollectParameters` copies the parameters and leaves them out.
- The `if doc_info else` fallbacks (`function_schema.py:82,182`) are not modelled: `doc_info` is always a non-empty dict, so those branches never run.
- Idempotence is not stated as a lemma. Compiling is a function of its inputs here, so two compilations of the same callable are equal by construction.
- `Tool.to_function_schema` leaving the tool unchanged is not stated as a lemma. `Tool` is a value, so no operation can change its fields. `ToFunctionSchemaKeepsFields` states the part that can be said: the schema carries every field unchanged.
- `Tool.description` is declared `str` but receives `None` when there is no docstring, and also when the docstring has no text section (`function_schema.py:46-48`). It is modelled as `Option<string>`.
- `tool.py:29` calls the compiler without importing it. The model takes it to be `convert_function_to_function_schema`.
- Calling a tool (`on_tool_call`) is not modelled. `ToolCallResult` is a plain record with no operations.
- `validate_metadata_serializable` (`vector_stores/base.py:28-37`) is not modelled: it relies on pydantic's JSON dump. `VectorStoreResult` (floats and vectors, no logic) is not modelled either.
- Float defaults and arbitrary objects are not modelled in detail. A default is only stored and handed on, so any value other than none, bool, int, str, list or dict is an opaque `ObjectValue`.
- `prompt/discovery.py` (filesystem globbing, dynamic imports, printing), `agents/types.py` (type aliases only) and `llms/base.py` (imports only) are not part of this model.
- An invalid signature, such as two parameters of the same variadic kind, does not fail in the source. The source never checks for it, and Python signatures cannot have one. The model follows the code: it imposes no such check.
- Repeated parameter names are handled the way the code's dict handles them: the last parameter wins and the first position is kept. The ordering and requiredness corollaries are stated for distinct names, which every Python signature has.

## Findings

| source | as written | input that shows it | evidently intended | confidence | as-written member | corrected member |
|---|---|---|---|---|---|---|
| packages/core/src/fetchbits/core/vector_stores/base.py:45-46 | `if not self.text or self.image_bytes: raise`: rejects every entry that has image bytes, and every entry without text | `text=None, image_bytes=b"\x89"`: an image-only entry is rejected, although the error message says that image bytes alone suffice | reject only when neither text nor image bytes are given, i.e. `if not (self.text or self.image_bytes)` | medium, not executed | `VectorStore.ImageOnlyEntryRejected` | `VectorStore.TextOrImagePresent` |

No other modelled code calls the validator. `VectorStore.TextOrImageRequired` stays the model of the code as written.
