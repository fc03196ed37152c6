# Echo tool dispatcher of a Model Context Protocol server

This project models the request handlers of a minimal Model Context Protocol
server that exposes one tool, `echo`. The server answers two requests:

- **tools/list** returns a fixed registry with one tool descriptor. The
  descriptor holds the name `"echo"`, the description `"Echo back input text"`
  and the tool's input schema.
- **tools/call** dispatches on the tool name. For `"echo"` it first replaces
  absent or `null` arguments with `{}` (the `?? {}` default). It then validates
  the arguments against the echo parameter schema. On success it returns one
  `text` content item, upper-cased when `uppercase` is true. Otherwise it
  raises a protocol error. Validation failures raise `InvalidParams` (-32602).
  An unknown tool name raises `MethodNotFound` (-32601). Both codes are the
  predefined codes in section 5.1 of the JSON-RPC 2.0 specification.

The handlers are pure, so they are modelled as functions. A thrown `McpError`
becomes the `Failure` arm of a `Result`. `src/echo.test.ts` holds a copy of
both handlers that is identical to `src/index.ts`, so the same functions model
both files. The test cases are stated as example lemmas in `EchoTests`.

Modules, in dependency order:

- `Wrappers`: `Option` and `Result`.
- `Json`: the JSON values a client can send as `arguments`.
- `Schema`: a structural object-schema validator that stands in for the
  schema library. It checks each declared member, collects every issue in
  declaration order, and drops undeclared members from the parsed data. A
  reference predicate `Accepts` is proved to agree with it.
- `Ascii`: ASCII upper-casing.
- `Protocol`: error codes, protocol errors, content items, tool results and
  tool descriptors.
- `Echo`: the parameter schema, the two handlers and the lemmas about them.
- `EchoTests`: the unit tests as lemmas.

In the model, the descriptor's `inputSchema` holds the same `EchoParamsSchema`
value the call handler validates against, in place of the JSON Schema document
the server generates from it. `Echo.ListedSchemaGovernsCall` states this
agreement for the model's descriptor.

## Model

| member | source | states |
|---|---|---|
| `Json.TypeOf` | src/index.ts:23-27 | the type name reported for a value is never "undefined", and it is object, string or boolean exactly when the value is one |
| `Schema.CheckField` | src/index.ts:23-27 | a member yields no issue iff it satisfies its rule: a required string of at least the minimum length, or an optional boolean. Any issue names that member. A type mismatch reports a received type different from the expected one. A too-short issue arises only for a string value and carries the field's minimum |
| `Schema.CheckFields` | src/index.ts:21-28 | the issue list is empty iff every declared member is accepted, and it holds no more issues than there are declared members |
| `Schema.CheckFieldsSound` | src/index.ts:21-28 | every reported issue names a declared member that fails its rule |
| `Schema.CheckFieldsComplete` | src/index.ts:21-28 | every declared member that fails its rule is named by some issue |
| `Schema.CheckFieldsOnePerMember` | src/index.ts:21-28 | when the declared members have distinct names, as the keys of an object literal do, no two issues name the same member |
| `Schema.Strip` | src/index.ts:21-22 | parsed data holds exactly the declared members that are present, with their input values |
| `Schema.Parse` | src/index.ts:45-46 | validation succeeds iff the value is an object that the reference rule `Accepts` accepts. A failure carries at least one issue. A non-object fails with a single root-level issue. On success the data is the input restricted to the declared members |
| `Schema.CheckFieldsIgnoresUndeclared` | src/index.ts:21-28 | a member the schema does not declare does not change the issues found |
| `Schema.ParseIgnoresUndeclared` | src/index.ts:21-28 | adding an undeclared member leaves the whole validation outcome unchanged, parsed data included |
| `Ascii.UpperChar` | src/index.ts:53 | a lower-case ASCII letter becomes the upper-case letter at the same alphabet position. Every other character is unchanged. The result is never a lower-case letter |
| `Ascii.ToUpperAscii` | src/index.ts:53 | the result has the input's length, and each character is the upper-case form of the input character at that position |
| `Ascii.ToUpperIdempotent` | src/index.ts:53 | upper-casing twice equals upper-casing once |
| `Protocol.ErrorCode.Code` | src/index.ts:47-67 | each error kind has its own code, in the range JSON-RPC reserves for predefined errors: -32602 for invalid params, -32601 for method not found |
| `Echo.EchoSchemaDistinct` | src/index.ts:22-27 | the echo schema declares `text` and `uppercase` once each, so `Schema.CheckFieldsOnePerMember` applies to it |
| `Echo.EchoIssuesOnePerMember` | src/index.ts:45-46 | when echo validation fails, no two of its issues name the same member |
| `Echo.EchoSchemaRules` | src/index.ts:21-29 | the schema value accepts a value iff it is an object with a string `text` of length at least 1, and `uppercase` is either missing or a boolean |
| `Echo.ParseEchoParams` | src/index.ts:45-52 | parsing succeeds iff the echo rules hold. On success `text` is the input's non-empty text, and `uppercase` is the input boolean or none when missing. A failure carries at least one issue |
| `Echo.EchoText` | src/index.ts:52-53 | the output text has the input text's length. It is the input text itself unless `uppercase` is true, and then each character is the upper-case form of the input character at that position |
| `Echo.NormalizeArguments` | src/index.ts:45 | absent or null arguments become the empty object, and any other value is passed on unchanged |
| `Echo.ListTools` | src/index.ts:31-39 | exactly one descriptor, named "echo", described as "Echo back input text", whose schema is the validator's schema |
| `Echo.CallTool` | src/index.ts:41-69 | any name other than "echo" yields `MethodNotFound` with message "Unknown tool: " + name. For "echo", the call succeeds iff the normalised arguments meet the echo rules. An echo failure is `InvalidParams` with a message that starts with "Invalid arguments for echo: ". An error is `MethodNotFound` exactly when the name is unknown. A success holds exactly one "text" item, whose text is the upper-cased input text when `uppercase` is true and the input text otherwise |
| `Echo.MissingArgumentsRejected` | src/index.ts:45 | absent, null and `{}` arguments give the same result: `InvalidParams`, from the single issue that `text` is missing |
| `Echo.UppercaseFalseLikeMissing` | src/index.ts:52-53 | `uppercase: false` gives the same outcome as omitting `uppercase`, whatever the other members are |
| `Echo.UndeclaredMembersIgnored` | src/index.ts:21-29 | members other than `text` and `uppercase` have no influence on a call's result |
| `Echo.ListedSchemaGovernsCall` | src/index.ts:31-45 | in the model, where the descriptor carries the validator's schema value, calling the listed tool succeeds iff that schema accepts the normalised arguments |
| `Echo.EchoOutputIsStable` | src/index.ts:52-61 | a valid echo call succeeds. Echoing its output again with the same `uppercase` returns the identical result |
| `EchoTests.ListsTheEchoTool` | src/echo.test.ts:57-63 | the list has length 1, and its element is named "echo" and described as "Echo back input text" |
| `EchoTests.EchoesWithoutUppercase` | src/echo.test.ts:65-76 | `{text:"Hello, World!"}` yields the single text item "Hello, World!" |
| `EchoTests.EchoesWithUppercase` | src/echo.test.ts:78-89 | `{text:"Hello, World!", uppercase:true}` yields the single text item "HELLO, WORLD!" |
| `EchoTests.EchoesWithUppercaseFalse` | src/echo.test.ts:91-102 | `{text:"Hello, World!", uppercase:false}` yields the single text item "Hello, World!" |
| `EchoTests.RejectsMissingText` | src/echo.test.ts:104-113 | `{}` is rejected with `InvalidParams` |
| `EchoTests.RejectsEmptyText` | src/echo.test.ts:115-124 | `{text:""}` is rejected with `InvalidParams` |
| `EchoTests.RejectsUnknownTool` | src/echo.test.ts:126-135 | tool name "unknown-tool" is rejected with `MethodNotFound` |

## Left out

- Transport and process plumbing (`Server` construction, the standard-stream transport, `connect`, `main`, its error logging and exit status) is I/O and lifecycle handled by the external SDK.
- Handler registration through `setRequestHandler` is a call into the SDK. The handler bodies are modelled as plain functions.
- The conversion of the schema to JSON Schema by `z.toJSONSchema` is foreign library code. The descriptor carries the schema value itself.
- `Echo.CallTool`: the error text after "Invalid arguments for echo: " is this model's own rendering of the issue list (`Schema.RenderIssues`). The schema library's wording is not modelled, and only the prefix is stated.
- `Echo.CallTool`: a protocol error's `message` is the message argument given to the SDK's `McpError`. The SDK's error class is not part of this model, so any wrapping it adds to the text a client receives (such as a leading code) is not modelled. The prefix clause is about that argument, not about the text sent on the wire.
- `Echo.ListedSchemaGovernsCall`: holds because the model's descriptor carries the validator's own schema value. It says nothing about the JSON Schema document produced by `z.toJSONSchema` that a client receives. That document may differ from the validator on undeclared members, for example by forbidding additional properties that the call accepts and strips.
- Dropping undeclared members is the schema library's default behaviour and cannot be seen in the repository's code. The model assumes it (`Schema.Strip`).
- `Ascii.ToUpperAscii`: maps only ASCII `a`-`z` to `A`-`Z` and leaves every other character unchanged. JavaScript's full Unicode `toUpperCase` (for example "ß" to "SS") is not modelled.
- JavaScript's `undefined` is not a JSON value, so a member that is present with the value `undefined` cannot be expressed. A missing member is a missing map key.
- JSON numbers are modelled as `real`, so floating point is not modelled. No rule looks at a number's value.
- String length is counted in Unicode characters, not UTF-16 code units. For the one length rule (at least 1) the two counts agree on every string the model can express. A JSON string holding a lone surrogate (such as `"\ud800"`, length 1 in JavaScript, which the server accepts) is not a sequence of Dafny characters and falls outside the model.
- The SDK checks that `arguments` is an object or absent before `src/index.ts` sees it. The test copy accepts any value. The model accepts any JSON value, which covers both.
- The `async`/Promise wrappers never suspend and are left out.
- Determinism and statelessness need no lemma: `CallTool` and `ListTools` are functions of the request alone.
- The vitest harness is left out. Only the inputs and outcomes its tests assert are modelled.
