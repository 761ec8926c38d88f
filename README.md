# ClaudeClient, modelled in Dafny

ClaudeClient is a small Python tool around a hosted language-model API. It has four parts.

- **Command-line client** (`claude_client.py`):
  - builds a prompt from a Jinja template or a direct query;
  - sends the prompt to the messages endpoint and appends every exchange to `./logs.txt`;
  - can normalise escape sequences in the response and decode it as JSON;
  - can assemble the text of a PDF, optionally cut to a character range, or list that text with the offset of each line.
- **Django views** (`claude_interface/claude_app/views.py`) that drive a PyMOL process over XML-RPC:
  - `load_pdb` fetches a structure and resets the conversation kept in the Django cache;
  - `query_claude_and_run_pymol` asks the model for PyMOL commands, runs each one, saves the modified structure and records the exchange in the query and chat histories.
- **Project-tree builder** (`django_structure.py`): files every path `git ls-files` reports into a nested dictionary with a `__files__` list per directory.
- **Query form** (`claude_interface/claude_app/forms.py`): a Django form to which numbered parameter fields `param_0`, `param_1`, … are added.

The model has one module per source file, plus three shared modules:

- `Common`: Option and Result types.
- `Text`: Python's `str.split`, `str.replace`, `str(n)` and `int(s)` on strings.
- `JsonValue`: the values `json.loads` returns, with dict lookup and iteration.

Each part keeps the source's form. State that Python mutates is a Dafny class, and each method on it is proved equal to a pure function of the old state:
- `LogFile` holds the query log;
- `PymolProxy` records the commands PyMOL received;
- `ConversationState` holds the four cache keys;
- `ProjectStructure` is the tree being built;
- `ClaudeQueryForm` is the form.

Loops stay loops, with invariants: the page loop of `parse_pdf`, the position loop of `output_pdf_with_positions`, the command loop of `execute_pymol_commands`, and the outer and inner loops of the tree builder. The properties the source promises are stated as lemmas about those functions.

Foreign services are parameters, so the model is deterministic for fixed parameters:
- the rendered template;
- the API call, where `None` stands for the call raising;
- `json.loads`, where `None` stands for `JSONDecodeError`;
- the pages a PDF reader extracts;
- `str()` of a non-string JSON value;
- a function from the commands PyMOL already received and the next command to the fault it raises, if any;
- the `git ls-files` listing;
- reading a file.

Three behaviours one might expect are not in the code, and the model follows the code:
- Commands are not split into "python" and "pymol" kinds. `execute_pymol_commands` sends every element of `commands` whole to `pymol.do`, in list order.
- A log record has no timestamp. It is written only after the API call returned, so a call that raises leaves the log unchanged.
- A successful `load_pdb` empties both histories even when it reloads the same structure.

## Model

| member | source | states |
|---|---|---|
| Client.Repeat | claude_client.py:46 | `c * n` is n copies of c; the log separator is 80 `=` |
| Client.Separator | claude_client.py:46 | the 80 `=` that close a record; `Client.Repeat` states its length and content |
| Client.LogFile.Append | claude_client.py:43-46 | the log grows by exactly `Query: q\nResponse: r\n\n` + 80 `=` + `\n\n`, and the earlier content is kept as a prefix |
| Client.LogRecord | claude_client.py:43-46 | the record of one query: `Query: q`, the response, a blank line, 80 `=` and a blank line; `Client.LogFile.Append` states that it is appended |
| Client.ClaudeClient.Query | claude_client.py:31-47 | for parameters without `self` (Python refuses that keyword at the call), the response is the API's answer to the request `RequestFor` builds: the model `claude-3-5-sonnet-20240620`, the client's token cap, and the built prompt as the one user message; an answered call appends its record to the log, and a call that raises leaves the log unchanged |
| Client.RequestFor | claude_client.py:34-40 | the arguments of `messages.create`; `Client.ClaudeClient.Query` and `Views.ExchangeTraffic` state the request sent |
| Client.ClaudeClient.BuildQuery | claude_client.py:25-29 | the prompt: the rendered template, or without one the `query` parameter, `""` when absent; it demands no parameter named `self`, as the Python call does; `Client.BuildQueryWithoutTemplate` states the second case |
| Client.BuildQueryWithoutTemplate | claude_client.py:25-29 | without a template, and for parameters that Python can bind (none named `self`), the prompt is the `query` parameter, or `""` when it is absent, and no other parameter affects it |
| Client.ParseJson | claude_client.py:49-56 | the result is `None` exactly when the decoder rejects the normalised text; text without a backslash is decoded unchanged |
| Client.UnescapeNewlines | claude_client.py:50 | the first replacement of `parse_json`, backslash-n to newline; its properties are the `Normalize…` lemmas |
| Client.NormalizeEscapes | claude_client.py:50 | both replacements of `parse_json`, in the source's order; its properties are the `Normalize…` lemmas |
| Client.NormalizeWithoutBackslash | claude_client.py:50 | text containing no backslash is unchanged by both replacements |
| Client.NormalizeNotLonger | claude_client.py:50 | neither replacement step lengthens the text |
| Client.NormalizeLeavesNoEscapedNewline | claude_client.py:50 | after the first replacement no backslash is immediately followed by `n`, and the second replacement keeps it so |
| Text.Split | claude_client.py:77 | `str.split(sep)` gives one more part than there are separators, and no part contains the separator |
| Text.JoinSplit | claude_client.py:77 | joining the parts of a split with the separator gives back the text |
| Text.SplitJoin | claude_client.py:77 | splitting a join of separator-free parts gives back the parts |
| Text.ParseNatToString | claude_client.py:67 | `int(str(n)) == n` for every natural number |
| Text.NatToStringInjective | claude_interface/claude_app/forms.py:16 | different numbers have different decimal forms |
| Text.ReplaceAllNotLonger | claude_client.py:50 | `s.replace(pat, rep)` with rep no longer than pat never lengthens s |
| Text.ReplaceAllWithoutPatternStart | claude_client.py:50 | `s.replace(pat, rep)` leaves s unchanged when the first character of pat does not occur in it |
| Text.ReplacePairLeavesNone | claude_client.py:50 | after replacing every two-character pair `ab` with a non-empty text that neither contains `a` nor starts with `b`, no `ab` pair remains |
| Text.ReplaceAll | claude_client.py:50 | `str.replace`: every non-overlapping occurrence, left to right, replaced; its properties are the `Text.ReplaceAll…` lemmas |
| Text.Join | claude_client.py:77 | `sep.join(parts)`, the inverse of the split, proved so by `Text.JoinSplit` and `Text.SplitJoin` |
| Text.ParseNat | claude_client.py:67 | `int(s)` on plain digits, `None` where Python raises; `Text.ParseNatToString` states the round trip |
| Text.NatToString | claude_interface/claude_app/forms.py:16 | `str(n)` of a natural number; `Text.ParseNatToString` and `Text.NatToStringInjective` state its properties |
| Client.PageTextAppend | claude_client.py:62-64 | the assembled text of two runs of pages is the two texts one after the other |
| Client.PageTextOne | claude_client.py:64 | one page contributes its text followed by `"\n"` |
| Client.PageText | claude_client.py:62-64 | the page texts, each followed by a newline, in page order; `Client.ParsePdf` is proved equal to it |
| Client.Slice | claude_client.py:68 | `text[start:end]` clamps both bounds to the length, is empty when start >= end, and has the length of the clamped range |
| Client.ParseRangeRoundTrip | claude_client.py:67 | a range written `a-b` reads back as `(a, b)` |
| Client.ParseRangeRefuses | claude_client.py:67 | a range is read only when it has exactly one `-`; one starting with `-` or without `-` is refused |
| Client.ParseRange | claude_client.py:67 | `map(int, r.split('-'))` unpacked into two values, `None` where Python raises; its properties are `Client.ParseRangeRoundTrip` and `Client.ParseRangeRefuses` |
| Client.PdfText | claude_client.py:59-73 | what `parse_pdf` returns; `Client.PdfTextRange` states its three range outcomes |
| Client.PdfTextRange | claude_client.py:66-70 | no range (or an empty one) gives the whole text, a malformed range gives `None`, and a readable range gives the clamped slice |
| Client.ParsePdf | claude_client.py:58-73 | the loop builds the page texts each followed by a newline, in page order, then applies the range; a reader failure or a malformed range gives `None` |
| Client.LinePositions | claude_client.py:77-81 | the listing has one entry per `"\n"`-separated line |
| Client.LinePositionsLocate | claude_client.py:77-81 | the first offset is 0; each next offset is the previous one plus the line length plus one; each line is the text at its offset, followed by a newline or by the end of the text |
| Client.LeftAlign | claude_client.py:80 | `f"{s:<w}"` is s padded on the right with spaces to at least w characters |
| Client.PositionLine | claude_client.py:80 | `f"{position:<6}: {line}"` for one entry |
| Client.PositionLineReadsBack | claude_client.py:80 | a printed line is the offset in decimal, reading back as the offset, padded with spaces to six columns, then `": "` and the line |
| Client.PositionListing | claude_client.py:76-81 | one printed line per entry of the line listing |
| Client.OutputPdfWithPositions | claude_client.py:75-81 | the loop prints exactly the position listing: one line per `"\n"`-separated line, each at its offset |
| Client.PairsToMap | claude_client.py:116 | `dict(args.param)` holds exactly the keys given |
| Client.PairsToMapLastWins | claude_client.py:116 | a repeated key keeps the value of its last pair |
| Client.CliParamsQuery | claude_client.py:116-119 | `-q` sets `query`, overriding a `-p query` pair, only when there is no template; otherwise the parameters are the `-p` pairs |
| Client.CliParams | claude_client.py:116-119 | the parameters `main` assembles; `Client.CliParamsQuery` states them |
| Client.CliRefusesPdfWithoutTemplate | claude_client.py:111-112 | `--pdf` without `-t` or `--output-pdf` is a usage error with the source's message, whatever the PDF holds |
| Client.Given | claude_client.py:111-143 | Python's truthiness of an optional string argument, as `main`'s checks test it; the `Client.Cli…` lemmas use it |
| Client.CliPdfOutcome | claude_client.py:121-129 | PDF text that is missing or empty exits with status 1; with `--output-pdf` the position listing of the text is printed and nothing is sent |
| Client.CliArgumentChecks | claude_client.py:140-147 | without `--pdf`, `--estimate_cost` and `--output-pdf`: no template and no query is a usage error, and so is a template without parameters; a parameter named `self` makes the call raise `TypeError`; otherwise the prompt is sent |
| Client.CliSendsAssembledParams | claude_client.py:116-147 | a prompt is sent with exactly the assembled parameters, plus `pdf_content` when `--pdf` is given; without a template they include `query`, and they never include `self` |
| Client.CliPlan | claude_client.py:111-129 | the first check of `main`, the parameters and the PDF branch; the `Client.Cli…` lemmas state its outcomes |
| Client.CliAfterPdf | claude_client.py:131-147 | the estimate branch, the two usage checks and the send, in `main`'s order; `build_query(**params)` and `query(**params)` raise `TypeError` on a `self` parameter before anything is sent |
| Client.CliRespondOutcome | claude_client.py:146-156 | without `--json` the response is printed as is; with it, the decoded value is printed exactly when it decodes and is truthy; a decoded `{}` exits with status 1 |
| Client.CliRespond | claude_client.py:146-156 | what `main` prints once the response is back; `Client.CliRespondOutcome` states it |
| JsonValue.Truthy | claude_client.py:151 | Python's truthiness of a decoded value: `null`, `false`, zero and empty strings, lists and objects are falsy |
| JsonValue.LastBinding | claude_interface/claude_app/views.py:78-79 | `data[key]` is missing exactly when no member has the key; otherwise it is the value of the last member with that key |
| JsonValue.Keys | claude_interface/claude_app/views.py:123 | iterating a dict visits each key once, and exactly the keys of its members |
| JsonValue.Subscript | claude_interface/claude_app/views.py:78-79 | `value[key]`: the last binding of an object, a lookup error on a missing key or a non-object |
| JsonValue.Iterate | claude_interface/claude_app/views.py:123 | `for cmd in value`: the elements of a list, the characters of a string, the keys of an object, and `None` where iterating raises |
| Views.PymolProxy.Do | claude_interface/claude_app/views.py:125 | every `pymol.do` call is recorded in order; whether it raises, and with which message, depends on the earlier calls and this one, which covers a fault from the server as well as a command the client refuses to send |
| Views.BatchResults | claude_interface/claude_app/views.py:121-130 | a batch gets one result line per command, so a fault never stops the batch |
| Views.BatchResultsAt | claude_interface/claude_app/views.py:123-129 | result k is the line for command k, judged after every earlier command of the batch was sent |
| Views.BatchResultReportsFaults | claude_interface/claude_app/views.py:126-129 | a result line starts `Command: <cmd>` and carries `\nError: <message>` exactly when its command raised |
| Views.Display | claude_interface/claude_app/views.py:126 | `f"{cmd}"`: a string shows as itself, any other value as rendered by `str()`; `Views.BatchResultReportsFaults` states the line around it |
| Views.CommandResult | claude_interface/claude_app/views.py:126-129 | the result line of one command; `Views.BatchResultReportsFaults` states its form |
| Views.ExecutePymolCommands | claude_interface/claude_app/views.py:121-130 | PyMOL receives the commands in order, and the results are the lines for those commands |
| Views.PathJoin | claude_interface/claude_app/views.py:36 | `os.path.join(a, b)` with a relative b ends with b |
| Views.PdbDir | claude_interface/claude_app/views.py:33 | the `pdb_files` directory under the base directory; `Views.PdbDirEndsInName` states its ending |
| Views.LoadedPath | claude_interface/claude_app/views.py:35-36 | where `load_pdb` saves a structure; `Views.LoadedPathIsInPdbDir` states its form |
| Views.ModifiedFileName | claude_interface/claude_app/views.py:85 | `<id>_modified.pdb`; `Views.ExchangeTraffic` states the save and the reply path built from it |
| Views.PdbDirEndsInName | claude_interface/claude_app/views.py:33 | the structure directory path ends with `pdb_files` |
| Views.LoadedPathIsInPdbDir | claude_interface/claude_app/views.py:33-36 | a structure id without `/` is saved as `<id>.pdb` directly inside the `pdb_files` directory |
| Views.TranscriptLength | claude_interface/claude_app/views.py:90-107 | the chat has two turns per query |
| Views.TranscriptAt | claude_interface/claude_app/views.py:90-107 | chat turns 2i and 2i+1 are query i's user turn and its assistant turn |
| Views.Transcript | claude_interface/claude_app/views.py:97-107 | the chat a query history reads as; `Views.TranscriptLength` and `Views.TranscriptAt` state its layout |
| Views.LoadOutcome | claude_interface/claude_app/views.py:30-46 | a load succeeds exactly when both fetch and save go through; it then sets the structure id and path and empties both histories; a failure leaves the cache as it was |
| Views.LoadRefusesInvalid | claude_interface/claude_app/views.py:47 | an invalid request changes nothing and sends nothing |
| Views.Load | claude_interface/claude_app/views.py:26-47 | `load_pdb` as a transition; `Views.LoadOutcome` and `Views.LoadRefusesInvalid` state it |
| Views.LoadKeepsTranscript | claude_interface/claude_app/views.py:39-43 | a load keeps the chat history the transcript of the query history |
| Views.ConversationState.constructor | claude_interface/claude_app/views.py:56-59 | the cache starts with no key set |
| Views.ConversationState.LoadPdb | claude_interface/claude_app/views.py:26-47 | the cache and PyMOL traffic after `load_pdb` are those of the load transition |
| Views.ReadAnswerAccepts | claude_interface/claude_app/views.py:77-80 | an answer is used exactly when it is an object holding both `commands` and `explanation` and its commands are iterable; a missing `commands` key raises `KeyError('commands')` |
| Views.ReadAnswer | claude_interface/claude_app/views.py:77-80 | the reads of `commands` and `explanation` and the iteration of the commands; `Views.ReadAnswerAccepts` states it |
| Views.ExchangeUpdatesHistory | claude_interface/claude_app/views.py:76-115 | only a completed exchange changes the cache, and only once Claude's text decoded to a readable answer; it then appends one query entry holding the query and the explanation and commands read from that answer, and the matching user and assistant turns; it keeps the structure, and the reply carries the same explanation and the new chat history |
| Views.ExchangeTraffic | claude_interface/claude_app/views.py:68-115 | the prompt is rendered from the query, the current structure and the earlier history; an answer is logged whatever follows; PyMOL receives the commands in order and then one save of `<id>_modified.pdb` |
| Views.ContextOf | claude_interface/claude_app/views.py:56-72 | the prompt context; `Views.ExchangeTraffic` and `Views.ExchangeUpdatesHistory` state the prompt as rendered from the query, the current structure id (`Unknown` when unset) and the query history (empty when unset) |
| Views.ExchangeRefusesUndecodable | claude_interface/claude_app/views.py:116-117 | a response that does not decode is answered with `Invalid response from Claude`, without running a command or touching the cache |
| Views.Exchange | claude_interface/claude_app/views.py:49-119 | `query_claude_and_run_pymol` as a transition; the `Views.Exchange…` lemmas state it |
| Views.RunAnswer | claude_interface/claude_app/views.py:80-115 | the run, save and record phase after a readable answer |
| Views.RunAnswerKeepsTranscript | claude_interface/claude_app/views.py:89-107 | recording an exchange keeps the chat history the transcript of the query history |
| Views.StepsKeepTranscript | claude_interface/claude_app/views.py:26-119 | both views keep the chat history the transcript of the query history |
| Views.Serve | claude_interface/claude_app/views.py:26-119 | one request of either kind served against the cache, PyMOL and the log |
| Views.ServeAll | claude_interface/claude_app/views.py:26-119 | a sequence of requests served in order; `Views.ServeAllKeepsTranscript` states what it keeps |
| Views.ServeAllKeepsTranscript | claude_interface/claude_app/views.py:26-119 | a sequence of requests of both kinds, served from a consistent cache, keeps it consistent |
| Views.ConversationState.QueryClaudeAndRunPymol | claude_interface/claude_app/views.py:49-119 | the cache, PyMOL traffic, log and reply after `query_claude_and_run_pymol` are those of the exchange transition |
| Views.ConversationState.RunAnswerAndRecord | claude_interface/claude_app/views.py:80-115 | running a readable answer, saving and recording match the run phase of the exchange transition |
| DjangoStructure.PathDetermined | django_structure.py:22-39 | a path is determined by its directories and its file name |
| DjangoStructure.GitTrackedFiles | django_structure.py:5-14 | the paths `git ls-files` printed, none when it fails; `DjangoStructure.GetDjangoProjectStructure` and `DjangoStructure.DescribesOnlyEmpty` state the empty result on failure |
| DjangoStructure.Parent | django_structure.py:22-25 | the directories of a path, `parts[:-1]`; `DjangoStructure.PathDetermined` states that they and the name determine the path |
| Text.BaseName | django_structure.py:22-37 | the file name of a path, `parts[-1]`, shared with the views; `DjangoStructure.PathDetermined`, `DjangoStructure.DescribedEntryUnique` and `Views.LoadedPathIsInPdbDir` state it |
| DjangoStructure.EntryList | django_structure.py:33-41 | the entry a read adds, none when opening fails; `DjangoStructure.EntriesStep` states filing it |
| DjangoStructure.AddedDirs | django_structure.py:25-28 | the directories after filing a path: its missing prefixes added |
| DjangoStructure.AddedFiles | django_structure.py:30-39 | the `__files__` lists after filing a path: its directory gets the key, and the entry when the read succeeds |
| DjangoStructure.Describes | django_structure.py:16-43 | the structure built from a set of paths, whatever the visit order; `DjangoStructure.DescribesStep` shows filing keeps it |
| DjangoStructure.DescribesNothing | django_structure.py:17 | the empty dictionary describes the empty set of paths |
| DjangoStructure.DescribesOnlyEmpty | django_structure.py:8-18 | with no paths, as when git fails, the structure is the empty dictionary |
| DjangoStructure.DescribedIsTree | django_structure.py:23-28 | the structure is a tree: the root exists, every node's parent exists, and only nodes have a `__files__` list |
| DjangoStructure.NodesStep | django_structure.py:25-28 | filing a path creates the missing directories on its way and reuses the existing ones |
| DjangoStructure.ListsStep | django_structure.py:30-31 | filing a path gives its directory a `__files__` list, even when reading fails, and gives none to any other directory |
| DjangoStructure.EntriesStep | django_structure.py:33-41 | filing a path adds its name and content to its directory's list when the read succeeds, and nothing when it fails |
| DjangoStructure.NamesStep | django_structure.py:18-39 | since the paths form a set, no directory lists a file name twice |
| DjangoStructure.DescribesStep | django_structure.py:20-41 | filing one more path keeps the description exact |
| DjangoStructure.DescribedEntryUnique | django_structure.py:18-39 | every listed path that could be read has exactly one entry, with its name and content, in its directory's list |
| DjangoStructure.FilingKeepsExisting | django_structure.py:25-39 | filing a path leaves other directories' lists unchanged and only extends its own, by one entry exactly when the read succeeds |
| DjangoStructure.FilingKeepsTree | django_structure.py:23-31 | filing a path keeps the flat form a tree |
| DjangoStructure.ProjectStructure.constructor | django_structure.py:17 | a new structure is the empty dictionary |
| DjangoStructure.ProjectStructure.AddPath | django_structure.py:20-41 | the cursor loop and the file append change the structure exactly as filing the path does, and the structure stays a tree |
| DjangoStructure.GetDjangoProjectStructure | django_structure.py:16-43 | the result is a tree describing exactly the set of listed paths, whatever order the set is visited in; it is the empty dictionary when git fails |
| Forms.DeclaredFields | claude_interface/claude_app/forms.py:4-9 | the six declared fields, none of them required |
| Forms.ParamNames | claude_interface/claude_app/forms.py:16-18 | k calls yield the k names `param_0` … `param_{k-1}` |
| Forms.ParamNamesAt | claude_interface/claude_app/forms.py:16 | the i-th parameter name is `param_<i>` |
| Forms.ParamName | claude_interface/claude_app/forms.py:16 | `f'param_{n}'`; `Forms.ParamNameInjective` and `Forms.ParamNameNotDeclared` state its properties |
| Forms.ParamNameInjective | claude_interface/claude_app/forms.py:16 | different counts give different names |
| Forms.ParamNameNotDeclared | claude_interface/claude_app/forms.py:4-16 | no generated name is one of the declared fields |
| Forms.ParamNamesDistinct | claude_interface/claude_app/forms.py:15-18 | the parameter names are pairwise distinct |
| Forms.FreshFormConsistent | claude_interface/claude_app/forms.py:11-13 | a new form is consistent: declared fields only, no parameters |
| Forms.AddParamKeepsConsistent | claude_interface/claude_app/forms.py:15-18 | adding `param_<n>` for the current count n keeps the form consistent |
| Forms.ConsistentFields | claude_interface/claude_app/forms.py:4-18 | in a consistent form parameter i is `param_<i>`, a non-required text field; the names are distinct; the declared fields are untouched; and the fields are exactly the declared ones and the parameters |
| Forms.Consistent | claude_interface/claude_app/forms.py:11-18 | the form after some number of `add_param_field` calls; `Forms.ConsistentFields` states what it implies |
| Forms.ClaudeQueryForm.constructor | claude_interface/claude_app/forms.py:11-13 | a new form has the declared fields and an empty `param_fields` |
| Forms.ClaudeQueryForm.AddParamField | claude_interface/claude_app/forms.py:15-18 | `fields` gains `param_<n>` (n the count before the call) as a non-required text field, `param_fields` gains that name at its end, and consistency is kept |

## Left out

- `estimate_cost` (claude_client.py:83-96) uses floating-point prices and the tiktoken tokenizer. `main` only reaches the estimate branch, modelled as the `EstimateCost` outcome; what that branch then sends and prints is not modelled.
- Printing, `argparse` parsing, `parser.error` and `sys.exit` are reduced to the outcome datatypes `CliOutcome` and `CliReply`. Parsing the command line is not modelled; the parsed arguments are an input.
- Reading the template file, building the Anthropic client and the tokenizer in `ClaudeClient.__init__`: the template is given already loaded, as a rendering function.
- Jinja rendering, the Anthropic API call, `json.loads`, PDF page extraction, the PyMOL XML-RPC server, `git ls-files`, and reading a file are foreign. Each is a parameter with the outcome described above.
- `response.content[0].text` is taken to be the whole answer of the API function.
- Text.ParseNat, Client.ParseRange: handle `int()` only on plain ASCII digits. Python also accepts surrounding whitespace, a sign and `_` separators, so those inputs are refused here although Python reads them.
- A failing write of `./logs.txt`, and a failing `os.makedirs`, are not modelled. Both raise in the source.
- `query_claude_and_run_pymol` reads the current PDB file into `pdb_content` (views.py:62-65) and never uses it. That read is left out, and so is its error path: when the file exists but cannot be opened or read, the view raises before Claude is asked and before anything is logged.
- `pymol_interface`, the form validation of `LoadPDBForm` and `PyMOLQueryForm`, and `JsonResponse` rendering are Django machinery. A valid form is `Some` of its cleaned value, and anything else is `None`.
- The Django cache is a single in-process object. Concurrent requests and cache expiry are not modelled.
- Client.ParseJson: a text that decodes to `null` gives `Some(JNull)`, whereas Python's `parse_json` returns `None` for it, the same value as for a rejected text. `main` exits with status 1 in both cases, and `Client.CliRespond` does the same, so no caller can tell the two apart.
- A decoded JSON number is a real. `json.loads` also accepts `NaN`, `Infinity` and `-Infinity`, which have no real counterpart; the decoder parameter cannot return them. `str()` of a non-string command is a parameter `repr`, so the exact text of that case is not modelled.
- The nested dictionary of `get_django_project_structure` is represented flat: a set of directory paths and a map from a directory to its `__files__` list. The order of entries within a list follows the set's iteration order and is left unspecified.
- `get_django_project_structure` requires that no directory segment is named `__files__`: such a directory collides with the list key in the source, and the flat form does not reproduce that collision.
- Paths are split on `/`: `os.sep` (django_structure.py:22) is taken to be the POSIX separator, and `os.path.join` (views.py:33-36, 83-86) is the POSIX one.
- `output_project_structure` and the module-level run of `django_structure.py` (lines 45-51) only print.
- `ClaudeQueryForm` is reduced to its field table. Django's widgets, validation and rendering are out of scope.
- `urls.py` and `setup.py` are not part of this model. `urls.py` only routes, and imports views that `views.py` does not define. `views.py` imports `LoadPDBForm` and `PyMOLQueryForm`, which `forms.py` does not define.
