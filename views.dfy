/**
 * The two Django views that drive PyMOL: `load_pdb` fetches a structure and
 * resets the conversation, `query_claude_and_run_pymol` asks Claude for PyMOL
 * commands, runs them, saves the result and extends the conversation.
 *
 * The Django cache is the state of a `ConversationState` object, one field per
 * cache key (`None` while the key is unset). The PyMOL XML-RPC endpoint is a
 * `PymolProxy` object that records every command it receives; whether a
 * command raises, and with which message, is a fixed function of the commands
 * received before it and the command itself. Each view is a method proved
 * equal to a pure transition function (`Load`, `Exchange`), and the
 * properties the views promise are lemmas about those functions.
 */
module Views {
  import opened Common
  import opened Text
  import opened JsonValue
  import Client

  /** The PyMOL server behind `xmlrpc.client.ServerProxy('http://localhost:9123')`. */
  class PymolProxy {
    /** The fault message `do(command)` raises with, given the commands received earlier. */
    const respond: (seq<Json>, Json) -> Option<string>
    /** Every command sent so far, in order. */
    var sent: seq<Json>

    constructor (respond: (seq<Json>, Json) -> Option<string>)
      ensures this.respond == respond
      ensures sent == []
    {
      this.respond := respond;
      sent := [];
    }

    /**
     * `pymol.do(command)`: every call is recorded, and it either returns or
     * raises with a message. Whether the command reached the server or the
     * client refused to send it (a `None` or an integer outside 32 bits under
     * `allow_none=False`, a refused connection) is not told apart: `respond`
     * gives the message in either case.
     */
    method Do(command: Json) returns (fault: Option<string>)
      modifies this
      ensures sent == old(sent) + [command]
      ensures fault == respond(old(sent), command)
    {
      fault := respond(sent, command);
      sent := sent + [command];
    }
  }

  // ---------------------------------------------------------------------------
  // execute_pymol_commands
  // ---------------------------------------------------------------------------

  /** `f"{cmd}"`: a string shows as itself, any other value as `repr` renders it. */
  function Display(command: Json, repr: Json -> string): string {
    if command.JString? then command.s else repr(command)
  }

  /** The line `execute_pymol_commands` records for one command and the fault it drew, if any. */
  function CommandResult(command: Json, fault: Option<string>, repr: Json -> string): string {
    match fault
    case None => "Command: " + Display(command, repr)
    case Some(m) => "Command: " + Display(command, repr) + "\nError: " + m
  }

  /**
   * The results of sending `commands` one after another to a server that had
   * already received `before`. A fault never stops the batch: every command
   * is sent and gets exactly one result line.
   */
  function BatchResults(respond: (seq<Json>, Json) -> Option<string>, before: seq<Json>,
                        commands: seq<Json>, repr: Json -> string): (results: seq<string>)
    ensures |results| == |commands|
    decreases |commands|
  {
    if commands == [] then []
    else
      [CommandResult(commands[0], respond(before, commands[0]), repr)]
        + BatchResults(respond, before + [commands[0]], commands[1..], repr)
  }

  /** Result `k` is the line for command `k`, judged after every earlier command of the batch was sent. */
  lemma {:induction false} BatchResultsAt(respond: (seq<Json>, Json) -> Option<string>, before: seq<Json>,
                                          commands: seq<Json>, repr: Json -> string, k: nat)
    requires k < |commands|
    ensures BatchResults(respond, before, commands, repr)[k]
            == CommandResult(commands[k], respond(before + commands[..k], commands[k]), repr)
    decreases k
  {
    if k == 0 {
      assert before + commands[..0] == before;
    } else {
      BatchResultsAt(respond, before + [commands[0]], commands[1..], repr, k - 1);
      assert (before + [commands[0]]) + commands[1..][..k - 1] == before + commands[..k];
    }
  }

  /** A result line reports an error exactly when its command drew a fault, and names the command first. */
  lemma BatchResultReportsFaults(respond: (seq<Json>, Json) -> Option<string>, before: seq<Json>,
                                 commands: seq<Json>, repr: Json -> string, k: nat)
    requires k < |commands|
    ensures var line := BatchResults(respond, before, commands, repr)[k];
            var fault := respond(before + commands[..k], commands[k]);
            var head := "Command: " + Display(commands[k], repr);
            && head <= line
            && (fault.None? <==> line == head)
            && (fault.Some? ==> line[|head|..] == "\nError: " + fault.value)
  {
    BatchResultsAt(respond, before, commands, repr, k);
  }

  /** `execute_pymol_commands(commands)`: sends every command in order and collects one line per command. */
  method ExecutePymolCommands(pymol: PymolProxy, commands: seq<Json>, repr: Json -> string)
    returns (results: seq<string>)
    modifies pymol
    ensures pymol.sent == old(pymol.sent) + commands
    ensures results == BatchResults(pymol.respond, old(pymol.sent), commands, repr)
  {
    ghost var start := pymol.sent;
    results := [];
    for i := 0 to |commands|
      invariant pymol.sent == start + commands[..i]
      invariant |results| == i
      invariant forall k {:trigger results[k]} :: 0 <= k < i ==>
        results[k] == CommandResult(commands[k], pymol.respond(start + commands[..k], commands[k]), repr)
    {
      var fault := pymol.Do(commands[i]);
      assert commands[..i + 1] == commands[..i] + [commands[i]];
      if fault.None? {
        results := results + ["Command: " + Display(commands[i], repr)];
      } else {
        results := results + ["Command: " + Display(commands[i], repr) + "\nError: " + fault.value];
      }
    }
    assert commands[..|commands|] == commands;
    forall k | 0 <= k < |commands|
      ensures results[k] == BatchResults(pymol.respond, start, commands, repr)[k]
    {
      BatchResultsAt(pymol.respond, start, commands, repr, k);
    }
  }

  // ---------------------------------------------------------------------------
  // Paths
  // ---------------------------------------------------------------------------

  /** POSIX `os.path.join(a, b)`: an absolute `b` replaces `a`; otherwise one `/` separates them. */
  function PathJoin(a: string, b: string): (p: string)
    ensures b != [] && b[0] != '/' ==> |b| < |p| + 1 && p[|p| - |b|..] == b
  {
    if b != [] && b[0] == '/' then b
    else if a == [] || a[|a| - 1] == '/' then a + b
    else a + "/" + b
  }

  /** `os.path.join(settings.BASE_DIR, 'claude_app', 'static', 'pdb_files')`. */
  function PdbDir(baseDir: string): string {
    PathJoin(PathJoin(PathJoin(baseDir, "claude_app"), "static"), "pdb_files")
  }

  /** Where `load_pdb` saves the structure `pdbId`. */
  function LoadedPath(baseDir: string, pdbId: string): string {
    PathJoin(PdbDir(baseDir), pdbId + ".pdb")
  }

  /** Where `query_claude_and_run_pymol` saves the modified structure, and the file's name. */
  function ModifiedFileName(pdbId: string): string {
    pdbId + "_modified.pdb"
  }

  /** The `pdb_files` directory path ends with that name, so never with `/`. */
  lemma PdbDirEndsInName(baseDir: string)
    ensures |PdbDir(baseDir)| >= 9 && PdbDir(baseDir)[|PdbDir(baseDir)| - 9..] == "pdb_files"
  {
  }

  /** A structure id without `/` is saved as `<id>.pdb` directly inside the `pdb_files` directory. */
  lemma LoadedPathIsInPdbDir(baseDir: string, pdbId: string)
    requires '/' !in pdbId
    ensures LoadedPath(baseDir, pdbId) == PdbDir(baseDir) + "/" + pdbId + ".pdb"
    ensures BaseName(LoadedPath(baseDir, pdbId)) == pdbId + ".pdb"
  {
    var dir := PdbDir(baseDir);
    var name := pdbId + ".pdb";
    PdbDirEndsInName(baseDir);
    assert dir[|dir| - 1] == dir[|dir| - 9..][8];
    assert '/' !in name by {
      forall i | 0 <= i < |name| ensures name[i] != '/' {
        if i >= |pdbId| { assert name[i] == ".pdb"[i - |pdbId|]; } else { assert name[i] == pdbId[i]; }
      }
    }
    assert name[0] != '/';
    assert LoadedPath(baseDir, pdbId) == dir + "/" + name;
    assert dir + "/" + name == dir + ['/'] + name;
    SplitLastSegment(dir, name, '/');
  }

  // ---------------------------------------------------------------------------
  // The cached conversation
  // ---------------------------------------------------------------------------

  /** One `query_history` entry: the query, and the explanation and commands Claude answered with. */
  datatype QueryEntry = QueryEntry(query: string, explanation: Json, commands: Json)

  /** One `chat_history` entry: a user turn, or an assistant turn with its commands. */
  datatype ChatEntry =
    | UserTurn(content: string)
    | AssistantTurn(explanation: Json, commands: Json)

  /** The chat a query history reads as: each query, then Claude's answer to it. */
  function Transcript(history: seq<QueryEntry>): seq<ChatEntry>
  {
    if history == [] then []
    else
      var last := history[|history| - 1];
      Transcript(history[..|history| - 1]) + [UserTurn(last.query), AssistantTurn(last.explanation, last.commands)]
  }

  /** The chat holds two turns per query, user first, in query order. */
  lemma {:induction false} TranscriptAt(history: seq<QueryEntry>, i: nat)
    requires i < |history|
    ensures |Transcript(history)| == 2 * |history|
    ensures Transcript(history)[2 * i] == UserTurn(history[i].query)
    ensures Transcript(history)[2 * i + 1] == AssistantTurn(history[i].explanation, history[i].commands)
  {
    TranscriptLength(history);
    if i < |history| - 1 {
      TranscriptAt(history[..|history| - 1], i);
    }
  }

  lemma {:induction false} TranscriptLength(history: seq<QueryEntry>)
    ensures |Transcript(history)| == 2 * |history|
  {
    if history != [] {
      TranscriptLength(history[..|history| - 1]);
    }
  }

  /** The four cache keys the views use. */
  datatype Cache = Cache(
    currentPdbId: Option<string>,
    currentPdbPath: Option<string>,
    queryHistory: Option<seq<QueryEntry>>,
    chatHistory: Option<seq<ChatEntry>>)

  /** The chat history (defaulted as the views default it) is the transcript of the query history. */
  predicate Transcribed(c: Cache) {
    c.chatHistory.GetOr([]) == Transcript(c.queryHistory.GetOr([]))
  }

  /** The template context `query_claude_and_run_pymol` renders the prompt from. */
  datatype Context = Context(query: string, pdbId: string, queryHistory: seq<QueryEntry>)

  /** The context for `query`, with the cache defaults `'Unknown'` and `[]`. */
  function ContextOf(c: Cache, query: string): Context
  {
    Context(query, c.currentPdbId.GetOr("Unknown"), c.queryHistory.GetOr([]))
  }

  // ---------------------------------------------------------------------------
  // load_pdb
  // ---------------------------------------------------------------------------

  /** The JSON body `load_pdb` answers with. */
  datatype LoadReply = LoadReply(success: bool, message: string)

  const InvalidRequest: string := "Invalid request"
  const InvalidResponse: string := "Invalid response from Claude"

  datatype LoadStep = LoadStep(cache: Cache, sent: seq<Json>, reply: LoadReply)

  /**
   * `load_pdb` on a cache and a server that has received `sent`; `request` is
   * the validated `pdb_id`, or `None` for a request that is not a valid POST.
   */
  function Load(c: Cache, sent: seq<Json>, request: Option<string>,
                respond: (seq<Json>, Json) -> Option<string>, baseDir: string): LoadStep
  {
    match request
    case None => LoadStep(c, sent, LoadReply(false, InvalidRequest))
    case Some(pdbId) =>
      var fetch := JString("fetch " + pdbId);
      var save := JString("save " + LoadedPath(baseDir, pdbId));
      match respond(sent, fetch)
      case Some(m) => LoadStep(c, sent + [fetch], LoadReply(false, m))
      case None =>
        match respond(sent + [fetch], save)
        case Some(m) => LoadStep(c, sent + [fetch, save], LoadReply(false, m))
        case None =>
          LoadStep(Cache(Some(pdbId), Some(LoadedPath(baseDir, pdbId)), Some([]), Some([])),
                   sent + [fetch, save],
                   LoadReply(true, "PDB " + pdbId + " loaded successfully"))
  }

  /**
   * A load succeeds exactly when both the fetch and the save go through; it
   * then records the structure and empties both histories, and otherwise
   * leaves the cache as it was.
   */
  lemma LoadOutcome(c: Cache, sent: seq<Json>, pdbId: string,
                    respond: (seq<Json>, Json) -> Option<string>, baseDir: string)
    ensures var step := Load(c, sent, Some(pdbId), respond, baseDir);
            var fetch := JString("fetch " + pdbId);
            var save := JString("save " + LoadedPath(baseDir, pdbId));
            && (step.reply.success <==> respond(sent, fetch).None? && respond(sent + [fetch], save).None?)
            && fetch == step.sent[|sent|]
            && sent <= step.sent
            && (step.reply.success ==>
                  && step.cache == Cache(Some(pdbId), Some(LoadedPath(baseDir, pdbId)), Some([]), Some([]))
                  && step.sent == sent + [fetch, save])
            && (!step.reply.success ==> step.cache == c)
  {
  }

  /** An invalid request neither touches the cache nor talks to PyMOL. */
  lemma LoadRefusesInvalid(c: Cache, sent: seq<Json>, respond: (seq<Json>, Json) -> Option<string>, baseDir: string)
    ensures Load(c, sent, None, respond, baseDir) == LoadStep(c, sent, LoadReply(false, InvalidRequest))
  {
  }

  // ---------------------------------------------------------------------------
  // query_claude_and_run_pymol
  // ---------------------------------------------------------------------------

  /** What `query_claude_and_run_pymol` reads out of the decoded answer. */
  datatype Answer = Answer(commandsValue: Json, commands: seq<Json>, explanation: Json)

  /** An exception that escapes the view (Django answers it with a server error). */
  datatype Uncaught =
    | ApiError
    | LookupFailed(cause: LookupError)
    | NotIterable
    | SaveFailed(fault: string)

  /** `response_data['commands']`, `response_data['explanation']`, then iterating the commands. */
  function ReadAnswer(data: Json): Result<Answer, Uncaught>
  {
    match Subscript(data, "commands")
    case Failure(e) => Failure(LookupFailed(e))
    case Success(cv) =>
      match Subscript(data, "explanation")
      case Failure(e) => Failure(LookupFailed(e))
      case Success(ex) =>
        match Iterate(cv)
        case None => Failure(NotIterable)
        case Some(items) => Success(Answer(cv, items, ex))
  }

  /** An answer is readable exactly when it is an object binding both keys and its commands are iterable. */
  lemma ReadAnswerAccepts(data: Json)
    ensures ReadAnswer(data).Success? <==>
              && data.JObject?
              && LastBinding(data.members, "commands").Some?
              && LastBinding(data.members, "explanation").Some?
              && Iterate(LastBinding(data.members, "commands").value).Some?
    ensures ReadAnswer(data).Success? ==>
              var a := ReadAnswer(data).value;
              && a.commandsValue == LastBinding(data.members, "commands").value
              && a.explanation == LastBinding(data.members, "explanation").value
              && Some(a.commands) == Iterate(a.commandsValue)
    ensures data.JObject? && LastBinding(data.members, "commands").None? ==>
              ReadAnswer(data) == Failure(LookupFailed(KeyMissing("commands")))
  {
  }

  /** The JSON body of `query_claude_and_run_pymol`, or the exception it raises. */
  datatype ExchangeReply =
    | Exchanged(explanation: Json, pymolResults: seq<string>, currentPdbId: string,
                pdbPath: string, chatHistory: seq<ChatEntry>)
    | BadRequest(error: string)
    | Raised(cause: Uncaught)

  /** The foreign services a query goes through. */
  datatype Services = Services(
    render: Context -> string,
    api: Client.ApiRequest -> Option<string>,
    decode: string -> Option<Json>,
    repr: Json -> string,
    baseDir: string)

  datatype ExchangeStep = ExchangeStep(cache: Cache, sent: seq<Json>, log: string, reply: ExchangeReply)

  /**
   * `query_claude_and_run_pymol` on a cache, a server that has received
   * `sent` and a log file holding `log`; `request` is the validated query, or
   * `None` for a request that is not a valid POST.
   */
  function Exchange(c: Cache, sent: seq<Json>, log: string, request: Option<string>,
                    respond: (seq<Json>, Json) -> Option<string>, env: Services): ExchangeStep
  {
    match request
    case None => ExchangeStep(c, sent, log, BadRequest(InvalidRequest))
    case Some(query) =>
      var ctx := ContextOf(c, query);
      var prompt := env.render(ctx);
      match env.api(Client.RequestFor(prompt, Client.DefaultMaxTokens))
      case None => ExchangeStep(c, sent, log, Raised(ApiError))
      case Some(response) =>
        var log' := log + Client.LogRecord(prompt, response);
        match env.decode(response)
        case None => ExchangeStep(c, sent, log', BadRequest(InvalidResponse))
        case Some(data) =>
          match ReadAnswer(data)
          case Failure(e) => ExchangeStep(c, sent, log', Raised(e))
          case Success(a) =>
            var run := RunAnswer(c, sent, query, a, respond, env);
            ExchangeStep(run.cache, run.sent, log', run.reply)
  }

  datatype RunStep = RunStep(cache: Cache, sent: seq<Json>, reply: ExchangeReply)

  /** The part of `query_claude_and_run_pymol` after a readable answer: run, save, record. */
  function RunAnswer(c: Cache, sent: seq<Json>, query: string, a: Answer,
                     respond: (seq<Json>, Json) -> Option<string>, env: Services): RunStep
  {
    var pdbId := c.currentPdbId.GetOr("Unknown");
    var results := BatchResults(respond, sent, a.commands, env.repr);
    var fileName := ModifiedFileName(pdbId);
    var save := JString("save " + PathJoin(PdbDir(env.baseDir), fileName));
    var sent' := sent + a.commands + [save];
    match respond(sent + a.commands, save)
    case Some(m) => RunStep(c, sent', Raised(SaveFailed(m)))
    case None =>
      var history := c.queryHistory.GetOr([]) + [QueryEntry(query, a.explanation, a.commandsValue)];
      var chat := c.chatHistory.GetOr([]) + [UserTurn(query), AssistantTurn(a.explanation, a.commandsValue)];
      RunStep(c.(queryHistory := Some(history), chatHistory := Some(chat)), sent',
              Exchanged(a.explanation, results, pdbId, "/static/pdb_files/" + fileName, chat))
  }

  /**
   * Only a completed exchange changes the cache, and only after Claude's text
   * decoded to a readable answer; it then appends exactly one query entry,
   * holding the query with the explanation and commands read from that answer,
   * and the matching two chat turns, and keeps the structure. The reply
   * carries the same explanation and the new chat history.
   */
  lemma ExchangeUpdatesHistory(c: Cache, sent: seq<Json>, log: string, query: string,
                               respond: (seq<Json>, Json) -> Option<string>, env: Services)
    ensures var step := Exchange(c, sent, log, Some(query), respond, env);
            && (!step.reply.Exchanged? ==> step.cache == c)
            && (step.reply.Exchanged? ==>
                  var prompt := env.render(Context(query, c.currentPdbId.GetOr("Unknown"), c.queryHistory.GetOr([])));
                  var response := env.api(Client.RequestFor(prompt, Client.DefaultMaxTokens));
                  && response.Some?
                  && env.decode(response.value).Some?
                  && ReadAnswer(env.decode(response.value).value).Success?
                  && var a := ReadAnswer(env.decode(response.value).value).value;
                     var h := c.queryHistory.GetOr([]);
                     && step.cache.currentPdbId == c.currentPdbId
                     && step.cache.currentPdbPath == c.currentPdbPath
                     && step.cache.queryHistory == Some(h + [QueryEntry(query, a.explanation, a.commandsValue)])
                     && step.cache.chatHistory == Some(c.chatHistory.GetOr([])
                          + [UserTurn(query), AssistantTurn(a.explanation, a.commandsValue)])
                     && step.reply.explanation == a.explanation
                     && step.reply.chatHistory == step.cache.chatHistory.value
                     && step.reply.currentPdbId == c.currentPdbId.GetOr("Unknown"))
  {
  }

  /**
   * The prompt is rendered from the query, the current structure (or
   * `'Unknown'`) and the history before this query; once Claude answers, the
   * exchange is logged whatever happens next, and PyMOL receives the commands
   * in order followed by one save.
   */
  lemma ExchangeTraffic(c: Cache, sent: seq<Json>, log: string, query: string,
                        respond: (seq<Json>, Json) -> Option<string>, env: Services)
    ensures var step := Exchange(c, sent, log, Some(query), respond, env);
            var prompt := env.render(Context(query, c.currentPdbId.GetOr("Unknown"), c.queryHistory.GetOr([])));
            var response := env.api(Client.RequestFor(prompt, Client.DefaultMaxTokens));
            && (response.None? <==> step.reply == Raised(ApiError))
            && (response.None? ==> step.log == log)
            && (response.Some? ==> step.log == log + Client.LogRecord(prompt, response.value))
            && sent <= step.sent
            && (step.reply.Exchanged? ==>
                  var data := env.decode(response.value).value;
                  var commands := ReadAnswer(data).value.commands;
                  && step.sent == sent + commands
                       + [JString("save " + PathJoin(PdbDir(env.baseDir), ModifiedFileName(step.reply.currentPdbId)))]
                  && step.reply.pymolResults == BatchResults(respond, sent, commands, env.repr)
                  && step.reply.pdbPath == "/static/pdb_files/" + ModifiedFileName(step.reply.currentPdbId))
  {
  }

  /** Text that does not decode is turned away without running or recording anything. */
  lemma ExchangeRefusesUndecodable(c: Cache, sent: seq<Json>, log: string, query: string,
                                   respond: (seq<Json>, Json) -> Option<string>, env: Services)
    requires var prompt := env.render(ContextOf(c, query));
             var response := env.api(Client.RequestFor(prompt, Client.DefaultMaxTokens));
             response.Some? && env.decode(response.value).None?
    ensures var step := Exchange(c, sent, log, Some(query), respond, env);
            step.reply == BadRequest(InvalidResponse) && step.cache == c && step.sent == sent
  {
  }

  /** Loading a structure leaves a consistent (empty) conversation, or the cache as it was. */
  lemma LoadKeepsTranscript(c: Cache, sent: seq<Json>, request: Option<string>,
                            respond: (seq<Json>, Json) -> Option<string>, baseDir: string)
    requires Transcribed(c)
    ensures Transcribed(Load(c, sent, request, respond, baseDir).cache)
  {
  }

  /** Recording an answer appends to the transcript exactly the turns of the new query entry. */
  lemma {:induction false} RunAnswerKeepsTranscript(c: Cache, sent: seq<Json>, query: string, a: Answer,
                                                    respond: (seq<Json>, Json) -> Option<string>, env: Services)
    requires Transcribed(c)
    ensures Transcribed(RunAnswer(c, sent, query, a, respond, env).cache)
  {
    var h := c.queryHistory.GetOr([]);
    var h' := h + [QueryEntry(query, a.explanation, a.commandsValue)];
    assert h'[..|h'| - 1] == h;
  }

  /** Both views keep the chat history the transcript of the query history. */
  lemma StepsKeepTranscript(c: Cache, sent: seq<Json>, log: string, request: Option<string>,
                            respond: (seq<Json>, Json) -> Option<string>, env: Services)
    requires Transcribed(c)
    ensures Transcribed(Load(c, sent, request, respond, env.baseDir).cache)
    ensures Transcribed(Exchange(c, sent, log, request, respond, env).cache)
  {
    LoadKeepsTranscript(c, sent, request, respond, env.baseDir);
    if request.Some? {
      var ctx := ContextOf(c, request.value);
      var response := env.api(Client.RequestFor(env.render(ctx), Client.DefaultMaxTokens));
      if response.Some? && env.decode(response.value).Some? && ReadAnswer(env.decode(response.value).value).Success? {
        RunAnswerKeepsTranscript(c, sent, request.value, ReadAnswer(env.decode(response.value).value).value, respond, env);
      }
    }
  }

  /** The server state a chain of requests leaves behind. */
  datatype Request = LoadRequest(pdbId: Option<string>) | QueryRequest(query: Option<string>)

  datatype World = World(cache: Cache, sent: seq<Json>, log: string)

  function Serve(w: World, r: Request, respond: (seq<Json>, Json) -> Option<string>, env: Services): World
  {
    match r
    case LoadRequest(id) =>
      var step := Load(w.cache, w.sent, id, respond, env.baseDir);
      World(step.cache, step.sent, w.log)
    case QueryRequest(q) =>
      var step := Exchange(w.cache, w.sent, w.log, q, respond, env);
      World(step.cache, step.sent, step.log)
  }

  function ServeAll(w: World, rs: seq<Request>, respond: (seq<Json>, Json) -> Option<string>, env: Services): World
    decreases |rs|
  {
    if rs == [] then w else ServeAll(Serve(w, rs[0], respond, env), rs[1..], respond, env)
  }

  /**
   * Any sequence of requests served from a consistent cache (an empty one, for
   * instance) leaves a chat history with two turns per recorded query, in
   * query order.
   */
  lemma {:induction false} ServeAllKeepsTranscript(w: World, rs: seq<Request>,
                                                   respond: (seq<Json>, Json) -> Option<string>, env: Services)
    requires Transcribed(w.cache)
    ensures Transcribed(ServeAll(w, rs, respond, env).cache)
    decreases |rs|
  {
    if rs != [] {
      var r := rs[0];
      match r {
        case LoadRequest(id) => StepsKeepTranscript(w.cache, w.sent, w.log, id, respond, env);
        case QueryRequest(q) => StepsKeepTranscript(w.cache, w.sent, w.log, q, respond, env);
      }
      ServeAllKeepsTranscript(Serve(w, r, respond, env), rs[1..], respond, env);
    }
  }

  /** The Django cache, one field per key the views use. */
  class ConversationState {
    var currentPdbId: Option<string>
    var currentPdbPath: Option<string>
    var queryHistory: Option<seq<QueryEntry>>
    var chatHistory: Option<seq<ChatEntry>>

    function Snapshot(): Cache
      reads this
    {
      Cache(currentPdbId, currentPdbPath, queryHistory, chatHistory)
    }

    /** An empty cache: no key is set. */
    constructor ()
      ensures Snapshot() == Cache(None, None, None, None)
      ensures Transcribed(Snapshot())
    {
      currentPdbId := None;
      currentPdbPath := None;
      queryHistory := None;
      chatHistory := None;
    }

    /** `load_pdb(request)`. */
    method LoadPdb(pymol: PymolProxy, request: Option<string>, baseDir: string) returns (reply: LoadReply)
      modifies this, pymol
      ensures LoadStep(Snapshot(), pymol.sent, reply)
              == Load(old(Snapshot()), old(pymol.sent), request, pymol.respond, baseDir)
    {
      ghost var before := pymol.sent;
      ghost var c := Snapshot();
      if request.None? {
        return LoadReply(false, InvalidRequest);
      }
      var pdbId := request.value;
      var fetch := JString("fetch " + pdbId);
      var fault := pymol.Do(fetch);
      if fault.Some? {
        reply := LoadReply(false, fault.value);
        assert Load(c, before, request, pymol.respond, baseDir) == LoadStep(c, before + [fetch], reply);
        return;
      }
      var pdbPath := LoadedPath(baseDir, pdbId);
      var save := JString("save " + pdbPath);
      fault := pymol.Do(save);
      assert pymol.sent == before + [fetch, save];
      if fault.Some? {
        reply := LoadReply(false, fault.value);
        assert Load(c, before, request, pymol.respond, baseDir) == LoadStep(c, before + [fetch, save], reply);
        return;
      }
      currentPdbId := Some(pdbId);
      currentPdbPath := Some(pdbPath);
      queryHistory := Some([]);
      chatHistory := Some([]);
      reply := LoadReply(true, "PDB " + pdbId + " loaded successfully");
      assert Load(c, before, request, pymol.respond, baseDir)
             == LoadStep(Cache(Some(pdbId), Some(pdbPath), Some([]), Some([])), before + [fetch, save], reply);
    }

    /** `query_claude_and_run_pymol(request)`, logging through `logs` as `ClaudeClient.query` does. */
    method QueryClaudeAndRunPymol(pymol: PymolProxy, logs: Client.LogFile, request: Option<string>, env: Services)
      returns (reply: ExchangeReply)
      modifies this, pymol, logs
      ensures ExchangeStep(Snapshot(), pymol.sent, logs.contents, reply)
              == Exchange(old(Snapshot()), old(pymol.sent), old(logs.contents), request, pymol.respond, env)
    {
      if request.None? {
        return BadRequest(InvalidRequest);
      }
      var query := request.value;
      var currentPdbId := this.currentPdbId.GetOr("Unknown");
      var queryHistory := this.queryHistory.GetOr([]);
      var context := Context(query, currentPdbId, queryHistory);

      var prompt := env.render(context);
      var claudeResponse := env.api(Client.RequestFor(prompt, Client.DefaultMaxTokens));
      if claudeResponse.None? {
        return Raised(ApiError);
      }
      logs.Append(prompt, claudeResponse.value);

      var responseData := env.decode(claudeResponse.value);
      if responseData.None? {
        return BadRequest(InvalidResponse);
      }
      var answer := ReadAnswer(responseData.value);
      if answer.Failure? {
        return Raised(answer.error);
      }
      reply := RunAnswerAndRecord(pymol, query, answer.value, env);
    }

    /** Runs a readable answer's commands, saves the structure and records the exchange. */
    method RunAnswerAndRecord(pymol: PymolProxy, query: string, answer: Answer, env: Services)
      returns (reply: ExchangeReply)
      modifies this, pymol
      ensures RunStep(Snapshot(), pymol.sent, reply)
              == RunAnswer(old(Snapshot()), old(pymol.sent), query, answer, pymol.respond, env)
    {
      ghost var c := Snapshot();
      ghost var before := pymol.sent;
      var currentPdbId := this.currentPdbId.GetOr("Unknown");
      var queryHistory := this.queryHistory.GetOr([]);
      var chatHistory := this.chatHistory.GetOr([]);
      var pymolResults := ExecutePymolCommands(pymol, answer.commands, env.repr);

      var pdbFilename := ModifiedFileName(currentPdbId);
      var pdbPath := PathJoin(PdbDir(env.baseDir), pdbFilename);
      var save := JString("save " + pdbPath);
      var fault := pymol.Do(save);
      assert pymol.sent == before + answer.commands + [save];
      assert fault == pymol.respond(before + answer.commands, save);
      if fault.Some? {
        reply := Raised(SaveFailed(fault.value));
        assert RunAnswer(c, before, query, answer, pymol.respond, env) == RunStep(c, pymol.sent, reply);
        return;
      }

      queryHistory := queryHistory + [QueryEntry(query, answer.explanation, answer.commandsValue)];
      this.queryHistory := Some(queryHistory);
      chatHistory := chatHistory + [UserTurn(query)];
      chatHistory := chatHistory + [AssistantTurn(answer.explanation, answer.commandsValue)];
      this.chatHistory := Some(chatHistory);

      reply := Exchanged(answer.explanation, pymolResults, currentPdbId,
                         "/static/pdb_files/" + pdbFilename, chatHistory);
      assert chatHistory == c.chatHistory.GetOr([]) + [UserTurn(query), AssistantTurn(answer.explanation, answer.commandsValue)];
      assert Snapshot() == c.(queryHistory := Some(queryHistory), chatHistory := Some(chatHistory));
    }
  }
}
