/** The assistant agent of services/geminiService.ts: the four tool
    declarations, the date string given to the model, and the
    `sendMessage` loop that runs the model's function calls against the
    ledger store and the window's event log.

    The language model is an oracle: a finite script of replies, consumed
    one per request; once it is exhausted the model answers with no text
    and no calls. A reply may be an error thrown by the chat session. Each
    function call carries what the environment supplies while the store
    runs it (`CallEnv`). */
module GeminiService {
  import opened LedgerTypes
  import opened Text
  import opened DbService

  // ---------------------------------------------------------------------
  // Tool declarations
  // ---------------------------------------------------------------------

  datatype ParamType = StringType | NumberType

  datatype Property = Property(name: string, paramType: ParamType, description: string)

  /** A function the model may call: its parameters (all of one object)
      and the names among them it must always supply. */
  datatype FunctionDeclaration = FunctionDeclaration(
    name: string,
    description: string,
    properties: seq<Property>,
    required: seq<string>)

  const AddTransactionTool: FunctionDeclaration := FunctionDeclaration(
    "addTransaction",
    "Add a new financial transaction (income or expense) to the ledger.",
    [Property("date", StringType, "Date in YYYY-MM-DD format."),
     Property("type", StringType, "Type of transaction: 'income' or 'expense'."),
     Property("category", StringType, "Category of the transaction (e.g., Food, Salary, Utilities)."),
     Property("amount", NumberType, "Amount of money."),
     Property("description", StringType, "Short description of the transaction.")],
    ["date", "type", "category", "amount"])

  const QueryTransactionsTool: FunctionDeclaration := FunctionDeclaration(
    "queryTransactions",
    "Search/Query transactions from the ledger based on filters.",
    [Property("dateStart", StringType, "Start date (YYYY-MM-DD)."),
     Property("dateEnd", StringType, "End date (YYYY-MM-DD)."),
     Property("type", StringType, "Filter by 'income' or 'expense'."),
     Property("category", StringType, "Filter by category name.")],
    [])

  const DeleteTransactionTool: FunctionDeclaration := FunctionDeclaration(
    "deleteTransaction",
    "Delete a transaction by its ID.",
    [Property("id", StringType, "The ID of the transaction to delete.")],
    ["id"])

  const PrintReportTool: FunctionDeclaration := FunctionDeclaration(
    "printReport",
    "Print/Export financial report as PDF. Use this when user asks to print, export, or download a report.",
    [Property("reportType", StringType, "Type of report: 'monthly' or 'custom'."),
     Property("dateStart", StringType, "Start date (YYYY-MM-DD) for the report period."),
     Property("dateEnd", StringType, "End date (YYYY-MM-DD) for the report period.")],
    ["reportType", "dateStart", "dateEnd"])

  const Tools: seq<FunctionDeclaration> :=
    [AddTransactionTool, QueryTransactionsTool, DeleteTransactionTool, PrintReportTool]

  const ToolNames: seq<string> :=
    ["addTransaction", "queryTransactions", "deleteTransaction", "printReport"]

  predicate Declares(d: FunctionDeclaration, name: string) {
    exists i | 0 <= i < |d.properties| :: d.properties[i].name == name
  }

  /** Every required parameter is declared, and no parameter is declared
      twice. */
  predicate WellFormed(d: FunctionDeclaration) {
    (forall r :: r in d.required ==> Declares(d, r)) &&
    (forall i, j :: 0 <= i < j < |d.properties| ==> d.properties[i].name != d.properties[j].name)
  }

  /** The declarations are well formed and named by the four distinct tool
      names the dispatcher tests, in the same order. */
  lemma ToolsAreWellFormed()
    ensures forall k :: 0 <= k < |Tools| ==> WellFormed(Tools[k]) && Tools[k].name == ToolNames[k]
    ensures forall i, j :: 0 <= i < j < |ToolNames| ==> ToolNames[i] != ToolNames[j]
  {
    AddToolWellFormed();
    QueryToolWellFormed();
    DeleteToolWellFormed();
    PrintToolWellFormed();
    ToolNamesDistinct();
  }

  lemma AddToolWellFormed()
    ensures WellFormed(AddTransactionTool) && AddTransactionTool.name == "addTransaction"
  {
    assert AddTransactionTool.properties[0].name == "date";
    assert AddTransactionTool.properties[1].name == "type";
    assert AddTransactionTool.properties[2].name == "category";
    assert AddTransactionTool.properties[3].name == "amount";
  }

  lemma QueryToolWellFormed()
    ensures WellFormed(QueryTransactionsTool) && QueryTransactionsTool.name == "queryTransactions"
  {
  }

  lemma DeleteToolWellFormed()
    ensures WellFormed(DeleteTransactionTool) && DeleteTransactionTool.name == "deleteTransaction"
  {
    assert DeleteTransactionTool.properties[0].name == "id";
  }

  lemma PrintToolWellFormed()
    ensures WellFormed(PrintReportTool) && PrintReportTool.name == "printReport"
  {
    assert PrintReportTool.properties[0].name == "reportType";
    assert PrintReportTool.properties[1].name == "dateStart";
    assert PrintReportTool.properties[2].name == "dateEnd";
  }

  lemma ToolNamesDistinct()
    ensures forall i, j :: 0 <= i < j < |ToolNames| ==> ToolNames[i] != ToolNames[j]
  {
  }

  // ---------------------------------------------------------------------
  // Today's date for the system instruction
  // ---------------------------------------------------------------------

  /** `getTodayString()` for a clock reading of year `year`, zero-based
      month `monthIndex` and day of month `day`: `yyyy-mm-dd`, with the
      one-based month and the day padded to two digits. */
  function TodayString(year: nat, monthIndex: nat, day: nat): (s: string)
    requires monthIndex < 12 && 1 <= day <= 31
    ensures |s| == |NatToString(year)| + 6
    ensures s[|s| - 6] == '-' && s[|s| - 3] == '-'
    ensures AllDigits(s[..|s| - 6]) && ParseNat(s[..|s| - 6]) == year
    ensures AllDigits(s[|s| - 5..|s| - 3]) && ParseNat(s[|s| - 5..|s| - 3]) == monthIndex + 1
    ensures AllDigits(s[|s| - 2..]) && ParseNat(s[|s| - 2..]) == day
  {
    var yyyy := NatToString(year);
    var mm := Pad2(monthIndex + 1);
    var dd := Pad2(day);
    ParseNatToString(year);
    DateLayout(yyyy, mm, dd);
    yyyy + "-" + mm + "-" + dd
  }

  /** Where the parts of `yyyy-mm-dd` sit in the joined string. */
  lemma DateLayout(yyyy: string, mm: string, dd: string)
    requires |mm| == 2 && |dd| == 2
    ensures var s := yyyy + "-" + mm + "-" + dd;
            |s| == |yyyy| + 6 && s[|s| - 6] == '-' && s[|s| - 3] == '-' &&
            s[..|s| - 6] == yyyy && s[|s| - 5..|s| - 3] == mm && s[|s| - 2..] == dd
  {
    var s := yyyy + "-" + mm + "-" + dd;
    assert s[..|s| - 6] == yyyy;
    assert s[|s| - 5..|s| - 3] == mm;
    assert s[|s| - 2..] == dd;
  }

  /** Two clock readings give the same date string only when they name the
      same calendar day. */
  lemma TodayStringInjective(y1: nat, m1: nat, d1: nat, y2: nat, m2: nat, d2: nat)
    requires m1 < 12 && 1 <= d1 <= 31 && m2 < 12 && 1 <= d2 <= 31
    requires TodayString(y1, m1, d1) == TodayString(y2, m2, d2)
    ensures y1 == y2 && m1 == m2 && d1 == d2
  {
    var s := TodayString(y1, m1, d1);
    assert |NatToString(y1)| == |NatToString(y2)|;
  }

  // ---------------------------------------------------------------------
  // Function calls, responses and replies
  // ---------------------------------------------------------------------

  /** A name that is none of the four tools. */
  type OtherName = n: string | n !in ToolNames witness ""

  /** A function call as the model sends it, decoded by its name. The
      arguments of a known tool carry the parameters its declaration
      requires; optional ones are `Option`s. */
  datatype ToolCall =
    | AddTransaction(date: string, txType: TxType, category: string, amount: real,
                     description: Option<string>)
    | QueryTransactions(filters: Query)
    | DeleteTransaction(id: string)
    | PrintReport(reportType: string, dateStart: string, dateEnd: string)
    | OtherTool(otherName: OtherName)

  function CallName(c: ToolCall): (n: string)
    ensures c.OtherTool? <==> n !in ToolNames
  {
    match c
    case AddTransaction(_, _, _, _, _) => "addTransaction"
    case QueryTransactions(_) => "queryTransactions"
    case DeleteTransaction(_) => "deleteTransaction"
    case PrintReport(_, _, _) => "printReport"
    case OtherTool(n) => n
  }

  /** What the environment supplies while the store runs one call: the
      store's `Env`, the id and timestamp a new record would get, and the
      error a local-storage write would throw, if any. */
  datatype CallEnv = CallEnv(env: Env, newId: string, now: int, fault: Option<string>)

  datatype FunctionCall = FunctionCall(call: ToolCall, ctx: CallEnv)

  /** The `output` of a function response. */
  datatype Output =
    | Added(tx: Transaction)
    | Queried(txs: seq<Transaction>)
    | Status(success: bool, message: string)
    | ErrorOut(error: string)

  datatype FunctionResponse = FunctionResponse(name: string, output: Output)

  /** One answer of the chat session: text and function calls, or an error
      thrown by the session. */
  datatype Reply = Reply(text: string, calls: seq<FunctionCall>) | ApiError(message: string)

  /** What the agent sends to the chat session. */
  datatype Message = UserText(text: string) | ToolResponse(response: FunctionResponse)

  /** The configuration of a chat session. */
  datatype ChatSession = ChatSession(model: string, systemInstruction: string,
                                     tools: seq<FunctionDeclaration>)

  /** The store's state together with the window's event log. */
  datatype World = World(store: StoreState, log: seq<Event>)

  const ModelName: string := "gemini-2.5-flash"
  const UnknownTool: string := "Unknown tool"
  const PrintingMessage: string := "正在開啟列印對話框..."
  const NoTextFallback: string := "我已處理完成，但沒有文字回應。"

  /** `args.description || ""` */
  function DescriptionOrEmpty(d: Option<string>): string {
    if d.Some? then d.value else ""
  }

  /** The fields `addTransaction` passes to the store. */
  function AddFields(c: ToolCall): NewFields
    requires c.AddTransaction?
  {
    NewFields(c.date, c.txType, c.category, c.amount, DescriptionOrEmpty(c.description))
  }

  // ---------------------------------------------------------------------
  // The dispatcher, as a function of the world
  // ---------------------------------------------------------------------

  /** One iteration of the inner `for`: run one call, catching a store
      error, and build its response. */
  function DispatchSpec(w: World, fc: FunctionCall): (r: (World, FunctionResponse))
    ensures r.1.name == CallName(fc.call)
    ensures w.log <= r.0.log
  {
    var ctx := fc.ctx;
    match fc.call
    case AddTransaction(date, _, _, _, _) =>
      var step := AddSpec(w.store, ctx.env, AddFields(fc.call), ctx.newId, ctx.now, ctx.fault);
      var log := w.log + step.emitted;
      (match step.result
       case Ok(tx) =>
         (World(step.state, log + [AiTransactionAdded(date, tx.id)]),
          FunctionResponse("addTransaction", Added(tx)))
       case Err(e) => (World(step.state, log), FunctionResponse("addTransaction", ErrorOut(e))))
    case QueryTransactions(q) =>
      var step := QuerySpec(w.store, ctx.env, q);
      (World(step.state, w.log + step.emitted), FunctionResponse("queryTransactions", Queried(step.result)))
    case DeleteTransaction(id) =>
      var step := DeleteSpec(w.store, ctx.env, id, ctx.fault);
      var log := w.log + step.emitted;
      (match step.result
       case Ok(success) =>
         (World(step.state, if success then log + [AiTransactionDeleted(id)] else log),
          FunctionResponse("deleteTransaction", Status(success, if success then "Deleted" else "ID not found")))
       case Err(e) => (World(step.state, log), FunctionResponse("deleteTransaction", ErrorOut(e))))
    case PrintReport(reportType, dateStart, dateEnd) =>
      (World(w.store, w.log + [AiPrintReport(reportType, dateStart, dateEnd)]),
       FunctionResponse("printReport", Status(true, PrintingMessage)))
    case OtherTool(name) =>
      (w, FunctionResponse(name, ErrorOut(UnknownTool)))
  }

  /** The inner `for`: the calls of one reply, in order. */
  function RunCallsSpec(w: World, calls: seq<FunctionCall>): (r: (World, seq<FunctionResponse>))
    ensures |r.1| == |calls|
    ensures forall i :: 0 <= i < |calls| ==> r.1[i].name == CallName(calls[i].call)
    ensures w.log <= r.0.log
    decreases |calls|
  {
    if calls == [] then (w, [])
    else
      var prior := RunCallsSpec(w, calls[..|calls| - 1]);
      var last := DispatchSpec(prior.0, calls[|calls| - 1]);
      (last.0, prior.1 + [last.1])
  }

  /** The next reply of the script; an exhausted script answers with
      neither text nor calls. */
  function NextReply(script: seq<Reply>): (r: (Reply, seq<Reply>))
    ensures |r.1| == if script == [] then 0 else |script| - 1
    ensures script != [] ==> r.1 == script[1..]
  {
    if script == [] then (Reply("", []), []) else (script[0], script[1..])
  }

  predicate HasCalls(r: Reply) {
    r.Reply? && |r.calls| > 0
  }

  /** The state of a conversation: the world, the replies still to come
      and everything sent to the model so far. */
  datatype Conversation = Conversation(world: World, script: seq<Reply>, sent: seq<Message>)

  /** The `while` loop of `sendMessage`, from the latest reply `reply` on:
      run the calls, send the first response back, take the next reply;
      once a reply has no calls, answer its text or the fallback. An error
      of the chat session ends the loop with that error. */
  function Converse(c: Conversation, reply: Reply): (r: (Conversation, Result<string, string>))
    decreases |c.script| + (if HasCalls(reply) then 1 else 0)
  {
    if reply.ApiError? then (c, Err(reply.message))
    else if |reply.calls| == 0 then (c, Ok(if reply.text == "" then NoTextFallback else reply.text))
    else
      var ran := RunCallsSpec(c.world, reply.calls);
      var next := NextReply(c.script);
      Converse(Conversation(ran.0, next.1, c.sent + [ToolResponse(ran.1[0])]), next.0)
  }

  /** `sendMessage(message)`: send the user's text, then loop. */
  function SendSpec(c: Conversation, message: string): (r: (Conversation, Result<string, string>)) {
    var first := NextReply(c.script);
    Converse(Conversation(c.world, first.1, c.sent + [UserText(message)]), first.0)
  }

  // ---------------------------------------------------------------------
  // Properties of the dispatcher and the loop
  // ---------------------------------------------------------------------

  /** A call of an unknown tool answers `Unknown tool` and touches neither
      the store nor the event log. */
  lemma UnknownToolUntouched(w: World, fc: FunctionCall)
    requires CallName(fc.call) !in ToolNames
    ensures DispatchSpec(w, fc) == (w, FunctionResponse(CallName(fc.call), ErrorOut(UnknownTool)))
  {
  }

  /** `addTransaction` adds the record built from the arguments (with the
      description defaulting to empty) after the loaded list, and then
      announces its date and new id; a refused write answers the error and
      announces nothing. */
  lemma AddTransactionMeaning(w: World, fc: FunctionCall)
    requires fc.call.AddTransaction?
    ensures var l := LoadSpec(w.store, fc.ctx.env);
            var tx := Create(AddFields(fc.call), fc.ctx.newId, fc.ctx.now);
            var r := DispatchSpec(w, fc);
            (fc.ctx.fault.None? ==>
               r.0.store.stored == Some(l.result + [tx]) &&
               r.0.log == w.log + l.emitted + [DbUpdate, AiTransactionAdded(fc.call.date, fc.ctx.newId)] &&
               r.1.output == Added(tx) &&
               tx.description == (if fc.call.description.Some? then fc.call.description.value else "")) &&
            (fc.ctx.fault.Some? ==>
               r.0 == World(l.state, w.log + l.emitted) && r.1.output == ErrorOut(fc.ctx.fault.value))
  {
    var l := LoadSpec(w.store, fc.ctx.env);
    var tx := Create(AddFields(fc.call), fc.ctx.newId, fc.ctx.now);
    if fc.ctx.fault.None? {
      assert w.log + l.emitted + [DbUpdate] + [AiTransactionAdded(fc.call.date, fc.ctx.newId)] ==
             w.log + l.emitted + [DbUpdate, AiTransactionAdded(fc.call.date, fc.ctx.newId)];
    }
  }

  /** `deleteTransaction` succeeds exactly when the loaded list holds the
      id and the write goes through; only then is `ai-transaction-deleted`
      announced. A missing id answers `ID not found`. */
  lemma DeleteTransactionMeaning(w: World, fc: FunctionCall)
    requires fc.call.DeleteTransaction?
    ensures var l := LoadSpec(w.store, fc.ctx.env);
            var present := exists t :: t in l.result && t.id == fc.call.id;
            var r := DispatchSpec(w, fc);
            (r.1.output == Status(true, "Deleted") <==> present && fc.ctx.fault.None?) &&
            (r.1.output == Status(false, "ID not found") <==> !present) &&
            (r.1.output.ErrorOut? <==> present && fc.ctx.fault.Some?) &&
            (AiTransactionDeleted(fc.call.id) in r.0.log[|w.log|..] <==> present && fc.ctx.fault.None?)
  {
    DeletePresence(w.store, fc.ctx.env, fc.call.id, fc.ctx.fault);
    var step := DeleteSpec(w.store, fc.ctx.env, fc.call.id, fc.ctx.fault);
    var r := DispatchSpec(w, fc);
    assert r.0.log[|w.log|..] == step.emitted + (if step.result == Ok(true) then [AiTransactionDeleted(fc.call.id)] else []);
  }

  /** The store's delete, as the tool sees it: `false` for a missing id,
      the write's error or `true` otherwise; it announces nothing but
      `db-update`. */
  lemma DeletePresence(s: StoreState, env: Env, id: string, fault: Option<string>)
    ensures var l := LoadSpec(s, env);
            var present := exists t :: t in l.result && t.id == id;
            var step := DeleteSpec(s, env, id, fault);
            step.result == (if !present then Ok(false) else if fault.Some? then Err(fault.value) else Ok(true)) &&
            (forall e :: e in step.emitted ==> e == DbUpdate)
  {
    DeleteSpecMeaning(s, env, id);
    var l := LoadSpec(s, env);
    assert forall e :: e in l.emitted ==> e == DbUpdate;
  }

  /** `printReport` never touches the store; it announces the requested
      report and answers success. */
  lemma PrintReportMeaning(w: World, fc: FunctionCall)
    requires fc.call.PrintReport?
    ensures var r := DispatchSpec(w, fc);
            r.0.store == w.store &&
            r.0.log == w.log + [AiPrintReport(fc.call.reportType, fc.call.dateStart, fc.call.dateEnd)] &&
            r.1.output == Status(true, PrintingMessage)
  {
  }

  /** `queryTransactions` answers the store's query result: the loaded
      records that match the filters, in their stored order. */
  lemma QueryTransactionsMeaning(w: World, fc: FunctionCall)
    requires fc.call.QueryTransactions?
    ensures var l := LoadSpec(w.store, fc.ctx.env);
            var r := DispatchSpec(w, fc);
            r.1.output.Queried? &&
            (forall t :: t in r.1.output.txs <==> t in l.result && Matches(fc.call.filters, t)) &&
            r.0 == World(l.state, w.log + l.emitted)
  {
    QueryMeaning(w.store, fc.ctx.env, fc.call.filters);
  }

  /** A turn's calls all run, in order, whatever they answer: the world
      after the calls is the world after the first `k` calls, run on by the
      rest. */
  lemma RunCallsSplit(w: World, calls: seq<FunctionCall>, k: nat)
    requires k <= |calls|
    ensures var first := RunCallsSpec(w, calls[..k]);
            var rest := RunCallsSpec(first.0, calls[k..]);
            RunCallsSpec(w, calls) == (rest.0, first.1 + rest.1)
  {
    Seqs.ThreadSplit(DispatchSpec, w, calls, k);
    RunCallsIsThread(w, calls);
    RunCallsIsThread(w, calls[..k]);
    RunCallsIsThread(RunCallsSpec(w, calls[..k]).0, calls[k..]);
  }

  /** The dispatch loop threads the world through `DispatchSpec`. */
  lemma {:induction false} RunCallsIsThread(w: World, calls: seq<FunctionCall>)
    ensures RunCallsSpec(w, calls) == Seqs.Thread(DispatchSpec, w, calls)
    decreases |calls|
  {
    if calls != [] {
      RunCallsIsThread(w, calls[..|calls| - 1]);
    }
  }

  /** The first response of a turn is the first call's, run on the world
      as it was before the turn. */
  lemma FirstResponse(w: World, calls: seq<FunctionCall>)
    requires |calls| > 0
    ensures RunCallsSpec(w, calls).1[0] == DispatchSpec(w, calls[0]).1
  {
    RunCallsSplit(w, calls, 1);
    assert calls[..1][..0] == [];
  }

  /** The loop only appends: it keeps the earlier messages, sends nothing
      but function responses, consumes the script from its front, and
      leaves the event log extended; a successful answer is never empty. */
  lemma {:induction false} ConverseShape(c: Conversation, reply: Reply)
    ensures var r := Converse(c, reply);
            c.sent <= r.0.sent &&
            (forall i :: |c.sent| <= i < |r.0.sent| ==> r.0.sent[i].ToolResponse?) &&
            |r.0.script| <= |c.script| && r.0.script == c.script[|c.script| - |r.0.script|..] &&
            c.world.log <= r.0.world.log &&
            (r.1.Ok? ==> r.1.value != "")
    decreases |c.script| + (if HasCalls(reply) then 1 else 0)
  {
    if reply.Reply? && |reply.calls| > 0 {
      var ran := RunCallsSpec(c.world, reply.calls);
      var next := NextReply(c.script);
      var c1 := Conversation(ran.0, next.1, c.sent + [ToolResponse(ran.1[0])]);
      ConverseShape(c1, next.0);
      var r := Converse(c1, next.0);
      assert r == Converse(c, reply);
      forall i | |c.sent| <= i < |r.0.sent|
        ensures r.0.sent[i].ToolResponse?
      {
        if i >= |c1.sent| {
        } else {
          assert i == |c.sent|;
          assert r.0.sent[i] == c1.sent[i];
        }
      }
      if c.script != [] {
        assert c1.script == c.script[1..];
        assert c.script[1..][|c1.script| - |r.0.script|..] == c.script[|c.script| - |r.0.script|..];
      }
    } else {
      assert NoTextFallback != "";
    }
  }

  /** A reply without calls ends the exchange at once: the world is
      untouched and the answer is the reply's text, or the fallback when it
      is empty. */
  lemma ReplyWithoutCalls(c: Conversation, message: string)
    requires c.script != [] && c.script[0].Reply? && c.script[0].calls == []
    ensures var r := SendSpec(c, message);
            r.0 == Conversation(c.world, c.script[1..], c.sent + [UserText(message)]) &&
            r.1 == Ok(if c.script[0].text == "" then NoTextFallback else c.script[0].text)
  {
  }

  /** One tool turn: the user's text, then exactly the first response of
      the turn is sent back, and the answer is the following reply's. */
  lemma OneToolTurn(c: Conversation, message: string, fc: FunctionCall, more: seq<FunctionCall>)
    requires |c.script| >= 2 && c.script[0].Reply? && c.script[0].calls == [fc] + more
    requires c.script[1].Reply? && c.script[1].calls == []
    ensures var ran := RunCallsSpec(c.world, [fc] + more);
            var r := SendSpec(c, message);
            r.0.world == ran.0 &&
            r.0.sent == c.sent + [UserText(message), ToolResponse(DispatchSpec(c.world, fc).1)] &&
            r.1 == Ok(if c.script[1].text == "" then NoTextFallback else c.script[1].text)
  {
    var calls := [fc] + more;
    var ran := RunCallsSpec(c.world, calls);
    FirstResponse(c.world, calls);
    var c0 := Conversation(c.world, c.script[1..], c.sent + [UserText(message)]);
    assert SendSpec(c, message) == Converse(c0, c.script[0]);
    var c1 := Conversation(ran.0, c.script[2..], c0.sent + [ToolResponse(ran.1[0])]);
    assert c.script[1..][1..] == c.script[2..];
    assert Converse(c0, c.script[0]) == Converse(c1, c.script[1]);
    assert c0.sent + [ToolResponse(ran.1[0])] ==
           c.sent + [UserText(message), ToolResponse(DispatchSpec(c.world, fc).1)];
  }

  // ---------------------------------------------------------------------
  // The agent object
  // ---------------------------------------------------------------------

  class GeminiAgent {
    /** the shared store (`db`); its event bus is the window */
    const store: LedgerStore
    /** the system instruction, fixed when the module loads */
    const systemInstruction: string
    /** `chatSession`, created lazily */
    var chatSession: Option<ChatSession>
    /** the replies the model will still give */
    var script: seq<Reply>
    /** everything sent to the model */
    var sent: seq<Message>
    ghost var sessionsCreated: nat

    function WorldOf(): World
      reads this, store, store.bus
    {
      World(store.State(), store.bus.log)
    }

    function ConversationOf(): Conversation
      reads this, store, store.bus
    {
      Conversation(WorldOf(), script, sent)
    }

    constructor (db: LedgerStore, instruction: string, replies: seq<Reply>)
      ensures store == db && systemInstruction == instruction && script == replies
      ensures chatSession == None && sent == [] && sessionsCreated == 0
    {
      store := db;
      systemInstruction := instruction;
      chatSession := None;
      script := replies;
      sent := [];
      sessionsCreated := 0;
    }

    /** `startChat()`: a new session with the system instruction and the
        four tools. */
    method StartChat()
      modifies this
      ensures chatSession == Some(ChatSession(ModelName, systemInstruction, Tools))
      ensures sessionsCreated == old(sessionsCreated) + 1
      ensures script == old(script) && sent == old(sent)
    {
      chatSession := Some(ChatSession(ModelName, systemInstruction, Tools));
      sessionsCreated := sessionsCreated + 1;
    }

    /** `chatSession.sendMessage`: record what was sent, take the next
        reply. */
    method Send(m: Message) returns (reply: Reply)
      modifies this
      ensures sent == old(sent) + [m]
      ensures (reply, script) == NextReply(old(script))
      ensures chatSession == old(chatSession) && sessionsCreated == old(sessionsCreated)
    {
      sent := sent + [m];
      var next := NextReply(script);
      reply, script := next.0, next.1;
    }

    /** One call of the inner `for`, with the `try`/`catch`. */
    method Dispatch(fc: FunctionCall) returns (response: FunctionResponse)
      modifies store, store.bus
      ensures (WorldOf(), response) == DispatchSpec(old(WorldOf()), fc)
      ensures store.cache == old(store.cache)
    {
      var ctx := fc.ctx;
      var apiResponse: Output := ErrorOut(UnknownTool);
      match fc.call {
        case AddTransaction(date, _, _, _, _) =>
          var added := store.Add(ctx.env, AddFields(fc.call), ctx.newId, ctx.now, ctx.fault);
          match added {
            case Ok(tx) =>
              store.bus.Dispatch(AiTransactionAdded(date, tx.id));
              apiResponse := Added(tx);
            case Err(e) =>
              apiResponse := ErrorOut(e);
          }
        case QueryTransactions(q) =>
          ghost var before := store.State();
          var data := store.Query(ctx.env, q);
          MatchingIsFilter(LoadSpec(before, ctx.env).result, q);
          apiResponse := Queried(data);
        case DeleteTransaction(id) =>
          var deleted := store.Delete(ctx.env, id, ctx.fault);
          match deleted {
            case Ok(success) =>
              apiResponse := Status(success, if success then "Deleted" else "ID not found");
              if success {
                store.bus.Dispatch(AiTransactionDeleted(id));
              }
            case Err(e) =>
              apiResponse := ErrorOut(e);
          }
        case PrintReport(reportType, dateStart, dateEnd) =>
          store.bus.Dispatch(AiPrintReport(reportType, dateStart, dateEnd));
          apiResponse := Status(true, PrintingMessage);
        case OtherTool(_) =>
      }
      response := FunctionResponse(CallName(fc.call), apiResponse);
    }

    /** The inner `for` over the calls of one reply. */
    method RunCalls(calls: seq<FunctionCall>) returns (responses: seq<FunctionResponse>)
      modifies store, store.bus
      ensures (WorldOf(), responses) == RunCallsSpec(old(WorldOf()), calls)
    {
      responses := [];
      for i := 0 to |calls|
        invariant (WorldOf(), responses) == RunCallsSpec(old(WorldOf()), calls[..i])
      {
        assert calls[..i + 1][..i] == calls[..i];
        var response := Dispatch(calls[i]);
        responses := responses + [response];
      }
      assert calls[..|calls|] == calls;
    }

    /** `sendMessage(message)`: start the session if there is none, send
        the text, and while the latest reply has function calls run them
        and send the first response back; answer the final text or the
        fallback, or fail with the session's error. */
    method SendMessage(message: string) returns (answer: Result<string, string>)
      modifies this, store, store.bus
      ensures chatSession.Some?
      ensures sessionsCreated == old(sessionsCreated) + (if old(chatSession).None? then 1 else 0)
      ensures old(chatSession).Some? ==> chatSession == old(chatSession)
      ensures (ConversationOf(), answer) == SendSpec(old(ConversationOf()), message)
    {
      ghost var start := ConversationOf();
      if chatSession.None? {
        StartChat();
      }
      var result := Send(UserText(message));
      ghost var first := NextReply(start.script);
      assert SendSpec(start, message) == Converse(ConversationOf(), result);
      while HasCalls(result)
        invariant chatSession.Some? && sessionsCreated == old(sessionsCreated) + (if old(chatSession).None? then 1 else 0)
        invariant old(chatSession).Some? ==> chatSession == old(chatSession)
        invariant SendSpec(start, message) == Converse(ConversationOf(), result)
        decreases |script| + (if HasCalls(result) then 1 else 0)
      {
        var responses := RunCalls(result.calls);
        result := Send(ToolResponse(responses[0]));
      }
      if result.ApiError? {
        return Err(result.message);
      }
      answer := Ok(if result.text == "" then NoTextFallback else result.text);
    }
  }
}
