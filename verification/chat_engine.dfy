/** The conversation controller: one turn obtains a model reply, may re-query for a
    task plan, discards scratch entries, and routes the reply either to the text
    review gate or to the code path, which runs the tool and, on failure, drives a
    fixed repair dialogue on a forked copy of the log.

    The model, the human at the console and the tools are scripted oracles
    (`Script`): each model query consumes the next reply, each console prompt the
    next input line, each tool run the next output text. Every function returns
    the new log; callers always continue with the returned log. */
module ChatEngine {
  import opened ChatMessages
  import opened ToolOutput
  import opened CodeDisplay

  /** The JSON schema of one callable tool, handed to the model on every query. */
  datatype ToolSchema = ToolSchema(name: string, parameters: string)

  /** Selects between the controller exactly as written and with its two defects
      repaired: the decomposition re-query binding the model client, and the
      scratch-entry count applying only to the turn it was requested for. */
  datatype Config = Config(decompositionPassesApi: bool, popOnlyOnce: bool)

  const AsWritten: Config := Config(false, false)
  const Corrected: Config := Config(true, true)

  /** What stays fixed along one call chain: the configuration, the tool registry
      (absent when the conversation has no tools) and the JSON decoder applied to a
      tool call's argument string (`None` when it does not decode to an object). */
  datatype Env = Env(cfg: Config, functions: Option<seq<ToolSchema>>, decodeJson: string -> Option<ArgDict>)

  /** The scratch-entry argument, which is either a Python bool or an int. */
  datatype PopArg = PopFlag(flag: bool) | PopInt(n: int)

  const NoPop: PopArg := PopFlag(false)

  /** How many trailing entries are removed: `True` counts as the int 1, `False`,
      zero and negative counts remove nothing. */
  function PopCount(p: PopArg): nat {
    match p
    case PopFlag(b) => if b then 1 else 0
    case PopInt(k) => if k > 0 then k else 0
  }

  /** The scratch-entry argument handed on to the functions a turn calls. */
  function Downstream(cfg: Config, p: PopArg): PopArg {
    if cfg.popOnlyOnce then NoPop else p
  }

  /** The mode flags threaded through the call chain. */
  datatype Flags = Flags(developer: bool, enhanced: bool, decomposition: bool, pop: PopArg)

  /** A model reply: text, and possibly tool calls (only the first one is used). */
  datatype Reply = Reply(content: string, toolCalls: seq<ToolCall>) {
    predicate HasToolCall() { |toolCalls| > 0 }
    function AsMessage(): Message { Assistant(content, toolCalls) }
  }

  /** The scripted oracles: model replies, console input lines, tool outputs. */
  datatype Script = Script(replies: seq<Reply>, inputs: seq<string>, outputs: seq<string>)

  /** One request to the model: the log it was computed from, the tool schemas
      attached, and whether the developer or the decomposition prompt primed it. */
  datatype Query = Query(log: seq<Message>, tools: Option<seq<ToolSchema>>, developerPrompt: bool, decompositionPrompt: bool)

  /** Exceptions the Python controller raises and does not catch. */
  datatype PyError =
    | MissingLlmApi   // TypeError: the decomposition re-query omits its client argument
    | EndOfInput      // EOFError from input()
    | EmptyLog        // IndexError: overwriting the last entry of an empty log
    | PopFromEmpty    // IndexError: more scratch entries to pop than the log holds

  /** How a call chain ended; the last two mean the script ran dry. */
  datatype Status = Finished | Raised(error: PyError) | OutOfReplies | OutOfOutputs

  /** The result of a call: how it ended, the log it returns, the unread rest of
      the script, and every model query it made, in order. */
  datatype Run = Run(status: Status, log: seq<Message>, script: Script, queries: seq<Query>) {
    function Prepend(qs: seq<Query>): Run { this.(queries := qs + queries) }
  }

  const ExecutePlanPrompt: string := "非常好，请按照该流程逐步执行。"
  const FastRepairPrompt: string := "你编写的代码报错了，请根据报错信息修改代码并重新执行。"
  const DiagnosePrompt: string := "之前执行的代码报错了，你觉得代码哪里编写错了？"
  const TheorizePrompt: string := "好的。那么根据你的分析，为了解决这个错误，从理论上来说，应该如何操作呢？"
  const ImplementPrompt: string := "非常好，接下来请按照你的逻辑编写相应代码并运行。"

  /** The repair script: one prompt normally, diagnose/theorize/implement in enhanced mode. */
  function RepairPrompts(enhanced: bool): seq<string> {
    if enhanced then [DiagnosePrompt, TheorizePrompt, ImplementPrompt] else [FastRepairPrompt]
  }

  // ---------------------------------------------------------------------------
  // Bookkeeping predicates stated by every function of the controller

  /** `b` is what remains of `a` after reading some entries from its front. */
  predicate Suffix<T(==)>(a: seq<T>, b: seq<T>) {
    |b| <= |a| && b == a[|a| - |b|..]
  }

  predicate Consumed(s: Script, t: Script) {
    Suffix(s.replies, t.replies) && Suffix(s.inputs, t.inputs) && Suffix(s.outputs, t.outputs)
  }

  /** Every query attaches the tool schemas exactly when a registry exists and is
      primed for developer mode exactly in developer mode. */
  predicate QueriesCarry(env: Env, developer: bool, qs: seq<Query>) {
    forall q | q in qs :: q.tools == env.functions && q.developerPrompt == developer
  }

  /** The oracles are read front to back; each model reply read answers exactly one
      query; every query carries the tools and the developer prompt as above; and
      when the re-query binds its client, no TypeError is raised. */
  predicate Accounted(env: Env, developer: bool, s: Script, r: Run) {
    && Consumed(s, r.script)
    && |r.queries| == |s.replies| - |r.script.replies|
    && QueriesCarry(env, developer, r.queries)
    && (env.cfg.decompositionPassesApi ==> r.status != Raised(MissingLlmApi))
  }

  /** The settings under which scratch-entry removal cannot split a tool call from
      its result: the count applies to one turn only, or (as written) developer
      mode is off and plan review is never reached. */
  predicate Regime(cfg: Config, f: Flags) {
    cfg.popOnlyOnce || (!cfg.decompositionPassesApi && !f.developer)
  }

  /** Entry condition of a turn under which every log it produces stays paired. */
  predicate TurnSafe(cfg: Config, log: seq<Message>, f: Flags) {
    var n := PopCount(f.pop);
    && WellPaired(log)
    && Regime(cfg, f)
    && (|| n == 0
        || (f.decomposition && !cfg.decompositionPassesApi)
        || (cfg.popOnlyOnce && n <= |log| && WellPaired(log[..|log| - n])))
  }

  /** Entry condition of the functions a turn calls. */
  predicate StepSafe(cfg: Config, log: seq<Message>, f: Flags) {
    WellPaired(log) && Regime(cfg, f) && PopCount(f.pop) == 0
  }

  predicate QueriesPaired(qs: seq<Query>) {
    forall q | q in qs :: WellPaired(q.log)
  }

  /** The returned log and every log sent to the model are paired. */
  predicate Paired(r: Run) {
    WellPaired(r.log) && QueriesPaired(r.queries)
  }

  lemma SuffixTransitive<T>(a: seq<T>, b: seq<T>, c: seq<T>)
    requires Suffix(a, b) && Suffix(b, c)
    ensures Suffix(a, c)
  {
    assert c == a[|a| - |b|..][|b| - |c|..];
  }

  /** Running `inner` after queries `qs` that read `s` down to `mid` keeps the
      bookkeeping and the pairing of the whole. */
  lemma Chain(env: Env, developer: bool, s: Script, mid: Script, qs: seq<Query>, inner: Run)
    requires Consumed(s, mid) && |qs| == |s.replies| - |mid.replies| && QueriesCarry(env, developer, qs)
    requires Accounted(env, developer, mid, inner)
    ensures Accounted(env, developer, s, inner.Prepend(qs))
    ensures QueriesPaired(qs) && Paired(inner) ==> Paired(inner.Prepend(qs))
  {
    SuffixTransitive(s.replies, mid.replies, inner.script.replies);
    SuffixTransitive(s.inputs, mid.inputs, inner.script.inputs);
    SuffixTransitive(s.outputs, mid.outputs, inner.script.outputs);
  }

  /** Running `inner` after reading console input or tool output (but no model
      reply) from `s` down to `mid` keeps the bookkeeping. */
  lemma Continue(env: Env, developer: bool, s: Script, mid: Script, inner: Run)
    requires Consumed(s, mid) && mid.replies == s.replies
    requires Accounted(env, developer, mid, inner)
    ensures Accounted(env, developer, s, inner)
  {
    SuffixTransitive(s.replies, mid.replies, inner.script.replies);
    SuffixTransitive(s.inputs, mid.inputs, inner.script.inputs);
    SuffixTransitive(s.outputs, mid.outputs, inner.script.outputs);
  }

  /** Reading the next `k` console input lines. */
  lemma ReadInput(s: Script, k: nat)
    requires k <= |s.inputs|
    ensures Consumed(s, s.(inputs := s.inputs[k..]))
  {
  }

  /** Reading one tool output. */
  lemma ReadOutput(s: Script)
    requires |s.outputs| > 0
    ensures Consumed(s, s.(outputs := s.outputs[1..]))
  {
  }

  /** Two plain entries appended for a later turn to discard keep that turn safe. */
  lemma RevisionSafe(cfg: Config, log: seq<Message>, m1: Message, m2: Message, f: Flags)
    ensures && !CallsTool(m1) && !m1.Tool? && !CallsTool(m2) && !m2.Tool?
            && StepSafe(cfg, log, f) && (f.developer || f.decomposition)
            ==> TurnSafe(cfg, log + [m1] + [m2], f.(pop := PopInt(2)))
  {
    AppendPlainKeepsPairing(log, m1);
    AppendPlainKeepsPairing(log + [m1], m2);
    assert (log + [m1] + [m2])[..|log|] == log;
  }

  // ---------------------------------------------------------------------------
  // Asking the model

  datatype Answer = Answer(reply: Option<Reply>, query: Query, script: Script)

  /** One model query on `log`: the tool schemas are attached only when a
      registry exists; the answer is the next scripted reply. */
  function AskModel(env: Env, log: seq<Message>, developer: bool, primed: bool, s: Script): (a: Answer)
    ensures a.query == Query(log, env.functions, developer, primed)
    ensures a.reply.Some? <==> |s.replies| > 0
    ensures a.reply.Some? ==> a.reply.value == s.replies[0] && a.script == s.(replies := s.replies[1..])
    ensures a.reply.None? ==> a.script == s
  {
    var q := Query(log, env.functions, developer, primed);
    if |s.replies| == 0 then Answer(None, q, s)
    else Answer(Some(s.replies[0]), q, s.(replies := s.replies[1..]))
  }

  /** The reply a turn routes, with the decomposition flag it is routed under. */
  datatype Obtained =
    | Replied(reply: Reply, decomposition: bool, script: Script, queries: seq<Query>)
    | NoReply(status: Status, script: Script, queries: seq<Query>)

  /** Whether a turn re-queries for a plan: the flag is set on entry, or enhanced
      mode is on and the ordinary reply calls a tool. */
  predicate DecompositionTriggered(f: Flags, s: Script) {
    f.decomposition || (f.enhanced && |s.replies| > 0 && s.replies[0].HasToolCall())
  }

  /** The plan re-query, primed with the decomposition prompt. As written, the call
      omits the client argument and raises before reaching the model. */
  function Decompose(env: Env, log: seq<Message>, developer: bool, s: Script, before: seq<Query>): (o: Obtained)
    ensures o.Replied? <==> env.cfg.decompositionPassesApi && |s.replies| > 0
    ensures o.Replied? ==> o.decomposition && o.reply == s.replies[0]
    ensures o.queries == before + (if o.Replied? then [Query(log, env.functions, developer, true)] else [])
    ensures o.NoReply? ==> o.status == (if env.cfg.decompositionPassesApi then OutOfReplies else Raised(MissingLlmApi))
    ensures o.script == if o.Replied? then s.(replies := s.replies[1..]) else s
  {
    if !env.cfg.decompositionPassesApi then NoReply(Raised(MissingLlmApi), s, before)
    else
      var a := AskModel(env, log, developer, true, s);
      if a.reply.None? then NoReply(OutOfReplies, s, before)
      else Replied(a.reply.value, true, a.script, before + [a.query])
  }

  /** What obtaining a reply promises: the replies are read front to back, one
      per query; every query is made on the entry log, the first one primed for
      plan review exactly when the flag is set on entry; the reply routed is the
      last one read, under plan review exactly when the re-query was triggered;
      and the TypeError is raised exactly when the re-query is triggered but does
      not bind its client. */
  predicate ObtainPromise(env: Env, log: seq<Message>, f: Flags, s: Script, o: Obtained) {
    ObtainBookkeeping(env, log, f, s, o) && ObtainRouting(env, log, f, s, o)
  }

  predicate ObtainBookkeeping(env: Env, log: seq<Message>, f: Flags, s: Script, o: Obtained) {
    && Consumed(s, o.script)
    && (o.Replied? ==> |o.script.replies| < |s.replies| && |o.queries| > 0)
    && |o.queries| == |s.replies| - |o.script.replies|
    && QueriesCarry(env, f.developer, o.queries)
    && (forall q | q in o.queries :: q.log == log)
  }

  predicate ObtainRouting(env: Env, log: seq<Message>, f: Flags, s: Script, o: Obtained) {
    && |o.queries| == |s.replies| - |o.script.replies|
    && (|o.queries| > 0 ==> o.queries[0] == Query(log, env.functions, f.developer, f.decomposition))
    && (o.Replied? ==> o.decomposition == DecompositionTriggered(f, s) && 0 < |o.queries| <= |s.replies|
                       && o.reply == s.replies[|o.queries| - 1])
    && (o.NoReply? ==> o.status == OutOfReplies || o.status == Raised(MissingLlmApi))
    && (o.NoReply? && o.status == Raised(MissingLlmApi) <==> !env.cfg.decompositionPassesApi && DecompositionTriggered(f, s))
  }

  /** The ordinary query, followed by the plan re-query when enhanced mode meets
      a tool call. */
  function OrdinaryQuery(env: Env, log: seq<Message>, f: Flags, s: Script): Obtained {
    var a := AskModel(env, log, f.developer, false, s);
    if a.reply.None? then NoReply(OutOfReplies, s, [])
    else if f.enhanced && a.reply.value.HasToolCall() then Decompose(env, log, f.developer, a.script, [a.query])
    else Replied(a.reply.value, false, a.script, [a.query])
  }

  lemma OrdinaryObtains(env: Env, log: seq<Message>, f: Flags, s: Script)
    requires !f.decomposition
    ensures ObtainPromise(env, log, f, s, OrdinaryQuery(env, log, f, s))
  {
    OrdinaryBookkeeping(env, log, f, s);
    OrdinaryRouting(env, log, f, s);
  }

  lemma OrdinaryBookkeeping(env: Env, log: seq<Message>, f: Flags, s: Script)
    requires !f.decomposition
    ensures ObtainBookkeeping(env, log, f, s, OrdinaryQuery(env, log, f, s))
  {
    if |s.replies| == 0 {
      assert OrdinaryQuery(env, log, f, s) == NoReply(OutOfReplies, s, []);
    } else if f.enhanced && s.replies[0].HasToolCall() {
      DecomposeBookkeeping(env, log, f, s);
    } else {
      PlainBookkeeping(env, log, f, s);
    }
  }

  lemma PlainBookkeeping(env: Env, log: seq<Message>, f: Flags, s: Script)
    requires |s.replies| > 0
    ensures
      var q := Query(log, env.functions, f.developer, false);
      ObtainBookkeeping(env, log, f, s, Replied(s.replies[0], false, s.(replies := s.replies[1..]), [q]))
  {
    DropReplies(s, 1);
  }

  /** Dropping the first `n` replies is a consumption of the script. */
  lemma DropReplies(s: Script, n: nat)
    requires n <= |s.replies|
    ensures Consumed(s, s.(replies := s.replies[n..]))
  {
  }

  lemma DecomposeBookkeeping(env: Env, log: seq<Message>, f: Flags, s: Script)
    requires |s.replies| > 0
    ensures
      var q := Query(log, env.functions, f.developer, false);
      ObtainBookkeeping(env, log, f, s, Decompose(env, log, f.developer, s.(replies := s.replies[1..]), [q]))
  {
    var q := Query(log, env.functions, f.developer, false);
    var s1 := s.(replies := s.replies[1..]);
    var o := Decompose(env, log, f.developer, s1, [q]);
    if o.Replied? {
      var q2 := Query(log, env.functions, f.developer, true);
      assert o.queries == [q, q2];
      assert s1.replies[1..] == s.replies[2..];
      assert o.script == s.(replies := s.replies[2..]);
      DropReplies(s, 2);
      assert forall x | x in o.queries :: x == q || x == q2;
    } else {
      assert o.queries == [q] && o.script == s1;
      DropReplies(s, 1);
    }
  }

  lemma OrdinaryRouting(env: Env, log: seq<Message>, f: Flags, s: Script)
    requires !f.decomposition
    ensures ObtainRouting(env, log, f, s, OrdinaryQuery(env, log, f, s))
  {
    var o := OrdinaryQuery(env, log, f, s);
    if |s.replies| > 0 {
      var q := Query(log, env.functions, f.developer, false);
      var s1 := s.(replies := s.replies[1..]);
      if f.enhanced && s.replies[0].HasToolCall() {
        assert o == Decompose(env, log, f.developer, s1, [q]);
      } else {
        assert o == Replied(s.replies[0], false, s1, [q]);
      }
    }
  }

  lemma EntryDecompositionObtains(env: Env, log: seq<Message>, f: Flags, s: Script)
    requires f.decomposition
    ensures ObtainPromise(env, log, f, s, Decompose(env, log, f.developer, s, []))
  {
    var o := Decompose(env, log, f.developer, s, []);
    if o.Replied? {
      assert o == Replied(s.replies[0], true, s.(replies := s.replies[1..]), [Query(log, env.functions, f.developer, true)]);
    } else {
      assert o.queries == [] && o.script == s;
    }
  }

  /** Obtains the reply a turn routes: the ordinary query unless the decomposition
      flag is already set, then the plan re-query when decomposition is triggered.
      Every query is made on the entry log, before anything is popped. */
  function ObtainReply(env: Env, log: seq<Message>, f: Flags, s: Script): (o: Obtained)
    ensures ObtainPromise(env, log, f, s, o)
  {
    if !f.decomposition then
      OrdinaryObtains(env, log, f, s);
      OrdinaryQuery(env, log, f, s)
    else
      EntryDecompositionObtains(env, log, f, s);
      Decompose(env, log, f.developer, s, [])
  }

  // ---------------------------------------------------------------------------
  // The turn and the paths it routes to

  /** What one turn promises: the bookkeeping; a finished turn read at least one
      model reply; its first query is the ordinary (or, when the flag is set on
      entry, the plan) query on the entry log; and a safe entry keeps every log
      paired. */
  predicate TurnPromise(env: Env, log: seq<Message>, f: Flags, s: Script, r: Run) {
    && Accounted(env, f.developer, s, r)
    && (r.status.Finished? ==> |r.script.replies| < |s.replies|)
    && (|r.queries| > 0 ==> r.queries[0] == Query(log, env.functions, f.developer, f.decomposition))
    && (TurnSafe(env.cfg, log, f) ==> Paired(r))
  }

  /** What routing a reply promises. A plan reply is only routed when the re-query
      binds its client. */
  predicate RoutePromise(env: Env, log: seq<Message>, f: Flags, s: Script, r: Run) {
    && Accounted(env, f.developer, s, r)
    && (TurnSafe(env.cfg, log, f) && (f.decomposition ==> env.cfg.decompositionPassesApi) ==> Paired(r))
  }

  /** One turn (`get_chat_response`): obtain the reply from the entry log, then
      pop and route it. */
  function GetChatResponse(env: Env, log: seq<Message>, f: Flags, s: Script): (r: Run)
    decreases |s.replies|, 0, 0
    ensures TurnPromise(env, log, f, s, r)
  {
    var o := ObtainReply(env, log, f, s);
    if o.NoReply? then
      NoReplyPost(env, log, f, s, o);
      Run(o.status, log, o.script, o.queries)
    else
      var inner := Route(env, log, o.reply, f.(decomposition := o.decomposition), o.script);
      TurnPost(env, log, f, s, o, inner);
      inner.Prepend(o.queries)
  }

  /** What a turn that obtained no reply promises. */
  lemma NoReplyPost(env: Env, log: seq<Message>, f: Flags, s: Script, o: Obtained)
    requires o == ObtainReply(env, log, f, s) && o.NoReply?
    ensures TurnPromise(env, log, f, s, Run(o.status, log, o.script, o.queries))
  {
  }

  /** What a turn promises, given what its reply and its routed remainder promise. */
  lemma TurnPost(env: Env, log: seq<Message>, f: Flags, s: Script, o: Obtained, inner: Run)
    requires o == ObtainReply(env, log, f, s) && o.Replied?
    requires RoutePromise(env, log, f.(decomposition := o.decomposition), o.script, inner)
    ensures TurnPromise(env, log, f, s, inner.Prepend(o.queries))
  {
    Chain(env, f.developer, s, o.script, o.queries, inner);
    assert (o.queries + inner.queries)[0] == o.queries[0];
    if TurnSafe(env.cfg, log, f) {
      assert QueriesPaired(o.queries);
    }
  }

  /** The second half of a turn: remove the requested number of trailing entries
      now that the reply exists, then send a reply without tool calls to the text
      review gate and one with a tool call to the code path, flags unchanged. */
  function Route(env: Env, log: seq<Message>, reply: Reply, f: Flags, s: Script): (r: Run)
    decreases |s.replies|, 4, 0
    ensures RoutePromise(env, log, f, s, r)
  {
    var n := PopCount(f.pop);
    if |log| < n then Run(Raised(PopFromEmpty), log, s, [])
    else
      var kept := log[..|log| - n];
      assert n == 0 ==> kept == log;
      var g := f.(pop := Downstream(env.cfg, f.pop));
      if !reply.HasToolCall() then TextReview(env, kept, reply, g, s)
      else CodeReview(env, kept, reply, g, s)
  }

  /** The text review gate (`is_text_response_valid`). */
  function TextReview(env: Env, log: seq<Message>, cand: Reply, f: Flags, s: Script): (r: Run)
    decreases |s.replies|, 2, 0
    ensures Accounted(env, f.developer, s, r)
    ensures StepSafe(env.cfg, log, f) && !cand.HasToolCall() ==> Paired(r)
  {
    AppendPlainKeepsPairing(log, cand.AsMessage());
    if !f.decomposition && !f.developer then Run(Finished, log + [cand.AsMessage()], s, [])
    else if |s.inputs| == 0 then Run(Raised(EndOfInput), log, s, [])
    else
      var choice := s.inputs[0];
      var s1 := s.(inputs := s.inputs[1..]);
      ReadInput(s, 1);
      if choice != "1" then
        var inner := ReviewChoice(env, log, cand, f, choice, s1);
        Continue(env, f.developer, s, s1, inner);
        inner
      else if !f.decomposition then Run(Finished, log + [cand.AsMessage()], s1, [])
      else
        AppendPlainKeepsPairing(log + [cand.AsMessage()], User(ExecutePlanPrompt));
        var plan := log + [cand.AsMessage()] + [User(ExecutePlanPrompt)];
        var inner := GetChatResponse(env, plan, f.(decomposition := false, enhanced := false), s1);
        Continue(env, f.developer, s, s1, inner);
        inner
  }

  /** The revise / restart / abort choices of the text review gate. */
  function ReviewChoice(env: Env, log: seq<Message>, cand: Reply, f: Flags, choice: string, s: Script): (r: Run)
    requires choice != "1"
    decreases |s.replies|, 1, 0
    ensures Accounted(env, f.developer, s, r)
    ensures StepSafe(env.cfg, log, f) && !cand.HasToolCall() && (f.developer || f.decomposition) ==> Paired(r)
  {
    AppendPlainKeepsPairing(log, cand.AsMessage());
    if choice == "2" then
      if |s.inputs| == 0 then Run(Raised(EndOfInput), log, s, [])
      else
        var revised := log + [cand.AsMessage()] + [User(s.inputs[0])];
        RevisionSafe(env.cfg, log, cand.AsMessage(), User(s.inputs[0]), f);
        var s1 := s.(inputs := s.inputs[1..]);
        var inner := GetChatResponse(env, revised, f.(pop := PopInt(2)), s1);
        ReadInput(s, 1);
        Continue(env, f.developer, s, s1, inner);
        inner
    else if choice == "3" then
      if |s.inputs| == 0 then Run(Raised(EndOfInput), log, s, [])
      else if |log| == 0 then ReadInput(s, 1); Run(Raised(EmptyLog), log, s.(inputs := s.inputs[1..]), [])
      else
        SetLastContentKeepsPairing(log, s.inputs[0]);
        var s1 := s.(inputs := s.inputs[1..]);
        var inner := GetChatResponse(env, SetLastContent(log, s.inputs[0]), f, s1);
        ReadInput(s, 1);
        Continue(env, f.developer, s, s1, inner);
        inner
    else Run(Finished, log + [cand.AsMessage()], s, [])
  }

  /** The code path (`is_code_response_valid`): render the first call's arguments,
      optionally ask the developer, then run the tool. */
  function CodeReview(env: Env, log: seq<Message>, call: Reply, f: Flags, s: Script): (r: Run)
    requires call.HasToolCall()
    decreases |s.replies|, 3, 0
    ensures Accounted(env, f.developer, s, r)
    ensures StepSafe(env.cfg, log, f) ==> Paired(r)
  {
    var g := f.(decomposition := false);
    if DisplayCode(env.decodeJson(call.toolCalls[0].arguments)).None? then GetChatResponse(env, log, g, s)
    else if !g.developer then Execute(env, log, call, g, s)
    else DeveloperReview(env, log, call, g, s)
  }

  /** Developer mode's question before running the code: "1" runs it; anything
      else reads a correction, records the call's raw arguments as plain assistant
      text followed by the correction, and asks again with two entries to discard. */
  function DeveloperReview(env: Env, log: seq<Message>, call: Reply, f: Flags, s: Script): (r: Run)
    requires call.HasToolCall() && f.developer
    decreases |s.replies|, 2, 2
    ensures Accounted(env, f.developer, s, r)
    ensures StepSafe(env.cfg, log, f) ==> Paired(r)
  {
    var args := call.toolCalls[0].arguments;
    if |s.inputs| == 0 then Run(Raised(EndOfInput), log, s, [])
    else if s.inputs[0] == "1" then
      var s1 := s.(inputs := s.inputs[1..]);
      var inner := Execute(env, log, call, f, s1);
      ReadInput(s, 1);
      Continue(env, f.developer, s, s1, inner);
      inner
    else if |s.inputs| < 2 then ReadInput(s, |s.inputs|); Run(Raised(EndOfInput), log, s.(inputs := s.inputs[|s.inputs|..]), [])
    else
      var corrected := log + [Assistant(args, [])] + [User(s.inputs[1])];
      RevisionSafe(env.cfg, log, Assistant(args, []), User(s.inputs[1]), f);
      var s2 := s.(inputs := s.inputs[2..]);
      var inner := GetChatResponse(env, corrected, f.(pop := PopInt(2)), s2);
      ReadInput(s, 2);
      Continue(env, f.developer, s, s2, inner);
      inner
  }

  /** Runs the tool named by the first call (the next scripted output) and hands the
      call and its result message to the result check. */
  function Execute(env: Env, log: seq<Message>, call: Reply, f: Flags, s: Script): (r: Run)
    requires call.HasToolCall()
    decreases |s.replies|, 2, 1
    ensures Accounted(env, f.developer, s, r)
    ensures StepSafe(env.cfg, log, f) ==> Paired(r)
  {
    if |s.outputs| == 0 then Run(OutOfOutputs, log, s, [])
    else
      var s1 := s.(outputs := s.outputs[1..]);
      var inner := CheckFinal(env, log, call, Tool(call.toolCalls[0].id, s.outputs[0]), f, s1);
      ReadOutput(s);
      Continue(env, f.developer, s, s1, inner);
      inner
  }

  /** The tool-result check (`check_get_final_function_response`): on success the
      call and its result continue the same log for one more turn; on failure they
      go onto a fork of the log that runs the repair script. */
  function CheckFinal(env: Env, log: seq<Message>, call: Reply, result: Message, f: Flags, s: Script): (r: Run)
    decreases |s.replies|, 2, 0
    ensures Accounted(env, f.developer, s, r)
    ensures StepSafe(env.cfg, log, f) && Answers(call.AsMessage(), result) ==> Paired(r)
  {
    var extended := log + [call.AsMessage(), result];
    var g := f.(decomposition := false);
    AppendAnsweredCallKeepsPairing(log, call.AsMessage(), result);
    if IsFailure(result.content) then RunRepair(env, extended, RepairPrompts(f.enhanced), g.(enhanced := false), s)
    else GetChatResponse(env, extended, g, s)
  }

  /** Drives the repair prompts in order on the fork: each is appended as a user
      message and followed by one full turn. */
  function RunRepair(env: Env, fork: seq<Message>, prompts: seq<string>, f: Flags, s: Script): (r: Run)
    decreases |s.replies|, 1, |prompts|
    ensures Accounted(env, f.developer, s, r)
    ensures StepSafe(env.cfg, fork, f) ==> Paired(r)
  {
    if |prompts| == 0 then Run(Finished, fork, s, [])
    else
      AppendPlainKeepsPairing(fork, User(prompts[0]));
      var t := GetChatResponse(env, fork + [User(prompts[0])], f, s);
      if !t.status.Finished? then t
      else
        var rest := RunRepair(env, t.log, prompts[1..], f, t.script);
        Chain(env, f.developer, s, t.script, t.queries, rest);
        rest.Prepend(t.queries)
  }
}
