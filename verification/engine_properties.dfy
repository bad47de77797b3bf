/** What the controller promises, stated over whole turns: routing by reply kind,
    removal of scratch entries after the reply exists, the decomposition re-query,
    the review gates, the success path and the repair dialogues. */
module EngineProperties {
  import opened ChatMessages
  import opened ToolOutput
  import opened CodeDisplay
  import opened ChatEngine

  /** The script with its first model reply read. */
  function NextReply(s: Script): Script
    requires |s.replies| > 0
  {
    s.(replies := s.replies[1..])
  }

  /** The script with its first `k` console lines read. */
  function AfterInputs(s: Script, k: nat): Script
    requires k <= |s.inputs|
  {
    s.(inputs := s.inputs[k..])
  }

  /** The log a turn routes on once its scratch entries are gone. */
  function Kept(log: seq<Message>, f: Flags): seq<Message>
    requires PopCount(f.pop) <= |log|
  {
    log[..|log| - PopCount(f.pop)]
  }

  // ---------------------------------------------------------------------------
  // One turn

  /** An ordinary turn: the single query is made on the entry log, with the tool
      schemas when a registry exists and the developer prompt in developer mode;
      its reply is routed unchanged, under the entry flags. */
  lemma OrdinaryTurn(env: Env, log: seq<Message>, f: Flags, s: Script)
    requires !f.decomposition && |s.replies| > 0 && !(f.enhanced && s.replies[0].HasToolCall())
    ensures GetChatResponse(env, log, f, s)
         == Route(env, log, s.replies[0], f, NextReply(s)).Prepend([Query(log, env.functions, f.developer, false)])
  {
    var o := ObtainReply(env, log, f, s);
    assert o == Replied(s.replies[0], false, NextReply(s), [Query(log, env.functions, f.developer, false)]);
  }

  /** Routing: once the requested number of trailing entries is gone, a reply
      without a tool call goes to the text review gate and one with a tool call to
      the code path, with the flags passed on unchanged except the scratch count,
      which the corrected controller clears. */
  lemma RouteByKind(env: Env, log: seq<Message>, reply: Reply, f: Flags, s: Script)
    requires PopCount(f.pop) <= |log|
    ensures
      var g := f.(pop := Downstream(env.cfg, f.pop));
      Route(env, log, reply, f, s)
        == if reply.HasToolCall() then CodeReview(env, Kept(log, f), reply, g, s)
           else TextReview(env, Kept(log, f), reply, g, s)
    ensures env.cfg.popOnlyOnce ==> Downstream(env.cfg, f.pop) == NoPop
    ensures !env.cfg.popOnlyOnce ==> Downstream(env.cfg, f.pop) == f.pop
  {
  }

  /** Too many scratch entries requested: the pop fails after the reply exists. */
  lemma PopFromShortLog(env: Env, log: seq<Message>, reply: Reply, f: Flags, s: Script)
    requires |log| < PopCount(f.pop)
    ensures Route(env, log, reply, f, s) == Run(Raised(PopFromEmpty), log, s, [])
  {
  }

  /** Removal after the reply, in every mode outside plan review: a plain reply
      is computed from the full entry log, and only then are exactly `n`
      trailing entries removed (`PopCount`: `True` counts as one, `False`, zero
      and negative counts remove nothing) before the reply reaches the text
      review gate; more entries than the log holds raise instead. */
  lemma PopAfterReply(env: Env, log: seq<Message>, f: Flags, s: Script)
    requires !f.decomposition && |s.replies| > 0 && !s.replies[0].HasToolCall()
    ensures
      var r := GetChatResponse(env, log, f, s);
      var q := Query(log, env.functions, f.developer, false);
      var g := f.(pop := Downstream(env.cfg, f.pop));
      && (PopCount(f.pop) <= |log| ==> r == TextReview(env, Kept(log, f), s.replies[0], g, NextReply(s)).Prepend([q]))
      && (|log| < PopCount(f.pop) ==> r == Run(Raised(PopFromEmpty), log, NextReply(s), [q]))
    ensures f.pop == PopFlag(true) ==> PopCount(f.pop) == 1
    ensures (f.pop == PopFlag(false) || (f.pop.PopInt? && f.pop.n <= 0)) ==> PopCount(f.pop) == 0
    ensures f.pop.PopInt? && f.pop.n > 0 ==> PopCount(f.pop) == f.pop.n
  {
    OrdinaryTurn(env, log, f, s);
    if PopCount(f.pop) <= |log| {
      RouteByKind(env, log, s.replies[0], f, NextReply(s));
    } else {
      PopFromShortLog(env, log, s.replies[0], f, NextReply(s));
    }
  }

  /** The plain reply, once accepted, is recorded on the log left after the pop:
      at once outside developer mode, and after a '1' under developer review,
      which is where a revision's count of two takes effect. */
  lemma PlainReplyRecordedAfterPop(env: Env, log: seq<Message>, f: Flags, s: Script)
    requires !f.decomposition && |s.replies| > 0 && !s.replies[0].HasToolCall()
    requires PopCount(f.pop) <= |log|
    ensures !f.developer ==>
      GetChatResponse(env, log, f, s)
        == Run(Finished, Kept(log, f) + [s.replies[0].AsMessage()], NextReply(s), [Query(log, env.functions, false, false)])
    ensures f.developer && |s.inputs| > 0 && s.inputs[0] == "1" ==>
      GetChatResponse(env, log, f, s)
        == Run(Finished, Kept(log, f) + [s.replies[0].AsMessage()], AfterInputs(NextReply(s), 1),
               [Query(log, env.functions, true, false)])
  {
    var q := Query(log, env.functions, f.developer, false);
    var g := f.(pop := Downstream(env.cfg, f.pop));
    var t := NextReply(s);
    assert GetChatResponse(env, log, f, s) == TextReview(env, Kept(log, f), s.replies[0], g, t).Prepend([q]) by {
      PopAfterReply(env, log, f, s);
    }
    if !f.developer {
      TextAcceptedWithoutReview(env, Kept(log, f), s.replies[0], g, t);
    } else if |s.inputs| > 0 && s.inputs[0] == "1" {
      TextReviewChoices(env, Kept(log, f), s.replies[0], g, t);
    }
  }

  // ---------------------------------------------------------------------------
  // Decomposition

  /** The queries a turn makes before routing, when the re-query binds its client
      and the script has a reply for every query: the ordinary query unless the
      flag is set on entry, then the primed query exactly when decomposition is
      triggered; the reply routed is the last one read, in plan mode exactly when
      the primed query was made. */
  lemma QueriesBeforeRouting(env: Env, log: seq<Message>, f: Flags, s: Script)
    requires env.cfg.decompositionPassesApi && |s.replies| >= 2
    ensures
      var o := ObtainReply(env, log, f, s);
      var triggered := DecompositionTriggered(f, s);
      && o.Replied?
      && o.queries == (if f.decomposition then [] else [Query(log, env.functions, f.developer, false)])
                      + (if triggered then [Query(log, env.functions, f.developer, true)] else [])
      && o.decomposition == triggered
      && o.reply == s.replies[|o.queries| - 1]
  {
    var o := ObtainReply(env, log, f, s);
    var q := Query(log, env.functions, f.developer, false);
    var p := Query(log, env.functions, f.developer, true);
    if f.decomposition {
      assert o == Replied(s.replies[0], true, NextReply(s), [p]);
    } else if f.enhanced && s.replies[0].HasToolCall() {
      assert o == Replied(s.replies[1], true, NextReply(NextReply(s)), [q, p]);
    } else {
      assert o == Replied(s.replies[0], false, NextReply(s), [q]);
    }
  }

  /** With the flag set on entry the ordinary query is skipped: the only query is
      the primed one, and its reply is routed in plan mode. */
  lemma DecompositionOnEntry(env: Env, log: seq<Message>, f: Flags, s: Script)
    requires f.decomposition && env.cfg.decompositionPassesApi && |s.replies| > 0
    ensures GetChatResponse(env, log, f, s)
         == Route(env, log, s.replies[0], f, NextReply(s)).Prepend([Query(log, env.functions, f.developer, true)])
  {
    var o := ObtainReply(env, log, f, s);
    assert o == Replied(s.replies[0], true, NextReply(s), [Query(log, env.functions, f.developer, true)]);
  }

  /** In enhanced mode a first reply that calls a tool is replaced by the plan
      reply; when the plan reply itself calls a tool it goes straight to the code
      path (which leaves plan mode). */
  lemma PlanReplyWithToolCall(env: Env, log: seq<Message>, f: Flags, s: Script)
    requires !f.decomposition && f.enhanced && env.cfg.decompositionPassesApi
    requires |s.replies| > 1 && s.replies[0].HasToolCall() && s.replies[1].HasToolCall()
    requires PopCount(f.pop) <= |log|
    ensures
      var g := f.(decomposition := true, pop := Downstream(env.cfg, f.pop));
      GetChatResponse(env, log, f, s)
        == CodeReview(env, Kept(log, f), s.replies[1], g, NextReply(NextReply(s)))
             .Prepend([Query(log, env.functions, f.developer, false), Query(log, env.functions, f.developer, true)])
  {
    var f1 := f.(decomposition := true);
    var g := f.(decomposition := true, pop := Downstream(env.cfg, f.pop));
    var qs := [Query(log, env.functions, f.developer, false), Query(log, env.functions, f.developer, true)];
    var s2 := NextReply(NextReply(s));
    assert GetChatResponse(env, log, f, s) == Route(env, log, s.replies[1], f1, s2).Prepend(qs) by {
      var o := ObtainReply(env, log, f, s);
      assert o == Replied(s.replies[1], true, s2, qs);
    }
    assert Route(env, log, s.replies[1], f1, s2) == CodeReview(env, Kept(log, f), s.replies[1], g, s2) by {
      RouteByKind(env, log, s.replies[1], f1, s2);
      assert Kept(log, f1) == Kept(log, f);
      assert f1.(pop := Downstream(env.cfg, f1.pop)) == g;
    }
  }

  /** Accepting a plan ('1') records the plan, then the request to execute it step
      by step, and re-enters with plan mode and enhanced mode both off. */
  lemma AcceptPlan(env: Env, log: seq<Message>, cand: Reply, f: Flags, s: Script)
    requires f.decomposition && |s.inputs| > 0 && s.inputs[0] == "1"
    ensures TextReview(env, log, cand, f, s)
         == GetChatResponse(env, log + [cand.AsMessage()] + [User(ExecutePlanPrompt)],
                            f.(decomposition := false, enhanced := false), AfterInputs(s, 1))
  {
  }

  // ---------------------------------------------------------------------------
  // The text review gate

  /** Outside developer mode and plan review the reply is recorded as is and
      nothing else is read or changed. */
  lemma TextAcceptedWithoutReview(env: Env, log: seq<Message>, cand: Reply, f: Flags, s: Script)
    requires !f.developer && !f.decomposition
    ensures TextReview(env, log, cand, f, s) == Run(Finished, log + [cand.AsMessage()], s, [])
  {
  }

  /** Under review, each console answer has its effect: '1' records the reply;
      '2' records it with the correction and re-enters with two entries to
      discard; '3' overwrites only the content of the last entry and re-enters
      with the same flags; anything else records the reply and stops. */
  lemma TextReviewChoices(env: Env, log: seq<Message>, cand: Reply, f: Flags, s: Script)
    requires (f.developer || f.decomposition) && |s.inputs| > 0
    ensures var r := TextReview(env, log, cand, f, s);
            var s1 := AfterInputs(s, 1);
            var c := s.inputs[0];
            && (c == "1" && !f.decomposition ==> r == Run(Finished, log + [cand.AsMessage()], s1, []))
            && (c == "2" && |s1.inputs| > 0 ==>
                  r == GetChatResponse(env, log + [cand.AsMessage()] + [User(s1.inputs[0])], f.(pop := PopInt(2)), AfterInputs(s1, 1)))
            && (c == "3" && |s1.inputs| > 0 && |log| > 0 ==>
                  r == GetChatResponse(env, SetLastContent(log, s1.inputs[0]), f, AfterInputs(s1, 1)))
            && (c == "3" && |s1.inputs| > 0 && |log| == 0 ==> r.status == Raised(EmptyLog))
            && ((c == "2" || c == "3") && |s1.inputs| == 0 ==> r.status == Raised(EndOfInput))
            && (c !in {"1", "2", "3"} ==> r == Run(Finished, log + [cand.AsMessage()], s1, []))
  {
  }

  /** The review gate asks before anything else: with no console line left it
      raises and records nothing. */
  lemma TextReviewWithoutInput(env: Env, log: seq<Message>, cand: Reply, f: Flags, s: Script)
    requires (f.developer || f.decomposition) && |s.inputs| == 0
    ensures TextReview(env, log, cand, f, s) == Run(Raised(EndOfInput), log, s, [])
  {
  }

  /** A revision requested in developer mode leaves no trace: when the revised
      reply is plain text and is accepted, the log holds the entry log and the
      revised reply only; the first draft and the correction are gone. Whatever
      count the gate was entered with, the revision replaces it by two. */
  lemma RevisionDiscardsDraft(env: Env, log: seq<Message>, cand: Reply, f: Flags, s: Script)
    requires f.developer && !f.decomposition
    requires |s.inputs| > 2 && s.inputs[0] == "2" && s.inputs[2] == "1"
    requires |s.replies| > 0 && !s.replies[0].HasToolCall()
    ensures
      var revised := log + [cand.AsMessage()] + [User(s.inputs[1])];
      TextReview(env, log, cand, f, s)
        == Run(Finished, log + [s.replies[0].AsMessage()], AfterInputs(NextReply(s), 3),
               [Query(revised, env.functions, true, false)])
  {
    var s2 := AfterInputs(s, 2);
    var revised := log + [cand.AsMessage()] + [User(s.inputs[1])];
    var g := f.(pop := PopInt(2));
    var q := Query(revised, env.functions, true, false);
    assert TextReview(env, log, cand, f, s) == GetChatResponse(env, revised, g, s2) by {
      TextReviewChoices(env, log, cand, f, s);
    }
    assert GetChatResponse(env, revised, g, s2) == Route(env, revised, s.replies[0], g, NextReply(s2)).Prepend([q]) by {
      OrdinaryTurn(env, revised, g, s2);
    }
    assert Route(env, revised, s.replies[0], g, NextReply(s2))
        == Run(Finished, log + [s.replies[0].AsMessage()], AfterInputs(NextReply(s), 3), []) by {
      AcceptedAfterRevision(env, log, cand.AsMessage(), User(s.inputs[1]), s.replies[0], g, NextReply(s2));
      assert AfterInputs(NextReply(s2), 1) == AfterInputs(NextReply(s), 3);
    }
  }

  /** The revised reply is routed on the log without the two discarded entries;
      accepting it records it there. */
  lemma AcceptedAfterRevision(env: Env, log: seq<Message>, m1: Message, m2: Message, reply: Reply, g: Flags, t: Script)
    requires g.developer && !g.decomposition && g.pop == PopInt(2) && !reply.HasToolCall()
    requires |t.inputs| > 0 && t.inputs[0] == "1"
    ensures Route(env, log + [m1] + [m2], reply, g, t) == Run(Finished, log + [reply.AsMessage()], AfterInputs(t, 1), [])
  {
    var revised := log + [m1] + [m2];
    var h := g.(pop := Downstream(env.cfg, g.pop));
    assert Route(env, revised, reply, g, t) == TextReview(env, log, reply, h, t) by {
      RouteByKind(env, revised, reply, g, t);
      assert Kept(revised, g) == log;
    }
    TextReviewChoices(env, log, reply, h, t);
  }

  // ---------------------------------------------------------------------------
  // The code path

  /** Arguments that cannot be shown are never run: the turn is asked again on
      the same log, with no tool output read and nothing recorded. */
  lemma UndisplayableCodeRequeries(env: Env, log: seq<Message>, call: Reply, f: Flags, s: Script)
    requires call.HasToolCall() && env.decodeJson(call.toolCalls[0].arguments).None?
    ensures CodeReview(env, log, call, f, s) == GetChatResponse(env, log, f.(decomposition := false), s)
  {
  }

  /** Outside developer mode a displayable call is run at once: the next tool
      output answers its first call and goes to the result check. */
  lemma CodeRunsWithoutReview(env: Env, log: seq<Message>, call: Reply, f: Flags, s: Script)
    requires call.HasToolCall() && env.decodeJson(call.toolCalls[0].arguments).Some?
    requires !f.developer && |s.outputs| > 0
    ensures CodeReview(env, log, call, f, s)
         == CheckFinal(env, log, call, Tool(call.toolCalls[0].id, s.outputs[0]), f.(decomposition := false),
                       s.(outputs := s.outputs[1..]))
    ensures Answers(call.AsMessage(), Tool(call.toolCalls[0].id, s.outputs[0]))
  {
  }

  /** A developer's correction records the raw argument text as a plain assistant
      message, never the tool call itself, followed by the correction, and asks
      again with those two entries to discard. */
  lemma DeveloperCorrection(env: Env, log: seq<Message>, call: Reply, f: Flags, s: Script)
    requires call.HasToolCall() && env.decodeJson(call.toolCalls[0].arguments).Some?
    requires f.developer && |s.inputs| > 1 && s.inputs[0] != "1"
    ensures var text := Assistant(call.toolCalls[0].arguments, []);
            && CodeReview(env, log, call, f, s)
               == GetChatResponse(env, log + [text] + [User(s.inputs[1])],
                                  f.(decomposition := false, pop := PopInt(2)), AfterInputs(s, 2))
            && !CallsTool(text)
  {
  }

  /** A developer's '1' runs the call with the next tool output. */
  lemma DeveloperApproval(env: Env, log: seq<Message>, call: Reply, f: Flags, s: Script)
    requires call.HasToolCall() && env.decodeJson(call.toolCalls[0].arguments).Some?
    requires f.developer && |s.inputs| > 0 && s.inputs[0] == "1" && |s.outputs| > 0
    ensures CodeReview(env, log, call, f, s)
         == CheckFinal(env, log, call, Tool(call.toolCalls[0].id, s.outputs[0]), f.(decomposition := false),
                       AfterInputs(s, 1).(outputs := s.outputs[1..]))
  {
    var g := f.(decomposition := false);
    assert CodeReview(env, log, call, f, s) == DeveloperReview(env, log, call, g, s);
    assert DeveloperReview(env, log, call, g, s) == Execute(env, log, call, g, AfterInputs(s, 1));
  }

  // ---------------------------------------------------------------------------
  // The result check and the repair dialogues

  /** Success: the call and then its result are appended to the same log, next to
      each other, and exactly one further turn runs with the flags unchanged. */
  lemma SuccessContinues(env: Env, log: seq<Message>, call: Reply, result: Message, f: Flags, s: Script)
    requires !f.decomposition && !IsFailure(result.content)
    ensures CheckFinal(env, log, call, result, f, s)
         == GetChatResponse(env, log + [call.AsMessage(), result], f, s)
  {
  }

  /** Fast repair: outside enhanced mode a failed run gets exactly one repair
      prompt, appended to the fork after the call and its result, followed by one
      turn with enhanced mode off. */
  lemma FastRepair(env: Env, log: seq<Message>, call: Reply, result: Message, f: Flags, s: Script)
    requires !f.enhanced && IsFailure(result.content)
    ensures CheckFinal(env, log, call, result, f, s)
         == GetChatResponse(env, log + [call.AsMessage(), result, User(FastRepairPrompt)],
                            f.(decomposition := false), s)
  {
    var fork := log + [call.AsMessage(), result];
    var g := f.(decomposition := false, enhanced := false);
    assert g == f.(decomposition := false);
    assert fork + [User(FastRepairPrompt)] == log + [call.AsMessage(), result, User(FastRepairPrompt)];
    assert CheckFinal(env, log, call, result, f, s) == RunRepair(env, fork, [FastRepairPrompt], g, s);
    OneRepairTurn(env, fork, FastRepairPrompt, g, s);
  }

  /** The turns of the deep repair dialogue: diagnose on the fork, then theorize
      on the log the first returned, then implement on the log the second
      returned, each with enhanced mode off; a turn that does not finish ends the
      dialogue with its own outcome. */
  function DeepRepairRun(env: Env, fork: seq<Message>, g: Flags, s: Script): Run {
    var t1 := GetChatResponse(env, fork + [User(DiagnosePrompt)], g, s);
    if !t1.status.Finished? then t1
    else
      var t2 := GetChatResponse(env, t1.log + [User(TheorizePrompt)], g, t1.script);
      if !t2.status.Finished? then t2.Prepend(t1.queries)
      else
        var t3 := GetChatResponse(env, t2.log + [User(ImplementPrompt)], g, t2.script);
        t3.Prepend(t2.queries).Prepend(t1.queries)
  }

  /** The repair driver runs a prompt list turn by turn, each prompt appended to
      the log the previous turn returned. */
  lemma RunRepairStep(env: Env, fork: seq<Message>, prompts: seq<string>, f: Flags, s: Script)
    requires |prompts| > 0
    ensures
      var t := GetChatResponse(env, fork + [User(prompts[0])], f, s);
      RunRepair(env, fork, prompts, f, s)
        == if !t.status.Finished? then t else RunRepair(env, t.log, prompts[1..], f, t.script).Prepend(t.queries)
  {
  }

  /** The three-prompt script unrolled. */
  lemma DeepRepairUnrolled(env: Env, fork: seq<Message>, g: Flags, s: Script)
    ensures RunRepair(env, fork, RepairPrompts(true), g, s) == DeepRepairRun(env, fork, g, s)
  {
    var ps := RepairPrompts(true);
    var t1 := GetChatResponse(env, fork + [User(DiagnosePrompt)], g, s);
    RunRepairStep(env, fork, ps, g, s);
    if t1.status.Finished? {
      assert ps[1..] == [TheorizePrompt, ImplementPrompt];
      TwoRepairTurns(env, t1.log, TheorizePrompt, ImplementPrompt, g, t1.script);
    }
  }

  /** A two-prompt script: the second turn runs only when the first finishes. */
  lemma TwoRepairTurns(env: Env, fork: seq<Message>, p1: string, p2: string, g: Flags, s: Script)
    ensures
      var t := GetChatResponse(env, fork + [User(p1)], g, s);
      RunRepair(env, fork, [p1, p2], g, s)
        == if !t.status.Finished? then t
           else GetChatResponse(env, t.log + [User(p2)], g, t.script).Prepend(t.queries)
  {
    var t := GetChatResponse(env, fork + [User(p1)], g, s);
    RunRepairStep(env, fork, [p1, p2], g, s);
    if t.status.Finished? {
      assert [p1, p2][1..] == [p2];
      OneRepairTurn(env, t.log, p2, g, t.script);
    }
  }

  /** A one-prompt script is a single turn. */
  lemma OneRepairTurn(env: Env, fork: seq<Message>, p: string, g: Flags, s: Script)
    ensures RunRepair(env, fork, [p], g, s) == GetChatResponse(env, fork + [User(p)], g, s)
  {
    var t := GetChatResponse(env, fork + [User(p)], g, s);
    RunRepairStep(env, fork, [p], g, s);
    if t.status.Finished? {
      assert [p][1..] == [];
      assert RunRepair(env, t.log, [], g, t.script) == Run(Finished, t.log, t.script, []);
      assert t.queries + [] == t.queries;
    }
  }

  /** Deep repair: in enhanced mode a failed run gets exactly the three prompts,
      diagnose, theorize, implement, in that order, none skipped, each followed by
      one full turn with enhanced mode off. */
  lemma DeepRepair(env: Env, log: seq<Message>, call: Reply, result: Message, f: Flags, s: Script)
    requires f.enhanced && IsFailure(result.content)
    ensures CheckFinal(env, log, call, result, f, s)
         == DeepRepairRun(env, log + [call.AsMessage(), result], f.(decomposition := false, enhanced := false), s)
  {
    var fork := log + [call.AsMessage(), result];
    var g := f.(decomposition := false, enhanced := false);
    assert CheckFinal(env, log, call, result, f, s) == RunRepair(env, fork, RepairPrompts(true), g, s);
    DeepRepairUnrolled(env, fork, g, s);
  }
}
