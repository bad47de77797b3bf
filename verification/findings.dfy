/** Two defects of the controller as written, each shown on a concrete input next
    to the repaired behaviour on the same input. */
module Findings {
  import opened ChatMessages
  import opened ToolOutput
  import opened CodeDisplay
  import opened ChatEngine
  import opened EngineProperties

  // ---------------------------------------------------------------------------
  // The plan re-query omits its client argument

  /** As written, every turn that reaches the plan re-query raises a TypeError
      instead of querying: at once when the flag is set on entry, and after the
      ordinary query when enhanced mode meets a tool call. */
  lemma DecompositionRaisesAsWritten(env: Env, log: seq<Message>, f: Flags, s: Script)
    requires env.cfg == AsWritten
    ensures f.decomposition ==> GetChatResponse(env, log, f, s) == Run(Raised(MissingLlmApi), log, s, [])
    ensures !f.decomposition && f.enhanced && |s.replies| > 0 && s.replies[0].HasToolCall() ==>
      GetChatResponse(env, log, f, s)
        == Run(Raised(MissingLlmApi), log, NextReply(s), [Query(log, env.functions, f.developer, false)])
  {
    var o := ObtainReply(env, log, f, s);
    if f.decomposition {
      assert o == NoReply(Raised(MissingLlmApi), s, []);
    } else if f.enhanced && |s.replies| > 0 && s.replies[0].HasToolCall() {
      assert o == NoReply(Raised(MissingLlmApi), NextReply(s), [Query(log, env.functions, f.developer, false)]);
    }
  }

  // ---------------------------------------------------------------------------
  // The scratch count outlives the turn it was requested for

  /** Developer mode, nothing to discard, no plan review. */
  const Developer: Flags := Flags(true, false, false, NoPop)

  /** The repair turn runs with the count the correction requested, as written,
      and with no count once repaired. */
  function RepairCount(cfg: Config): PopArg {
    if cfg.popOnlyOnce then NoPop else PopInt(2)
  }

  /** A developer-mode conversation on the log `[q]`: the first call `c1` is sent
      back with the correction `fix`, the second call `c2` is approved and its
      output `out` reports an error, and the repair turn's plain `answer` is
      accepted. */
  predicate LeakScenario(env: Env, c1: Reply, c2: Reply, answer: Reply, fix: string, out: string, s: Script) {
    && c1.HasToolCall() && env.decodeJson(c1.toolCalls[0].arguments).Some?
    && c2.HasToolCall() && env.decodeJson(c2.toolCalls[0].arguments).Some?
    && !answer.HasToolCall() && IsFailure(out)
    && s == Script([c1, c2, answer], ["2", fix, "1", "1"], [out])
  }

  /** The fork the repair turn starts from: the question, the failed call, its
      result and the repair prompt. */
  function RepairFork(q: Message, c2: Reply, out: string): seq<Message>
    requires c2.HasToolCall()
  {
    [q] + [c2.AsMessage(), Tool(c2.toolCalls[0].id, out), User(FastRepairPrompt)]
  }

  /** The log after the first call is sent back with a correction. */
  function AfterCorrection(q: Message, c1: Reply, fix: string): seq<Message>
    requires c1.HasToolCall()
  {
    [q] + [Assistant(c1.toolCalls[0].arguments, [])] + [User(fix)]
  }

  /** First step of the leak scenario: the correction re-enters with two entries
      to discard. */
  lemma LeakCorrection(env: Env, q: Message, c1: Reply, s: Script)
    requires c1.HasToolCall() && env.decodeJson(c1.toolCalls[0].arguments).Some?
    requires |s.replies| > 0 && s.replies[0] == c1 && |s.inputs| > 1 && s.inputs[0] == "2"
    ensures GetChatResponse(env, [q], Developer, s).log
         == GetChatResponse(env, AfterCorrection(q, c1, s.inputs[1]), Developer.(pop := PopInt(2)), AfterInputs(NextReply(s), 2)).log
  {
    var s1 := NextReply(s);
    FirstCallReviewed(env, q, c1, s);
    assert CodeReview(env, [q], c1, Developer, s1)
        == GetChatResponse(env, AfterCorrection(q, c1, s.inputs[1]), Developer.(pop := PopInt(2)), AfterInputs(s1, 2)) by {
      DeveloperCorrection(env, [q], c1, Developer, s1);
    }
  }

  /** The first reply of the scenario is a call, put to the developer on `[q]`. */
  lemma FirstCallReviewed(env: Env, q: Message, c1: Reply, s: Script)
    requires c1.HasToolCall() && |s.replies| > 0 && s.replies[0] == c1
    ensures GetChatResponse(env, [q], Developer, s).log == CodeReview(env, [q], c1, Developer, NextReply(s)).log
  {
    var s1 := NextReply(s);
    assert GetChatResponse(env, [q], Developer, s).log == Route(env, [q], c1, Developer, s1).log by {
      OrdinaryTurn(env, [q], Developer, s);
    }
    assert Route(env, [q], c1, Developer, s1) == CodeReview(env, [q], c1, Developer, s1) by {
      RouteByKind(env, [q], c1, Developer, s1);
      assert Kept([q], Developer) == [q];
      assert Developer.(pop := Downstream(env.cfg, Developer.pop)) == Developer;
    }
  }

  /** Second step: the corrected turn pops the two entries, the second call is
      approved, fails, and goes to the repair turn on the fork. */
  lemma LeakApproval(env: Env, q: Message, c1: Reply, c2: Reply, fix: string, s: Script)
    requires c1.HasToolCall() && c2.HasToolCall() && env.decodeJson(c2.toolCalls[0].arguments).Some?
    requires |s.replies| > 0 && s.replies[0] == c2 && |s.inputs| > 0 && s.inputs[0] == "1"
    requires |s.outputs| > 0 && IsFailure(s.outputs[0])
    ensures GetChatResponse(env, AfterCorrection(q, c1, fix), Developer.(pop := PopInt(2)), s).log
         == GetChatResponse(env, RepairFork(q, c2, s.outputs[0]), Developer.(pop := RepairCount(env.cfg)),
                            AfterInputs(NextReply(s), 1).(outputs := s.outputs[1..])).log
  {
    var corrected := AfterCorrection(q, c1, fix);
    var f2 := Developer.(pop := PopInt(2));
    var h := Developer.(pop := RepairCount(env.cfg));
    var s3 := NextReply(s);
    var s4 := AfterInputs(s3, 1).(outputs := s3.outputs[1..]);
    var result := Tool(c2.toolCalls[0].id, s.outputs[0]);
    assert GetChatResponse(env, corrected, f2, s).log == Route(env, corrected, c2, f2, s3).log by {
      OrdinaryTurn(env, corrected, f2, s);
    }
    assert Route(env, corrected, c2, f2, s3) == CodeReview(env, [q], c2, h, s3) by {
      RouteByKind(env, corrected, c2, f2, s3);
      assert Kept(corrected, f2) == [q];
      assert f2.(pop := Downstream(env.cfg, f2.pop)) == h;
    }
    assert CodeReview(env, [q], c2, h, s3) == CheckFinal(env, [q], c2, result, h, s4) by {
      DeveloperApproval(env, [q], c2, h, s3);
    }
    assert CheckFinal(env, [q], c2, result, h, s4) == GetChatResponse(env, RepairFork(q, c2, s.outputs[0]), h, s4) by {
      FastRepair(env, [q], c2, result, h, s4);
      assert h.(decomposition := false) == h;
    }
  }

  /** The leak scenario down to the repair turn. */
  lemma LeakReachesRepair(env: Env, q: Message, c1: Reply, c2: Reply, answer: Reply, fix: string, out: string, s: Script)
    requires LeakScenario(env, c1, c2, answer, fix, out, s)
    ensures GetChatResponse(env, [q], Developer, s).log
         == GetChatResponse(env, RepairFork(q, c2, out), Developer.(pop := RepairCount(env.cfg)),
                            Script([answer], ["1"], [])).log
  {
    LeakCorrection(env, q, c1, s);
    var s2 := AfterInputs(NextReply(s), 2);
    assert s2 == Script([c2, answer], ["1", "1"], [out]);
    LeakApproval(env, q, c1, c2, fix, s2);
    assert AfterInputs(NextReply(s2), 1).(outputs := s2.outputs[1..]) == Script([answer], ["1"], []);
  }

  /** The accepted repair answer, recorded after the repair turn's pop. */
  lemma RepairTurnResult(env: Env, fork: seq<Message>, answer: Reply, h: Flags, s: Script)
    requires !answer.HasToolCall() && h.developer && !h.decomposition && !h.enhanced && PopCount(h.pop) <= |fork|
    requires |s.replies| == 1 && s.replies[0] == answer && |s.inputs| > 0 && s.inputs[0] == "1"
    ensures GetChatResponse(env, fork, h, s).log == fork[..|fork| - PopCount(h.pop)] + [answer.AsMessage()]
  {
    var s1 := NextReply(s);
    var g := h.(pop := Downstream(env.cfg, h.pop));
    assert GetChatResponse(env, fork, h, s).log == Route(env, fork, answer, h, s1).log by {
      OrdinaryTurn(env, fork, h, s);
    }
    assert Route(env, fork, answer, h, s1) == TextReview(env, Kept(fork, h), answer, g, s1) by {
      RouteByKind(env, fork, answer, h, s1);
    }
    assert TextReview(env, Kept(fork, h), answer, g, s1).log == Kept(fork, h) + [answer.AsMessage()] by {
      TextReviewChoices(env, Kept(fork, h), answer, g, s1);
    }
  }

  /** As written, the repair turn pops two entries: the repair prompt and the
      tool result. */
  lemma AsWrittenRepairTurn(env: Env, q: Message, c2: Reply, answer: Reply, out: string)
    requires env.cfg == AsWritten && c2.HasToolCall() && !answer.HasToolCall()
    ensures GetChatResponse(env, RepairFork(q, c2, out), Developer.(pop := RepairCount(env.cfg)), Script([answer], ["1"], [])).log
         == [q, c2.AsMessage(), answer.AsMessage()]
  {
    var fork := RepairFork(q, c2, out);
    var h := Developer.(pop := RepairCount(env.cfg));
    RepairTurnResult(env, fork, answer, h, Script([answer], ["1"], []));
    assert PopCount(h.pop) == 2;
    ForkWithoutRepair(q, c2, out, answer);
  }

  /** Popping two entries from the fork removes the repair prompt and the result. */
  lemma ForkWithoutRepair(q: Message, c2: Reply, out: string, answer: Reply)
    requires c2.HasToolCall()
    ensures var fork := RepairFork(q, c2, out);
      fork[..|fork| - 2] + [answer.AsMessage()] == [q, c2.AsMessage(), answer.AsMessage()]
  {
    assert RepairFork(q, c2, out)[..2] == [q, c2.AsMessage()];
  }

  /** Repaired, the repair turn pops nothing. */
  lemma CorrectedRepairTurn(env: Env, q: Message, c2: Reply, answer: Reply, out: string)
    requires env.cfg == Corrected && c2.HasToolCall() && !answer.HasToolCall()
    ensures GetChatResponse(env, RepairFork(q, c2, out), Developer.(pop := RepairCount(env.cfg)), Script([answer], ["1"], [])).log
         == RepairFork(q, c2, out) + [answer.AsMessage()]
  {
    var fork := RepairFork(q, c2, out);
    var h := Developer.(pop := RepairCount(env.cfg));
    RepairTurnResult(env, fork, answer, h, Script([answer], ["1"], []));
    assert PopCount(h.pop) == 0;
    WholeSlice(fork);
  }

  lemma WholeSlice<T>(s: seq<T>)
    ensures s[..|s| - 0] == s
  {
  }

  /** A call followed by a plain answer is not paired. */
  lemma OrphanedCall(q: Message, c2: Reply, answer: Reply)
    requires c2.HasToolCall() && !answer.HasToolCall()
    ensures !WellPaired([q, c2.AsMessage(), answer.AsMessage()])
  {
    var log := [q, c2.AsMessage(), answer.AsMessage()];
    assert CallsTool(log[1]) && !Answers(log[1], log[2]);
  }

  /** The repair fork with the answer is paired when the question is plain. */
  lemma ForkPaired(q: Message, c2: Reply, out: string, answer: Reply)
    requires c2.HasToolCall() && !CallsTool(q) && !q.Tool? && !answer.HasToolCall()
    ensures WellPaired(RepairFork(q, c2, out) + [answer.AsMessage()])
  {
    PlainCallResultPlain(q, c2.AsMessage(), Tool(c2.toolCalls[0].id, out), User(FastRepairPrompt), answer.AsMessage());
  }

  /** A plain message, an answered call and two plain messages form a paired log. */
  lemma PlainCallResultPlain(q: Message, call: Message, result: Message, p: Message, m: Message)
    requires !CallsTool(q) && !q.Tool? && Answers(call, result)
    requires !CallsTool(p) && !p.Tool? && !CallsTool(m) && !m.Tool?
    ensures WellPaired([q] + [call, result, p] + [m])
  {
    AppendPlainKeepsPairing([], q);
    assert [] + [q] == [q];
    AppendAnsweredCallKeepsPairing([q], call, result);
    AppendPlainKeepsPairing([q] + [call, result], p);
    AppendPlainKeepsPairing([q] + [call, result] + [p], m);
    assert [q] + [call, result] + [p] + [m] == [q] + [call, result, p] + [m];
  }

  /** As written: after a developer correction, the count of two is handed on to
      the repair turn of a later failed call, which pops the repair prompt and
      the tool result, leaving the second call with no result after it. */
  lemma LeakedPopOrphansToolCall(env: Env, q: Message, c1: Reply, c2: Reply, answer: Reply, fix: string, out: string, s: Script)
    requires env.cfg == AsWritten && LeakScenario(env, c1, c2, answer, fix, out, s)
    ensures GetChatResponse(env, [q], Developer, s).log == [q, c2.AsMessage(), answer.AsMessage()]
    ensures !WellPaired(GetChatResponse(env, [q], Developer, s).log)
  {
    LeakReachesRepair(env, q, c1, c2, answer, fix, out, s);
    AsWrittenRepairTurn(env, q, c2, answer, out);
    OrphanedCall(q, c2, answer);
  }

  /** Repaired: the count applies to the turn it was requested for only, so the
      same conversation keeps the second call, its result, the repair prompt and
      the answer, and stays paired whenever the question is plain. */
  lemma CorrectedRunKeepsPair(env: Env, q: Message, c1: Reply, c2: Reply, answer: Reply, fix: string, out: string, s: Script)
    requires env.cfg == Corrected && LeakScenario(env, c1, c2, answer, fix, out, s)
    ensures GetChatResponse(env, [q], Developer, s).log == RepairFork(q, c2, out) + [answer.AsMessage()]
    ensures !CallsTool(q) && !q.Tool? ==> WellPaired(GetChatResponse(env, [q], Developer, s).log)
  {
    LeakReachesRepair(env, q, c1, c2, answer, fix, out, s);
    CorrectedRepairTurn(env, q, c2, answer, out);
    if !CallsTool(q) && !q.Tool? {
      ForkPaired(q, c2, out, answer);
    }
  }
}
