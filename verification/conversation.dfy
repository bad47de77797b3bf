/** The agent's single-question entry: the question is appended as a user message
    and one turn runs with the agent's two modes, no plan review and nothing to
    discard. */
module Conversation {
  import opened ChatMessages
  import opened ChatEngine

  /** The flags the agent starts every turn with. */
  function EntryFlags(developer: bool, enhanced: bool): Flags {
    Flags(developer, enhanced, false, NoPop)
  }

  /** Asks one question. Its first query is made on the log with the question
      appended. When the log it starts from is paired, every log the turn sends
      to the model and the log it returns are paired, provided a scratch count
      applies to one turn only, or developer mode is off and the plan re-query is
      never reached, which holds for the controller as written. */
  function AskQuestion(env: Env, log: seq<Message>, question: string, developer: bool, enhanced: bool, s: Script): (r: Run)
    ensures Accounted(env, developer, s, r)
    ensures |r.queries| > 0 ==> r.queries[0] == Query(log + [User(question)], env.functions, developer, false)
    ensures r.status.Finished? ==> |r.script.replies| < |s.replies|
    ensures WellPaired(log) && (env.cfg.popOnlyOnce || (!env.cfg.decompositionPassesApi && !developer)) ==> Paired(r)
  {
    EntrySafe(env.cfg, log, question, developer, enhanced);
    GetChatResponse(env, log + [User(question)], EntryFlags(developer, enhanced), s)
  }

  /** A paired log with the question appended is a safe entry to a turn that
      discards nothing, under the settings named above. */
  lemma EntrySafe(cfg: Config, log: seq<Message>, question: string, developer: bool, enhanced: bool)
    ensures WellPaired(log) && (cfg.popOnlyOnce || (!cfg.decompositionPassesApi && !developer))
            ==> TurnSafe(cfg, log + [User(question)], EntryFlags(developer, enhanced))
  {
    AppendPlainKeepsPairing(log, User(question));
  }

  /** With both defects repaired, pairing holds in every mode. */
  lemma CorrectedConversationStaysPaired(env: Env, log: seq<Message>, question: string, developer: bool, enhanced: bool, s: Script)
    requires env.cfg == Corrected && WellPaired(log)
    ensures Paired(AskQuestion(env, log, question, developer, enhanced, s))
    ensures AskQuestion(env, log, question, developer, enhanced, s).status != Raised(MissingLlmApi)
  {
  }

  /** As written, pairing holds whenever developer mode is off. */
  lemma AsWrittenConversationStaysPaired(env: Env, log: seq<Message>, question: string, enhanced: bool, s: Script)
    requires env.cfg == AsWritten && WellPaired(log)
    ensures Paired(AskQuestion(env, log, question, false, enhanced, s))
  {
  }
}
