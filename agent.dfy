/**
  The top-level loop of main.py: a conversation seeded with the system prompt
  and the user's command, at most `MaxTurns - 1` passes, each asking the
  language model for a reply, extracting requested actions from it and running
  the first one, whose result is appended as a user turn.

  The language model, the extractor and everything `restart_application`
  reads from outside (the registry file, the environment, the repository
  service and the clock) are parameters. The language model and the outside
  world are functions of the conversation so far, which strictly grows on
  every pass that continues; the extractor is a function of the reply.
 */
module Agent {
  import opened Wrappers
  import opened Restart

  datatype Role = System | User

  datatype Message = Message(role: Role, content: string)

  /**
    One element of the extractor's result: `function_name` and
    `function_parms`, each `None` when the key is absent.
   */
  datatype Request = Request(functionName: Option<string>, functionParms: Option<map<string, string>>)

  /** The parts of the loop's world it cannot see into. */
  datatype Env = Env(
    reply: seq<Message> -> string,      // generate_text_with_conversation
    extract: string -> seq<Request>,    // extract_json
    world: seq<Message> -> World)       // what restart_application reads at that moment

  const MaxTurns := 5

  /** `available_actions`. */
  const Registry: set<string> := {"restart_application"}

  /** The keyword parameters of `restart_application`. */
  const Parameters: set<string> := {"customer_name", "environment", "application"}

  const ResponsePrefix := "Action_Response: "

  /** An exception that ends the script. */
  datatype Failure =
    | KeyMissing(key: string)                                // KeyError on the request
    | UnknownAction(name: string, parms: map<string, string>) // "Unknown action: ..."
    | BadArguments                                           // TypeError from the keyword call
    | ActionRaised(error: Error)                             // escaped from the action

  /** What one pass of the loop does after the loop test. */
  datatype Pass = Stop | Abort(failure: Failure) | Append(content: string)

  /** How the loop ended: no request, the turn budget spent, or an exception. */
  datatype Status = Stopped | Exhausted | Failed(failure: Failure)

  /** The conversation, the way the script ended and the final `turn_count`. */
  datatype Final = Final(messages: seq<Message>, status: Status, turnCount: int)

  function Seed(systemPrompt: string, userPrompt: string): seq<Message> {
    [Message(System, systemPrompt), Message(User, userPrompt)]
  }

  /** Running one request: read both keys, look the name up, call with the parameters as keywords. */
  function Dispatch(req: Request, w: World): (p: Pass)
    ensures !p.Stop?
    ensures p.Append? <==>
      && req.functionName == Some("restart_application")
      && req.functionParms.Some? && req.functionParms.value.Keys == Parameters
      && Restart.Restart(req.functionParms.value["customer_name"], req.functionParms.value["environment"],
                 req.functionParms.value["application"], w).outcome.Returned?
    ensures p.Append? ==> p.content == ResponsePrefix + Restart.Restart(req.functionParms.value["customer_name"],
      req.functionParms.value["environment"], req.functionParms.value["application"], w).outcome.text
  {
    if req.functionName.None? then Abort(KeyMissing("function_name"))
    else if req.functionParms.None? then Abort(KeyMissing("function_parms"))
    else
      var name, parms := req.functionName.value, req.functionParms.value;
      if name !in Registry then Abort(UnknownAction(name, parms))
      else if parms.Keys != Parameters then Abort(BadArguments)
      else
        match Restart.Restart(parms["customer_name"], parms["environment"], parms["application"], w).outcome
        case Returned(text) => Append(ResponsePrefix + text)
        case Raised(e) => Abort(ActionRaised(e))
  }

  /** One pass over the conversation so far. */
  function Step(env: Env, messages: seq<Message>): Pass {
    var found := env.extract(env.reply(messages));
    if |found| == 0 then Stop else Dispatch(found[0], env.world(messages))
  }

  /** `Step` as a value, for the loop below. */
  function Passes(env: Env): seq<Message> -> Pass {
    messages => Step(env, messages)
  }

  /**
    The loop from a given conversation and `turn_count` on, for any behaviour
    `step` of a single pass.
   */
  function Run(step: seq<Message> -> Pass, messages: seq<Message>, turnCount: int): Final
    decreases MaxTurns - turnCount
  {
    if turnCount >= MaxTurns then Final(messages, Exhausted, turnCount)
    else
      match step(messages)
      case Stop => Final(messages, Stopped, turnCount + 1)
      case Abort(f) => Final(messages, Status.Failed(f), turnCount + 1)
      case Append(content) => Run(step, messages + [Message(User, content)], turnCount + 1)
  }

  /** The whole script after `input()`. */
  function Conversation(systemPrompt: string, userPrompt: string, env: Env): Final {
    Run(Passes(env), Seed(systemPrompt, userPrompt), 1)
  }

  /** The request handling of one pass, calling the action itself. */
  method DispatchRequest(req: Request, w: World) returns (p: Pass)
    ensures p == Dispatch(req, w)
  {
    if req.functionName.None? {
      return Abort(KeyMissing("function_name"));
    }
    if req.functionParms.None? {
      return Abort(KeyMissing("function_parms"));
    }
    var name, parms := req.functionName.value, req.functionParms.value;
    if name !in Registry {
      return Abort(UnknownAction(name, parms));
    }
    if parms.Keys != Parameters {
      return Abort(BadArguments);
    }
    var outcome, _ := RestartApplication(parms["customer_name"], parms["environment"], parms["application"], w);
    if outcome.Raised? {
      return Abort(ActionRaised(outcome.error));
    }
    p := Append(ResponsePrefix + outcome.text);
  }

  /** The `while turn_count < max_turns` loop, appending to `messages` as it goes. */
  method Converse(systemPrompt: string, userPrompt: string, env: Env) returns (r: Final)
    ensures r == Conversation(systemPrompt, userPrompt, env)
  {
    var messages := Seed(systemPrompt, userPrompt);
    var turnCount := 1;
    while turnCount < MaxTurns
      invariant 1 <= turnCount <= MaxTurns
      invariant Run(Passes(env), messages, turnCount) == Conversation(systemPrompt, userPrompt, env)
      decreases MaxTurns - turnCount
    {
      var asked := messages;
      turnCount := turnCount + 1;
      var response := env.reply(messages);
      var found := env.extract(response);
      if |found| == 0 {
        return Final(messages, Stopped, turnCount);
      }
      var p := DispatchRequest(found[0], env.world(messages));
      if p.Abort? {
        return Final(messages, Status.Failed(p.failure), turnCount);
      }
      messages := messages + [Message(User, p.content)];
      assert Run(Passes(env), asked, turnCount - 1) == Run(Passes(env), messages, turnCount);
    }
    r := Final(messages, Exhausted, turnCount);
  }

  /** Only the first extracted request is run; the others are ignored. */
  lemma OnlyFirstRequestRuns(env: Env, messages: seq<Message>, first: Request, rest: seq<Request>)
    requires env.extract(env.reply(messages)) == [first] + rest
    ensures Step(env, messages) == Dispatch(first, env.world(messages))
  {
  }

  /** An unregistered name raises before any action runs, whatever the world holds. */
  lemma UnknownActionRaises(req: Request, w1: World, w2: World)
    requires req.functionName.Some? && req.functionParms.Some?
    requires req.functionName.value != "restart_application"
    ensures Dispatch(req, w1) == Dispatch(req, w2)
         == Abort(UnknownAction(req.functionName.value, req.functionParms.value))
  {
  }

  /**
    How the loop ends: `turn_count` never passes `MaxTurns`; every pass but a
    final stopping or raising one appends exactly one turn; a stop or an
    exception comes from the pass on the final conversation.
   */
  lemma {:induction false} RunEnds(step: seq<Message> -> Pass, messages: seq<Message>, turnCount: int)
    requires 1 <= turnCount <= MaxTurns
    ensures var r := Run(step, messages, turnCount);
      && turnCount <= r.turnCount <= MaxTurns
      && (turnCount < MaxTurns ==> turnCount < r.turnCount)
      && (r.status.Exhausted? ==> r.turnCount == MaxTurns && |r.messages| == |messages| + (r.turnCount - turnCount))
      && (r.status.Stopped? ==> step(r.messages) == Stop && |r.messages| == |messages| + (r.turnCount - turnCount) - 1)
      && (r.status.Failed? ==> step(r.messages) == Abort(r.status.failure)
                               && |r.messages| == |messages| + (r.turnCount - turnCount) - 1)
    decreases MaxTurns - turnCount
  {
    if turnCount < MaxTurns && step(messages).Append? {
      RunEnds(step, messages + [Message(User, step(messages).content)], turnCount + 1);
    }
  }

  /** The conversation only grows: it keeps what it started with. */
  lemma {:induction false} RunKeepsPrefix(step: seq<Message> -> Pass, messages: seq<Message>, turnCount: int)
    ensures var r := Run(step, messages, turnCount);
      |messages| <= |r.messages| && r.messages[..|messages|] == messages
    decreases MaxTurns - turnCount
  {
    if turnCount < MaxTurns && step(messages).Append? {
      var next := messages + [Message(User, step(messages).content)];
      RunKeepsPrefix(step, next, turnCount + 1);
      var r := Run(step, next, turnCount + 1);
      assert r.messages[..|messages|] == r.messages[..|next|][..|messages|];
    }
  }

  /**
    Every turn added is a user turn holding exactly what the pass on the
    conversation before it appended; replies are never added.
   */
  lemma {:induction false} RunAppends(step: seq<Message> -> Pass, messages: seq<Message>, turnCount: int, k: int)
    requires |messages| <= k < |Run(step, messages, turnCount).messages|
    ensures var r := Run(step, messages, turnCount);
      r.messages[k].role == User && step(r.messages[..k]) == Append(r.messages[k].content)
    decreases MaxTurns - turnCount
  {
    var content := step(messages).content;
    var next := messages + [Message(User, content)];
    var r := Run(step, next, turnCount + 1);
    RunKeepsPrefix(step, next, turnCount + 1);
    if k == |messages| {
      assert r.messages[k] == next[k];
      assert r.messages[..k] == r.messages[..k + 1][..k];
    } else {
      RunAppends(step, next, turnCount + 1, k);
    }
  }


  /** An appended turn always starts with the response prefix. */
  lemma AppendedResponse(env: Env, messages: seq<Message>, content: string)
    requires Step(env, messages) == Append(content)
    ensures |ResponsePrefix| <= |content| && content[..|ResponsePrefix|] == ResponsePrefix
  {
  }

  /**
    The script as a whole: between one and `MaxTurns - 1` passes; the
    conversation starts with the system turn then the user's command, and has
    one more turn per pass that appended; the script stops or raises only on
    the pass over the final conversation.
   */
  lemma ConversationEnds(systemPrompt: string, userPrompt: string, env: Env)
    ensures var r := Conversation(systemPrompt, userPrompt, env);
      && 2 <= r.turnCount <= MaxTurns
      && |r.messages| == (if r.status.Exhausted? then r.turnCount + 1 else r.turnCount)
      && r.messages[..2] == Seed(systemPrompt, userPrompt)
      && (r.status.Stopped? ==> env.extract(env.reply(r.messages)) == [])
      && (r.status.Failed? ==> Step(env, r.messages) == Abort(r.status.failure))
  {
    var seed, step := Seed(systemPrompt, userPrompt), Passes(env);
    var r := Run(step, seed, 1);
    assert Conversation(systemPrompt, userPrompt, env) == r;
    RunEnds(step, seed, 1);
    RunKeepsPrefix(step, seed, 1);
    if r.status.Stopped? {
      assert Step(env, r.messages) == step(r.messages) == Stop;
    } else if r.status.Failed? {
      assert Step(env, r.messages) == step(r.messages);
    }
  }

  /**
    Every turn after the seed is a user turn `Action_Response: ...` holding
    what the first request extracted from the reply to the conversation
    before it returned.
   */
  lemma ConversationTurns(systemPrompt: string, userPrompt: string, env: Env, k: int)
    requires var r := Conversation(systemPrompt, userPrompt, env); 2 <= k < |r.messages|
    ensures var r := Conversation(systemPrompt, userPrompt, env);
      && r.messages[k].role == User
      && Step(env, r.messages[..k]) == Append(r.messages[k].content)
      && |ResponsePrefix| <= |r.messages[k].content|
      && r.messages[k].content[..|ResponsePrefix|] == ResponsePrefix
  {
    var seed := Seed(systemPrompt, userPrompt);
    var r := Conversation(systemPrompt, userPrompt, env);
    RunAppends(Passes(env), seed, 1, k);
    AppendedResponse(env, r.messages[..k], r.messages[k].content);
  }
}
