/** `CommandProcessor.processCommand` (src/services/commandProcessor.ts): match the
    normalised input against the command table and execute the matched command, or
    fall back to the backend selected by the processor's mode. */
module Processor {
  import opened Types
  import opened Text
  import opened Intents
  import opened Actions
  import opened Backends

  /** Everything outside the processor that decides one call: which capability calls
      succeed, the `Math.random()` draw, and the outcomes of the two network calls. */
  datatype Environment = Environment(
    caps: Capabilities,
    random: UnitInterval,
    cloud: HttpOutcome<Completion>,
    local: HttpOutcome<Generation>)

  /** The settled promise: a response with the calls made on the way, or a rejection
      (the error toast of `executeAction` itself failed) after the calls made. */
  datatype ProcessResult =
    | Resolved(response: AIResponse, effects: seq<Effect>, request: Option<HttpRequest>)
    | Rejected(effects: seq<Effect>)

  const EXECUTED_PREFIX := "Executed: "

  /** The AI fallback for an unmatched input: offline, cloud, and anything else is local. */
  function Fallback(mode: string, apiKey: Option<string>, input: string, env: Environment): (b: BackendReply)
    ensures mode == "offline" ==> b.request.None? && b.message in OFFLINE_REPLIES
    ensures mode == "cloud" ==> b == ProcessCloud(apiKey, input, env.cloud)
    ensures mode != "offline" && mode != "cloud" ==> b == ProcessLocal(input, env.local)
  {
    if mode == "offline" then BackendReply(None, OfflineReply(env.random))
    else if mode == "cloud" then ProcessCloud(apiKey, input, env.cloud)
    else ProcessLocal(input, env.local)
  }

  /** What `processCommand(input)` settles to, under processor mode and key. */
  function Respond(mode: string, apiKey: Option<string>, input: string, stamp: Stamp, env: Environment): ProcessResult
  {
    Settle(FirstMatch(COMMANDS, Normalize(input)), mode, apiKey, input, stamp, env)
  }

  /** The result once keyword detection has returned `matched`. */
  function Settle(matched: Option<Command>, mode: string, apiKey: Option<string>, input: string, stamp: Stamp,
                  env: Environment): ProcessResult
  {
    match matched
    case Some(c) => Executed(c, stamp, env.caps)
    case None => Answered(mode, apiKey, input, stamp, env)
  }

  /** A matched command: its action runs, then the reply names the command. */
  function Executed(c: Command, stamp: Stamp, caps: Capabilities): ProcessResult
  {
    var x := ExecuteAction(c.action, Some(c.id), None, caps);
    if x.raised then Rejected(x.effects)
    else Resolved(AIResponse(stamp.id, EXECUTED_PREFIX + c.description, stamp.time, Ai,
                             Some(ActionDescriptor(c.action, None, None))),
                  x.effects, None)
  }

  /** No command matched: the mode's backend answers the raw input. */
  function Answered(mode: string, apiKey: Option<string>, input: string, stamp: Stamp, env: Environment): ProcessResult
  {
    var b := Fallback(mode, apiKey, input, env);
    Resolved(AIResponse(stamp.id, b.message, stamp.time, Ai, None), [], b.request)
  }

  /** A command of the table hits the normalised input. */
  predicate Recognised(input: string)
  {
    exists k | 0 <= k < |COMMANDS| :: Hits(COMMANDS[k], Normalize(input))
  }

  class CommandProcessor {
    var aiMode: string
    var aiApiKey: Option<string>

    /** `new CommandProcessor(aiMode = 'offline', apiKey?)`. */
    constructor (mode: string := "offline", apiKey: Option<string> := None)
      ensures aiMode == mode && aiApiKey == apiKey
    {
      aiMode := mode;
      aiApiKey := apiKey;
    }

    /** `processCommand(input)`: keyword detection on the normalised text, then either
        the command's action or the mode's backend on the raw text. */
    method ProcessCommand(input: string, stamp: Stamp, env: Environment) returns (r: ProcessResult)
      ensures r == Respond(aiMode, aiApiKey, input, stamp, env)
      ensures r.Resolved? ==> r.response.kind == Ai && r.response.id == stamp.id && r.response.timestamp == stamp.time
      ensures r.Resolved? ==> (r.response.action.Some? <==> Recognised(input))
    {
      var normalized := Normalize(input);
      var keyword := DetectKeyword(normalized);
      if keyword.Some? {
        var c := keyword.value;
        var x := ExecuteAction(c.action, Some(c.id), None, env.caps);
        if x.raised {
          return Rejected(x.effects);
        }
        return Resolved(AIResponse(stamp.id, EXECUTED_PREFIX + c.description, stamp.time, Ai,
                                   Some(ActionDescriptor(c.action, None, None))),
                        x.effects, None);
      }
      var b := Fallback(aiMode, aiApiKey, input, env);
      r := Resolved(AIResponse(stamp.id, b.message, stamp.time, Ai, None), [], b.request);
    }
  }

  /** Every response comes from the assistant and carries the given id and time. */
  lemma RespondStamped(mode: string, apiKey: Option<string>, input: string, stamp: Stamp, env: Environment)
    ensures var r := Respond(mode, apiKey, input, stamp, env);
      r.Resolved? ==> r.response.kind == Ai && r.response.id == stamp.id && r.response.timestamp == stamp.time
  {
    SettleStamped(FirstMatch(COMMANDS, Normalize(input)), mode, apiKey, input, stamp, env);
  }

  /** Whatever keyword detection returned, a resolved reply is the processor's, stamped. */
  lemma SettleStamped(matched: Option<Command>, mode: string, apiKey: Option<string>, input: string, stamp: Stamp,
                      env: Environment)
    ensures var r := Settle(matched, mode, apiKey, input, stamp, env);
      r.Resolved? ==> r.response.kind == Ai && r.response.id == stamp.id && r.response.timestamp == stamp.time
  {
    if matched.Some? {
      ExecutedShape(matched.value, stamp, env.caps);
    } else {
      AnsweredShape(mode, apiKey, input, stamp, env);
    }
  }

  /** What running a matched command settles to. */
  lemma ExecutedShape(c: Command, stamp: Stamp, caps: Capabilities)
    ensures var x := ExecuteAction(c.action, Some(c.id), None, caps);
      var r := Executed(c, stamp, caps);
      r.effects == x.effects && (r.Rejected? <==> x.raised) &&
      (r.Resolved? ==> r.response == AIResponse(stamp.id, EXECUTED_PREFIX + c.description, stamp.time, Ai,
                                                Some(ActionDescriptor(c.action, None, None)))
                       && r.request.None?)
  {
  }

  /** What the fallback settles to. */
  lemma AnsweredShape(mode: string, apiKey: Option<string>, input: string, stamp: Stamp, env: Environment)
    ensures var b := Fallback(mode, apiKey, input, env);
      Answered(mode, apiKey, input, stamp, env) ==
        Resolved(AIResponse(stamp.id, b.message, stamp.time, Ai, None), [], b.request)
  {
  }

  /** A recognised input has a first matching command in the table. */
  lemma RecognisedMatch(input: string)
    requires Recognised(input)
    ensures FirstMatch(COMMANDS, Normalize(input)).Some?
    ensures FirstMatch(COMMANDS, Normalize(input)).value in COMMANDS
  {
    var k :| 0 <= k < |COMMANDS| && Hits(COMMANDS[k], Normalize(input));
    HitIsMatched(COMMANDS, Normalize(input), k);
  }

  /** A recognised input executes the first matching command: the reply names it, the
      action descriptor carries its action, no backend is contacted, and the promise
      rejects exactly when the execution does. */
  lemma RecognisedExecutes(mode: string, apiKey: Option<string>, input: string, stamp: Stamp, env: Environment)
    requires Recognised(input)
    ensures var c := FirstMatch(COMMANDS, Normalize(input));
      c.Some? && c.value in COMMANDS &&
      var x := ExecuteAction(c.value.action, Some(c.value.id), None, env.caps);
      var r := Respond(mode, apiKey, input, stamp, env);
      r.effects == x.effects &&
      (r.Rejected? <==> x.raised) &&
      (r.Resolved? ==> r.response.message == EXECUTED_PREFIX + c.value.description
                       && r.response.action == Some(ActionDescriptor(c.value.action, None, None))
                       && r.request.None?)
  {
    RecognisedMatch(input);
    var c := FirstMatch(COMMANDS, Normalize(input)).value;
    assert Respond(mode, apiKey, input, stamp, env) == Executed(c, stamp, env.caps);
    ExecutedShape(c, stamp, env.caps);
  }

  /** An unrecognised input runs no action: the reply is the backend's, with no action
      descriptor, and only the backend of the current mode may be contacted. */
  lemma UnrecognisedFallsBack(mode: string, apiKey: Option<string>, input: string, stamp: Stamp, env: Environment)
    requires !Recognised(input)
    ensures var r := Respond(mode, apiKey, input, stamp, env);
      r.Resolved? && r.effects == [] && r.response.action.None? && r.response.kind == Ai &&
      (mode == "offline" ==> r.request.None? && r.response.message in OFFLINE_REPLIES) &&
      (mode == "cloud" ==> (r.request.None? <==> !Truthy(apiKey))
                           && (!Truthy(apiKey) ==> r.response.message == CLOUD_KEY_REQUIRED)
                           && r.request == ProcessCloud(apiKey, input, env.cloud).request
                           && r.response.message == ProcessCloud(apiKey, input, env.cloud).message) &&
      (mode != "offline" && mode != "cloud" ==>
         r.request == Some(LocalRequest(input)) && r.response.message == ProcessLocal(input, env.local).message)
  {
    assert Respond(mode, apiKey, input, stamp, env) == Answered(mode, apiKey, input, stamp, env);
    AnsweredShape(mode, apiKey, input, stamp, env);
  }

  /** The promise rejects only when a capability call failed and so did the error toast. */
  lemma RejectionNeedsToastFailure(mode: string, apiKey: Option<string>, input: string, stamp: Stamp, env: Environment)
    requires Respond(mode, apiKey, input, stamp, env).Rejected?
    ensures Recognised(input) && !env.caps.errorToastOk
    ensures !env.caps.hapticOk || !env.caps.callOk
  {
    if !Recognised(input) {
      UnrecognisedFallsBack(mode, apiKey, input, stamp, env);
    } else {
      RecognisedExecutes(mode, apiKey, input, stamp, env);
    }
  }

  /** With every capability call succeeding, a recognised command resolves and its
      effects are the haptic pulse and then the command's own call. */
  lemma SuccessfulExecution(mode: string, apiKey: Option<string>, input: string, stamp: Stamp, env: Environment)
    requires Recognised(input)
    requires env.caps.hapticOk && env.caps.callOk
    ensures FirstMatch(COMMANDS, Normalize(input)).Some?
    ensures var c := FirstMatch(COMMANDS, Normalize(input)).value;
      var r := Respond(mode, apiKey, input, stamp, env);
      r.Resolved? && r.effects == [Haptic] + Dispatch(c.action, Some(c.id), None)
  {
    RecognisedExecutes(mode, apiKey, input, stamp, env);
  }

  /** The action descriptor of a reply is the action of the command that matched. */
  lemma ReplyActionIsMatched(mode: string, apiKey: Option<string>, input: string, stamp: Stamp, env: Environment)
    ensures var r := Respond(mode, apiKey, input, stamp, env);
      r.Resolved? && r.response.action.Some? ==>
        var c := FirstMatch(COMMANDS, Normalize(input));
        c.Some? && r.response.action.value.actionType == c.value.action
  {
    var m := FirstMatch(COMMANDS, Normalize(input));
    if m.Some? {
      ExecutedShape(m.value, stamp, env.caps);
    } else {
      AnsweredShape(mode, apiKey, input, stamp, env);
    }
  }

  /** The search command never runs: no reply ever carries the `search_youtube` action. */
  lemma SearchNeverExecuted(mode: string, apiKey: Option<string>, input: string, stamp: Stamp, env: Environment)
    ensures var r := Respond(mode, apiKey, input, stamp, env);
      r.Resolved? && r.response.action.Some? ==> r.response.action.value.actionType != "search_youtube"
  {
    var n := Normalize(input);
    ReplyActionIsMatched(mode, apiKey, input, stamp, env);
    SearchYoutubeNeverMatched(n);
    var m := MatchIndex(COMMANDS, n);
    if m.Some? {
      OnlySearchCommandSearches(m.value);
    }
  }

  /** For a recognised command, neither surrounding whitespace nor letter case of the
      raw input changes the outcome. */
  lemma RecognisedIgnoresPaddingAndCase(mode: string, apiKey: Option<string>, a: string, input: string, b: string,
                                        stamp: Stamp, env: Environment)
    requires Recognised(input)
    requires AllWhitespace(a) && AllWhitespace(b)
    ensures Respond(mode, apiKey, a + input + b, stamp, env) == Respond(mode, apiKey, input, stamp, env)
    ensures Respond(mode, apiKey, Lower(input), stamp, env) == Respond(mode, apiKey, input, stamp, env)
  {
    NormalizePadded(a, input, b);
    NormalizeLower(input);
    RecognisedMatch(input);
    var c := FirstMatch(COMMANDS, Normalize(input)).value;
    assert Respond(mode, apiKey, input, stamp, env) == Executed(c, stamp, env.caps);
    assert Respond(mode, apiKey, a + input + b, stamp, env) == Executed(c, stamp, env.caps);
    assert Respond(mode, apiKey, Lower(input), stamp, env) == Executed(c, stamp, env.caps);
  }

  /** An unrecognised input reaches the cloud and local backends unnormalised. */
  lemma BackendsSeeRawInput(mode: string, apiKey: Option<string>, input: string, stamp: Stamp, env: Environment)
    requires !Recognised(input)
    ensures var r := Respond(mode, apiKey, input, stamp, env);
      r.Resolved? && r.request.Some? ==>
        (mode == "cloud" ==> CloudUserText(r.request.value) == Some(input)) &&
        (mode != "cloud" ==> LocalUserText(r.request.value) == Some(input))
  {
    assert Respond(mode, apiKey, input, stamp, env) == Answered(mode, apiKey, input, stamp, env);
    AnsweredShape(mode, apiKey, input, stamp, env);
    RequestsCarryInput(if Truthy(apiKey) then apiKey.value else "", input);
  }

  /** "Open WhatsApp now", every call succeeding: a pulse, then WhatsApp Web opens. */
  lemma OpenWhatsAppScenario(mode: string, apiKey: Option<string>, input: string, stamp: Stamp, env: Environment)
    requires input == "Open WhatsApp now"
    requires env.caps.hapticOk && env.caps.callOk
    ensures Respond(mode, apiKey, input, stamp, env) ==
      Resolved(AIResponse(stamp.id, "Executed: Open WhatsApp application", stamp.time, Ai,
                          Some(ActionDescriptor("open_app", None, None))),
               [Haptic, OpenUrl(WHATSAPP_URL)], None)
  {
    OpenWhatsAppNowMatches(input);
    ExecutesWhatsApp(mode, apiKey, input, stamp, env);
  }

  /** Whenever `open-whatsapp` matches and every call succeeds, WhatsApp Web opens. */
  lemma ExecutesWhatsApp(mode: string, apiKey: Option<string>, input: string, stamp: Stamp, env: Environment)
    requires FirstMatch(COMMANDS, Normalize(input)) == Some(OPEN_WHATSAPP)
    requires env.caps.hapticOk && env.caps.callOk
    ensures Respond(mode, apiKey, input, stamp, env) ==
      Resolved(AIResponse(stamp.id, "Executed: Open WhatsApp application", stamp.time, Ai,
                          Some(ActionDescriptor("open_app", None, None))),
               [Haptic, OpenUrl(WHATSAPP_URL)], None)
  {
    ExecutedWhatsApp(stamp, env);
  }

  lemma ExecutedWhatsApp(stamp: Stamp, env: Environment)
    requires env.caps.hapticOk && env.caps.callOk
    ensures Executed(OPEN_WHATSAPP, stamp, env.caps) ==
      Resolved(AIResponse(stamp.id, "Executed: Open WhatsApp application", stamp.time, Ai,
                          Some(ActionDescriptor("open_app", None, None))),
               [Haptic, OpenUrl(WHATSAPP_URL)], None)
  {
    OpenAppTargets(Some(OPEN_WHATSAPP.id), None);
    ExecutedShape(OPEN_WHATSAPP, stamp, env.caps);
    assert !Fails(OPEN_WHATSAPP.action, Some(OPEN_WHATSAPP.id), None, env.caps);
    ExecutedWhatsAppText();
  }

  lemma ExecutedWhatsAppText()
    ensures EXECUTED_PREFIX + OPEN_WHATSAPP.description == "Executed: Open WhatsApp application"
  {
    JoinWhatsAppText(EXECUTED_PREFIX, OPEN_WHATSAPP.description, "Executed: Open WhatsApp application");
  }

  lemma JoinWhatsAppText(p: string, d: string, t: string)
    requires p == "Executed: " && d == "Open WhatsApp application" && t == "Executed: Open WhatsApp application"
    ensures p + d == t
  {
  }

  /** "hello there" offline: one of the canned replies, no calls and no request. */
  lemma HelloThereOfflineScenario(apiKey: Option<string>, input: string, stamp: Stamp, env: Environment)
    requires input == "hello there"
    ensures var r := Respond("offline", apiKey, input, stamp, env);
      r.Resolved? && r.effects == [] && r.request.None? && r.response.message in OFFLINE_REPLIES
  {
    HelloThereMisses(input);
    assert !Recognised(input);
  }
}
