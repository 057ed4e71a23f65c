/** The top-level component (src/App.tsx): the conversation history, the submit
    handler with its guard and processing flag, and the effect that keeps the command
    processor in step with the settings. */
module AppModel {
  import opened Types
  import opened Text
  import opened Processor
  import opened Settings
  import opened Intents
  import opened CarouselModel

  const ERROR_REPLY := "Sorry, I encountered an error processing your command."

  /** `input || textInput`: an argument that is missing or empty falls back to the
      text box. */
  function CommandText(input: Option<string>, textInput: string): string
  {
    if Truthy(input) then input.value else textInput
  }

  /** The guard of `handleSubmit`: a command that is not blank, and no command in flight. */
  predicate Accepts(command: string, isProcessing: bool)
  {
    Trim(command) != [] && !isProcessing
  }

  /** The record `handleSubmit` appends for the settled promise: the response, or the
      apology of the `catch` block. */
  function ReplyFor(result: ProcessResult, errorStamp: Stamp): AIResponse
  {
    match result
    case Resolved(response, _, _) => response
    case Rejected(_) => AIResponse(errorStamp.id, ERROR_REPLY, errorStamp.time, Ai, None)
  }

  /** The record of what the user said. */
  function UserRecord(command: string, stamp: Stamp): AIResponse
  {
    AIResponse(stamp.id, command, stamp.time, User, None)
  }

  class App {
    var textInput: string
    var responses: seq<AIResponse>
    var isProcessing: bool
    const processor: CommandProcessor
    const settingsHook: SettingsHook

    /** The first render: an empty history, nothing in flight, a processor with its
        defaults and the settings hook over the device store. */
    constructor (store: map<string, StoredValue>)
      ensures textInput == [] && responses == [] && !isProcessing
      ensures fresh(processor) && processor.aiMode == "offline" && processor.aiApiKey.None?
      ensures fresh(settingsHook) && settingsHook.settings == DEFAULT_SETTINGS && settingsHook.preferences == store
    {
      textInput := [];
      responses := [];
      isProcessing := false;
      processor := new CommandProcessor();
      settingsHook := new SettingsHook(store);
    }

    /** The effect on `[settings.aiMode, settings.apiKey]`: copy both into the processor. */
    method SyncProcessor()
      modifies processor
      ensures processor.aiMode == settingsHook.settings.aiMode
      ensures processor.aiApiKey == settingsHook.settings.apiKey
    {
      processor.aiMode := settingsHook.settings.aiMode;
      processor.aiApiKey := settingsHook.settings.apiKey;
    }

    /** The synchronous part of `handleSubmit`, up to the `await`: the guard, the user
        record, the processing flag and the cleared text box. */
    method BeginSubmit(input: Option<string>, userStamp: Stamp) returns (accepted: bool, command: string)
      modifies this
      ensures command == CommandText(input, old(textInput))
      ensures accepted == Accepts(command, old(isProcessing))
      ensures accepted ==> responses == old(responses) + [UserRecord(command, userStamp)]
                           && isProcessing && textInput == []
      ensures !accepted ==> responses == old(responses) && isProcessing == old(isProcessing)
                            && textInput == old(textInput)
    {
      command := CommandText(input, textInput);
      if Trim(command) == [] || isProcessing {
        return false, command;
      }
      responses := responses + [UserRecord(command, userStamp)];
      isProcessing := true;
      textInput := [];
      accepted := true;
    }

    /** The part of `handleSubmit` after the `await`: append the reply and clear the flag. */
    method FinishSubmit(result: ProcessResult, errorStamp: Stamp)
      modifies this
      ensures responses == old(responses) + [ReplyFor(result, errorStamp)]
      ensures !isProcessing && textInput == old(textInput)
    {
      responses := responses + [ReplyFor(result, errorStamp)];
      isProcessing := false;
    }

    /** `handleSubmit(input)` run to completion with no other event in between. */
    method HandleSubmit(input: Option<string>, userStamp: Stamp, replyStamp: Stamp, errorStamp: Stamp,
                        env: Environment) returns (accepted: bool)
      modifies this
      ensures var command := CommandText(input, old(textInput));
        accepted == Accepts(command, old(isProcessing)) &&
        (accepted ==>
          responses == old(responses) + [UserRecord(command, userStamp)]
            + [ReplyFor(Respond(processor.aiMode, processor.aiApiKey, command, replyStamp, env), errorStamp)]
          && !isProcessing && textInput == []) &&
        (!accepted ==> responses == old(responses) && isProcessing == old(isProcessing)
                       && textInput == old(textInput))
    {
      var command;
      accepted, command := BeginSubmit(input, userStamp);
      if accepted {
        var result := processor.ProcessCommand(command, replyStamp, env);
        FinishSubmit(result, errorStamp);
      }
    }

    /** A carousel card is selected: its command goes into the text box, then is
        submitted. */
    method OnCommandSelect(command: string, userStamp: Stamp, replyStamp: Stamp, errorStamp: Stamp,
                           env: Environment) returns (accepted: bool)
      modifies this
      ensures accepted == Accepts(command, old(isProcessing))
      ensures accepted ==>
        responses == old(responses) + [UserRecord(command, userStamp)]
          + [ReplyFor(Respond(processor.aiMode, processor.aiApiKey, command, replyStamp, env), errorStamp)]
        && !isProcessing && textInput == []
      ensures !accepted ==> responses == old(responses) && isProcessing == old(isProcessing) && textInput == command
    {
      textInput := command;
      var input := if command == [] then None else Some(command);
      assert CommandText(input, textInput) == command;
      accepted := HandleSubmit(input, userStamp, replyStamp, errorStamp, env);
    }
  }

  /** Blank input (empty, or only whitespace) is never submitted, and anything else is
      submitted when nothing is in flight. */
  lemma BlankIsIgnored(command: string, isProcessing: bool)
    ensures Accepts(command, isProcessing) <==> !AllWhitespace(command) && !isProcessing
  {
    TrimEmpty(command);
  }

  /** A completed submission adds the user's record and then one AI record: the
      response when the promise resolved, the apology when it rejected. */
  lemma ExchangeShape(mode: string, apiKey: Option<string>, command: string,
                      userStamp: Stamp, replyStamp: Stamp, errorStamp: Stamp, env: Environment)
    ensures var result := Respond(mode, apiKey, command, replyStamp, env);
      var pair := [UserRecord(command, userStamp), ReplyFor(result, errorStamp)];
      pair[0].kind == User && pair[0].message == command && pair[1].kind == Ai &&
      (result.Rejected? ==> pair[1].message == ERROR_REPLY && pair[1].action.None?) &&
      (result.Resolved? ==> pair[1] == result.response && pair[1].id == replyStamp.id)
  {
    RespondStamped(mode, apiKey, command, replyStamp, env);
  }

  /** While a submission is in flight a second one changes nothing. */
  method SecondSubmitIgnored(store: map<string, StoredValue>, first: string, second: string, userStamp: Stamp)
    returns (history: seq<AIResponse>)
    requires !AllWhitespace(first)
    ensures |history| == 1 && history[0] == UserRecord(first, userStamp)
  {
    var app := new App(store);
    TrimEmpty(first);
    var ok, _ := app.BeginSubmit(Some(first), userStamp);
    assert ok;
    var again, _ := app.BeginSubmit(Some(second), userStamp);
    assert !again;
    history := app.responses;
  }

  /** The "YouTube Search" card sends a text that opens YouTube itself: `search-youtube`
      is never reached, not even from the card meant for it. */
  lemma SearchCardOpensYouTube()
    ensures CAROUSEL_CARDS[1].title == "YouTube Search"
    ensures FirstMatch(COMMANDS, Normalize(CAROUSEL_CARDS[1].command)) == Some(OPEN_YOUTUBE)
  {
    SearchCatsOpensYouTube(CAROUSEL_CARDS[1].command);
  }
}
