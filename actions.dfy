/** `executeAction` (src/services/commandProcessor.ts): the side effects of a matched
    command, written as the list of device and browser calls it issues, in order. */
module Actions {
  import opened Types
  import opened UriEncoding

  /** One call into a device or browser capability. */
  datatype Effect =
    | Haptic               // Haptics.impact with the light style
    | OpenUrl(url: string) // Browser.open
    | Toast(text: string)  // Toast.show

  /** Which capability calls succeed: the haptic pulse, the call made by the
      `switch`, and the toast shown by the `catch` block. */
  datatype Capabilities = Capabilities(hapticOk: bool, callOk: bool, errorToastOk: bool)

  /** The calls issued, and whether the returned promise rejects. */
  datatype Execution = Execution(effects: seq<Effect>, raised: bool)

  const WHATSAPP_URL := "https://web.whatsapp.com"
  const YOUTUBE_URL := "https://youtube.com"
  const SEARCH_URL_PREFIX := "https://youtube.com/results?search_query="
  const ERROR_TOAST := "Error executing command"
  const UNKNOWN_TOAST := "Unknown command"
  const FLASHLIGHT_ON_TOAST := "Flashlight turned on (simulated)"
  const FLASHLIGHT_OFF_TOAST := "Flashlight turned off (simulated)"
  const BRIGHTNESS_TOAST := "Brightness reduced (simulated)"

  /** `parameters?.query || 'trending'`. */
  function SearchQuery(query: Option<string>): (q: string)
    ensures Truthy(query) ==> q == query.value
    ensures q == "trending" <==> !Truthy(query) || query.value == "trending"
  {
    if Truthy(query) then query.value else "trending"
  }

  /** The `switch (action)`: the one call it makes, if any. */
  function Dispatch(action: string, commandId: Option<string>, query: Option<string>): (r: seq<Effect>)
    ensures |r| <= 1
    ensures r == [] <==>
      action == "open_app" && commandId != Some("open-whatsapp") && commandId != Some("open-youtube")
    ensures Haptic !in r && Toast(ERROR_TOAST) !in r
  {
    match action
    case "open_app" =>
      if commandId == Some("open-whatsapp") then [OpenUrl(WHATSAPP_URL)]
      else if commandId == Some("open-youtube") then [OpenUrl(YOUTUBE_URL)]
      else []
    case "search_youtube" => [OpenUrl(SEARCH_URL_PREFIX + EncodeURIComponent(SearchQuery(query)))]
    case "flashlight_on" => [Toast(FLASHLIGHT_ON_TOAST)]
    case "flashlight_off" => [Toast(FLASHLIGHT_OFF_TOAST)]
    case "brightness_dim" => [Toast(BRIGHTNESS_TOAST)]
    case _ => [Toast(UNKNOWN_TOAST)]
  }

  /** Some awaited call inside the `try` rejects: the haptic pulse, or the call of the `switch`. */
  predicate Fails(action: string, commandId: Option<string>, query: Option<string>, caps: Capabilities)
  {
    !caps.hapticOk || (Dispatch(action, commandId, query) != [] && !caps.callOk)
  }

  /** `executeAction(action, command, parameters)`. The haptic pulse is inside the
      `try`, so its failure skips the action and goes to the `catch` block. */
  function ExecuteAction(action: string, commandId: Option<string>, query: Option<string>, caps: Capabilities): (x: Execution)
    ensures |x.effects| >= 1 && x.effects[0] == Haptic
    ensures !Fails(action, commandId, query, caps) ==>
      x.effects == [Haptic] + Dispatch(action, commandId, query) && !x.raised
    ensures Fails(action, commandId, query, caps) ==>
      x.effects[|x.effects| - 1] == Toast(ERROR_TOAST) && (x.raised <==> !caps.errorToastOk)
    ensures multiset(x.effects)[Toast(ERROR_TOAST)] == if Fails(action, commandId, query, caps) then 1 else 0
    ensures x.raised ==> Fails(action, commandId, query, caps) && !caps.errorToastOk
    ensures !caps.hapticOk ==> x.effects == [Haptic, Toast(ERROR_TOAST)]
    ensures caps.hapticOk && Dispatch(action, commandId, query) != [] && !caps.callOk ==>
      x.effects == [Haptic] + Dispatch(action, commandId, query) + [Toast(ERROR_TOAST)]
  {
    if !caps.hapticOk then
      Execution([Haptic, Toast(ERROR_TOAST)], !caps.errorToastOk)
    else
      var call := Dispatch(action, commandId, query);
      if call != [] && !caps.callOk then
        Execution([Haptic] + call + [Toast(ERROR_TOAST)], !caps.errorToastOk)
      else
        Execution([Haptic] + call, false)
  }

  /** `open_app` opens WhatsApp or YouTube by command id, and nothing for any other id. */
  lemma OpenAppTargets(commandId: Option<string>, query: Option<string>)
    ensures Dispatch("open_app", commandId, query) ==
      if commandId == Some("open-whatsapp") then [OpenUrl(WHATSAPP_URL)]
      else if commandId == Some("open-youtube") then [OpenUrl(YOUTUBE_URL)]
      else []
  {
  }

  /** With no query, or an empty one, the search opens the results for `trending`. */
  lemma SearchDefaultsToTrending(commandId: Option<string>, query: Option<string>)
    requires !Truthy(query)
    ensures Dispatch("search_youtube", commandId, query) == [OpenUrl(SEARCH_URL_PREFIX + "trending")]
  {
    EncodeTrending();
  }

  /** Flashlight and brightness are only acknowledged by a "(simulated)" toast. */
  lemma DeviceActionsAreSimulated(action: string, commandId: Option<string>, query: Option<string>)
    requires action in {"flashlight_on", "flashlight_off", "brightness_dim"}
    ensures exists text :: Dispatch(action, commandId, query) == [Toast(text)] && IsSimulated(text)
  {
    var text := if action == "flashlight_on" then FLASHLIGHT_ON_TOAST
      else if action == "flashlight_off" then FLASHLIGHT_OFF_TOAST else BRIGHTNESS_TOAST;
    assert text[|text| - 11..] == "(simulated)";
    assert Dispatch(action, commandId, query) == [Toast(text)];
  }

  predicate IsSimulated(text: string)
  {
    |text| >= 11 && text[|text| - 11..] == "(simulated)"
  }

  /** Any other action shows the `Unknown command` toast. */
  lemma UnknownActionToast(action: string, commandId: Option<string>, query: Option<string>)
    requires action !in {"open_app", "search_youtube", "flashlight_on", "flashlight_off", "brightness_dim"}
    ensures Dispatch(action, commandId, query) == [Toast(UNKNOWN_TOAST)]
  {
  }
}
