/** The intent table `COMMANDS` and the keyword matcher `detectKeyword`
    (src/services/commandProcessor.ts). */
module Intents {
  import opened Types
  import opened Text

  datatype Category = System | App | Communication | Media

  /** One known intent: its trigger phrases in declared order. */
  datatype Command = Command(
    id: string,
    triggers: seq<string>,
    action: string,
    description: string,
    category: Category)

  const OPEN_WHATSAPP := Command("open-whatsapp", ["open whatsapp", "launch whatsapp", "whatsapp"],
    "open_app", "Open WhatsApp application", App)
  const OPEN_YOUTUBE := Command("open-youtube", ["open youtube", "launch youtube", "youtube"],
    "open_app", "Open YouTube application", App)
  const SEARCH_YOUTUBE := Command("search-youtube", ["search youtube for", "youtube search"],
    "search_youtube", "Search YouTube for specific content", Media)
  const FLASHLIGHT_ON := Command("flashlight-on", ["turn on flashlight", "flashlight on", "torch on"],
    "flashlight_on", "Turn on device flashlight", System)
  const FLASHLIGHT_OFF := Command("flashlight-off", ["turn off flashlight", "flashlight off", "torch off"],
    "flashlight_off", "Turn off device flashlight", System)
  const BRIGHTNESS_DIM := Command("brightness-dim", ["dim brightness", "reduce brightness", "make dimmer"],
    "brightness_dim", "Reduce screen brightness", System)

  /** The intent table, in the order the matcher scans it. */
  const COMMANDS: seq<Command> :=
    [OPEN_WHATSAPP, OPEN_YOUTUBE, SEARCH_YOUTUBE, FLASHLIGHT_ON, FLASHLIGHT_OFF, BRIGHTNESS_DIM]

  /** Some trigger phrase of c occurs in the input. */
  predicate Hits(c: Command, input: string)
  {
    exists j | 0 <= j < |c.triggers| :: Includes(input, c.triggers[j])
  }

  /** Position in `table` of the first command hit by the input, if any. */
  function MatchIndex(table: seq<Command>, input: string): (r: Option<nat>)
    ensures r.Some? ==> r.value < |table| && Hits(table[r.value], input)
    ensures r.Some? ==> forall k :: 0 <= k < r.value ==> !Hits(table[k], input)
    ensures r.None? <==> forall k :: 0 <= k < |table| ==> !Hits(table[k], input)
  {
    if |table| == 0 then None
    else if Hits(table[0], input) then Some(0)
    else
      match MatchIndex(table[1..], input)
      case None => None
      case Some(k) => Some(k + 1)
  }

  /** The command the matcher returns for already normalised input. */
  function FirstMatch(table: seq<Command>, input: string): Option<Command>
  {
    match MatchIndex(table, input)
    case None => None
    case Some(k) => Some(table[k])
  }

  /** The first hit is the unique index that is hit with no hit before it. */
  lemma MatchIndexUnique(table: seq<Command>, input: string, i: nat)
    requires i < |table| && Hits(table[i], input)
    requires forall k :: 0 <= k < i ==> !Hits(table[k], input)
    ensures MatchIndex(table, input) == Some(i)
  {
  }

  /** Some command is returned as soon as any command of the table is hit. */
  lemma HitIsMatched(table: seq<Command>, input: string, k: nat)
    requires k < |table| && Hits(table[k], input)
    ensures FirstMatch(table, input).Some? && FirstMatch(table, input).value in table
  {
  }

  /** `detectKeyword`: table order first, then each command's trigger order;
      returns at the first trigger that is a substring of the input. */
  method DetectKeyword(input: string) returns (r: Option<Command>)
    ensures r == FirstMatch(COMMANDS, input)
    ensures r.Some? ==> r.value in COMMANDS && Hits(r.value, input)
    ensures r.None? <==> forall k :: 0 <= k < |COMMANDS| ==> !Hits(COMMANDS[k], input)
  {
    var i := 0;
    while i < |COMMANDS|
      invariant 0 <= i <= |COMMANDS|
      invariant forall k :: 0 <= k < i ==> !Hits(COMMANDS[k], input)
    {
      var command := COMMANDS[i];
      var j := 0;
      while j < |command.triggers|
        invariant 0 <= j <= |command.triggers|
        invariant forall m :: 0 <= m < j ==> !Includes(input, command.triggers[m])
      {
        if Includes(input, command.triggers[j]) {
          MatchIndexUnique(COMMANDS, input, i);
          return Some(command);
        }
        j := j + 1;
      }
      i := i + 1;
    }
    return None;
  }

  /** `search-youtube` can never be returned: each of its triggers contains
      "youtube", a trigger of the earlier `open-youtube`. */
  lemma SearchYoutubeNeverMatched(input: string)
    ensures FirstMatch(COMMANDS, input) != Some(SEARCH_YOUTUBE)
    ensures MatchIndex(COMMANDS, input) != Some(2)
  {
    assert COMMANDS[1] == OPEN_YOUTUBE && COMMANDS[2] == SEARCH_YOUTUBE;
    if Hits(SEARCH_YOUTUBE, input) {
      SearchHitIsYoutubeHit(input);
    }
  }

  /** Whatever input hits `search-youtube` also hits `open-youtube`. */
  lemma SearchHitIsYoutubeHit(input: string)
    requires Hits(SEARCH_YOUTUBE, input)
    ensures Hits(OPEN_YOUTUBE, input)
  {
    var j :| 0 <= j < |SEARCH_YOUTUBE.triggers| && Includes(input, SEARCH_YOUTUBE.triggers[j]);
    var t := SEARCH_YOUTUBE.triggers[j];
    var at := if j == 0 then 7 else 0;
    assert t[at..at + 7] == "youtube";
    assert OccursAt(t, "youtube", at);
    IncludesTransitive(input, t, "youtube");
    assert Includes(input, OPEN_YOUTUBE.triggers[2]);
  }

  /** Any input containing "whatsapp" selects `open-whatsapp`, whatever else it contains. */
  lemma WhatsappWins(input: string)
    requires Includes(input, "whatsapp")
    ensures FirstMatch(COMMANDS, input) == Some(OPEN_WHATSAPP)
  {
    assert Includes(input, OPEN_WHATSAPP.triggers[2]);
    MatchIndexUnique(COMMANDS, input, 0);
  }

  /** Lower-casing "Open WhatsApp now", character by character. */
  lemma LowerOpenWhatsAppNow(s: string)
    requires s == "Open WhatsApp now"
    ensures Lower(s) == "open whatsapp now"
  {
    var t := "open whatsapp now";
    assert forall i :: 0 <= i < |s| ==> LowerChar(s[i]) == t[i];
  }

  /** "search youtube for lofi beats" is already lower-case. */
  lemma LowerSearchPhrase(s: string)
    requires s == "search youtube for lofi beats"
    ensures Lower(s) == s
  {
    assert forall i :: 0 <= i < |s| ==> LowerChar(s[i]) == s[i];
  }

  /** "hello there" is already lower-case. */
  lemma LowerHelloThere(s: string)
    requires s == "hello there"
    ensures Lower(s) == s
  {
    assert forall i :: 0 <= i < |s| ==> LowerChar(s[i]) == s[i];
  }

  lemma NormalizeOpenWhatsAppNow(input: string)
    requires input == "Open WhatsApp now"
    ensures Normalize(input) == "open whatsapp now"
  {
    LowerOpenWhatsAppNow(input);
    NormalizeUnpadded(input, "open whatsapp now");
  }

  lemma OpenWhatsAppNowHits(n: string)
    requires n == "open whatsapp now"
    ensures FirstMatch(COMMANDS, n) == Some(OPEN_WHATSAPP)
  {
    var w := "whatsapp";
    assert forall i :: 0 <= i < |w| ==> n[5..13][i] == w[i];
    assert OccursAt(n, w, 5);
    WhatsappWins(n);
  }

  /** "Open WhatsApp now" selects `open-whatsapp`. */
  lemma OpenWhatsAppNowMatches(input: string)
    requires input == "Open WhatsApp now"
    ensures FirstMatch(COMMANDS, Normalize(input)) == Some(OPEN_WHATSAPP)
  {
    NormalizeOpenWhatsAppNow(input);
    OpenWhatsAppNowHits(Normalize(input));
  }

  /** "search youtube for lofi beats" selects `open-youtube`, not `search-youtube`. */
  lemma SearchPhraseOpensYouTube(s: string)
    requires s == "search youtube for lofi beats"
    ensures FirstMatch(COMMANDS, Normalize(s)) == Some(OPEN_YOUTUBE)
  {
    LowerSearchPhrase(s);
    NormalizeUnpadded(s, s);
    SearchPhraseHits(s);
  }

  /** Both search phrases, once normalised, select `open-youtube`. */
  lemma SearchPhraseHits(s: string)
    requires s == "search youtube for lofi beats" || s == "search youtube for cats"
    ensures FirstMatch(COMMANDS, s) == Some(OPEN_YOUTUBE)
  {
    var y := "youtube";
    assert forall i :: 0 <= i < |y| ==> s[7..14][i] == y[i];
    assert 'w' !in s;
    YoutubeWithoutWhatsApp(s);
  }

  /** "Search YouTube for cats" lower-cases to "search youtube for cats". */
  lemma LowerSearchCats(s: string)
    requires s == "Search YouTube for cats"
    ensures Lower(s) == "search youtube for cats"
  {
    var t := "search youtube for cats";
    assert forall i :: 0 <= i < |s| ==> LowerChar(s[i]) == t[i];
  }

  /** "Search YouTube for cats" selects `open-youtube`: it opens YouTube, not a search. */
  lemma SearchCatsOpensYouTube(s: string)
    requires s == "Search YouTube for cats"
    ensures FirstMatch(COMMANDS, Normalize(s)) == Some(OPEN_YOUTUBE)
  {
    LowerSearchCats(s);
    NormalizeUnpadded(s, "search youtube for cats");
    SearchPhraseHits(Normalize(s));
  }

  /** Text with "youtube" at position 7 and no 'w' selects `open-youtube`. */
  lemma YoutubeWithoutWhatsApp(s: string)
    requires |s| >= 14 && s[7..14] == "youtube" && 'w' !in s
    ensures FirstMatch(COMMANDS, s) == Some(OPEN_YOUTUBE)
  {
    assert OccursAt(s, "youtube", 7);
    assert Includes(s, OPEN_YOUTUBE.triggers[2]);
    MissesChar(s, "open whatsapp", 'w');
    MissesChar(s, "launch whatsapp", 'w');
    MissesChar(s, "whatsapp", 'w');
    assert !Hits(COMMANDS[0], s);
    MatchIndexUnique(COMMANDS, s, 1);
  }

  lemma MissesChar(s: string, t: string, c: char)
    requires c in t && c !in s
    ensures !Includes(s, t)
  {
    if Includes(s, t) {
      IncludesChar(s, t, c);
    }
  }

  /** "hello there" hits no command, so it goes to an AI backend. */
  lemma HelloThereMisses(s: string)
    requires s == "hello there"
    ensures FirstMatch(COMMANDS, Normalize(s)) == None
  {
    LowerHelloThere(s);
    NormalizeUnpadded(s, s);
    HelloThereHitsNothing(s);
  }

  lemma HelloThereHitsNothing(s: string)
    requires s == "hello there"
    ensures FirstMatch(COMMANDS, s) == None
  {
    HelloThereMissesApps(s);
    HelloThereMissesSystem(s);
    assert forall k :: 0 <= k < |COMMANDS| ==> !Hits(COMMANDS[k], s);
  }

  lemma HelloThereMissesApps(s: string)
    requires s == "hello there"
    ensures !Hits(OPEN_WHATSAPP, s) && !Hits(OPEN_YOUTUBE, s) && !Hits(SEARCH_YOUTUBE, s)
  {
    MissesChar(s, "open whatsapp", 'p');
    MissesChar(s, "launch whatsapp", 'p');
    MissesChar(s, "whatsapp", 'p');
    MissesChar(s, "open youtube", 'y');
    MissesChar(s, "launch youtube", 'y');
    MissesChar(s, "youtube", 'y');
    MissesChar(s, "search youtube for", 'y');
    MissesChar(s, "youtube search", 'y');
  }

  lemma HelloThereMissesSystem(s: string)
    requires s == "hello there"
    ensures !Hits(FLASHLIGHT_ON, s) && !Hits(FLASHLIGHT_OFF, s) && !Hits(BRIGHTNESS_DIM, s)
  {
    HelloThereMissesFlashlightOn(s);
    HelloThereMissesFlashlightOff(s);
    HelloThereMissesBrightness(s);
  }

  lemma HelloThereMissesFlashlightOn(s: string)
    requires s == "hello there"
    ensures !Hits(FLASHLIGHT_ON, s)
  {
    MissesChar(s, "turn on flashlight", 'f');
    MissesChar(s, "flashlight on", 'f');
    MissesChar(s, "torch on", 'c');
  }

  lemma HelloThereMissesFlashlightOff(s: string)
    requires s == "hello there"
    ensures !Hits(FLASHLIGHT_OFF, s)
  {
    MissesChar(s, "turn off flashlight", 'f');
    MissesChar(s, "flashlight off", 'f');
    MissesChar(s, "torch off", 'c');
  }

  lemma HelloThereMissesBrightness(s: string)
    requires s == "hello there"
    ensures !Hits(BRIGHTNESS_DIM, s)
  {
    MissesChar(s, "dim brightness", 'd');
    MissesChar(s, "reduce brightness", 'd');
    MissesChar(s, "make dimmer", 'm');
  }

  /** The table is well formed: distinct ids and non-empty triggers. */
  lemma TableWellFormed()
    ensures forall k, m :: 0 <= k < m < |COMMANDS| ==> COMMANDS[k].id != COMMANDS[m].id
    ensures forall k, j :: 0 <= k < |COMMANDS| && 0 <= j < |COMMANDS[k].triggers| ==>
              COMMANDS[k].triggers[j] != []
  {
  }

  /** Only the `search-youtube` entry carries the `search_youtube` action. */
  lemma OnlySearchCommandSearches(k: nat)
    requires k < |COMMANDS| && k != 2
    ensures COMMANDS[k].action != "search_youtube"
  {
  }
}
