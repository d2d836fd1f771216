/** The wizard's session state and its event handlers: saving and deleting
    keys, the three generation steps, editing a character, routing a
    failure to the user, and starting over. Rendering is not modelled; each
    generation service is a function parameter whose result is the value the
    awaited call returns (`Ok`) or the message of the `Error` it throws
    (`Err`). */
module App {
  import opened Strings
  import opened Types
  import GeminiService

  // ---------------------------------------------------------------------
  // Values the handlers compute
  // ---------------------------------------------------------------------

  /** A saved key must be longer than this once trimmed. */
  const MinSavedKeyLength: nat := 10

  /** The keys kept from the key dialog: each line trimmed, the ones longer
      than `MinSavedKeyLength` kept, in input order. */
  function ValidKeys(rawKeys: seq<string>): (keys: seq<string>)
    ensures |keys| <= |rawKeys|
    ensures forall k :: k in keys ==> |k| > MinSavedKeyLength
  {
    if rawKeys == [] then []
    else
      var k := Trim(rawKeys[0]);
      if |k| > MinSavedKeyLength then [k] + ValidKeys(rawKeys[1..]) else ValidKeys(rawKeys[1..])
  }

  /** Every saved key is the trimmed form of some input line, and trimming
      it again changes nothing. */
  lemma {:induction false} ValidKeysAreTrimmedLines(rawKeys: seq<string>, k: string)
    requires k in ValidKeys(rawKeys)
    ensures Trim(k) == k
    ensures exists i :: 0 <= i < |rawKeys| && k == Trim(rawKeys[i])
    decreases |rawKeys|
  {
    if k == Trim(rawKeys[0]) {
      TrimIdempotent(rawKeys[0]);
    } else {
      ValidKeysAreTrimmedLines(rawKeys[1..], k);
      var i :| 0 <= i < |rawKeys[1..]| && k == Trim(rawKeys[1..][i]);
      assert k == Trim(rawKeys[i + 1]);
    }
  }

  /** Every input line that is long enough once trimmed is saved. */
  lemma {:induction false} ValidKeysKeepsLongLines(rawKeys: seq<string>, i: nat)
    requires i < |rawKeys| && |Trim(rawKeys[i])| > MinSavedKeyLength
    ensures Trim(rawKeys[i]) in ValidKeys(rawKeys)
    decreases i
  {
    if i > 0 {
      assert rawKeys[1..][i - 1] == rawKeys[i];
      ValidKeysKeepsLongLines(rawKeys[1..], i - 1);
    }
  }

  /** Validation keeps the input order: the keys of two blocks of lines are
      the keys of the first followed by the keys of the second. */
  lemma {:induction false} ValidKeysConcat(a: seq<string>, b: seq<string>)
    ensures ValidKeys(a + b) == ValidKeys(a) + ValidKeys(b)
    decreases |a|
  {
    if a == [] {
      assert a + b == b;
    } else {
      assert (a + b)[1..] == a[1..] + b;
      ValidKeysConcat(a[1..], b);
    }
  }

  /** Stories numbered 1, 2, ... in the order the service returned them. */
  function NumberStories(drafts: seq<StoryDraft>): (stories: seq<Story>)
    ensures |stories| == |drafts|
    ensures forall i :: 0 <= i < |drafts| ==>
              stories[i].id == i + 1 && stories[i].title == drafts[i].title && stories[i].summary == drafts[i].summary
  {
    seq(|drafts|, i requires 0 <= i < |drafts| => Story(i + 1, drafts[i].title, drafts[i].summary))
  }

  /** Characters numbered 1, 2, ... in the order the service returned them;
      the role is not set. */
  function NumberCharacters(drafts: seq<CharacterDraft>): (characters: seq<Character>)
    ensures |characters| == |drafts|
    ensures forall i :: 0 <= i < |drafts| ==>
              characters[i].id == i + 1 && characters[i].role.None? &&
              characters[i].name == drafts[i].name && characters[i].description == drafts[i].description &&
              characters[i].prompt == drafts[i].prompt
  {
    seq(|drafts|, i requires 0 <= i < |drafts| =>
      Character(i + 1, drafts[i].name, drafts[i].description, drafts[i].prompt, None))
  }

  /** `stories.find(s => s.id === id)`: the first story with that id. */
  function FindStory(stories: seq<Story>, id: Option<int>): (found: Option<Story>)
    ensures found.Some? ==> found.value in stories && id == Some(found.value.id)
    ensures found.None? <==> forall s :: s in stories ==> id != Some(s.id)
  {
    if stories == [] then None
    else if id == Some(stories[0].id) then Some(stories[0])
    else
      assert forall s :: s in stories ==> s == stories[0] || s in stories[1..];
      FindStory(stories[1..], id)
  }

  /** A story is found by its id when no earlier story has the same id. */
  lemma {:induction false} FindStoryAt(stories: seq<Story>, i: nat)
    requires i < |stories|
    requires forall j :: 0 <= j < i ==> stories[j].id != stories[i].id
    ensures FindStory(stories, Some(stories[i].id)) == Some(stories[i])
  {
    if i > 0 {
      assert stories[1..][i - 1] == stories[i];
      FindStoryAt(stories[1..], i - 1);
    }
  }

  /** After numbering, the story with id `k` is the `k`-th of the answer,
      copied unchanged, and no other id selects a story. */
  lemma FindNumberedStory(drafts: seq<StoryDraft>, id: int)
    ensures FindStory(NumberStories(drafts), Some(id)) ==
            if 1 <= id <= |drafts| then Some(Story(id, drafts[id - 1].title, drafts[id - 1].summary)) else None
  {
    var stories := NumberStories(drafts);
    if 1 <= id <= |drafts| {
      FindStoryAt(stories, id - 1);
    } else {
      forall s | s in stories ensures Some(id) != Some(s.id) {
        var i :| 0 <= i < |stories| && stories[i] == s;
      }
    }
  }

  /** The three editable text fields of a character. */
  datatype CharField = Name | Prompt | Description

  function FieldOf(c: Character, field: CharField): string {
    match field
    case Name => c.name
    case Prompt => c.prompt
    case Description => c.description
  }

  function WithField(c: Character, field: CharField, value: string): Character {
    match field
    case Name => c.(name := value)
    case Prompt => c.(prompt := value)
    case Description => c.(description := value)
  }

  /** The edit applied by `handleCharacterChange`: same list, same order;
      in the characters whose id matches, the named field takes the new
      value; nothing else changes. */
  function UpdateCharacter(cs: seq<Character>, id: int, field: CharField, value: string): (r: seq<Character>)
    ensures |r| == |cs|
    ensures forall i :: 0 <= i < |cs| ==> r[i].id == cs[i].id && r[i].role == cs[i].role
    ensures forall i, f :: 0 <= i < |cs| ==>
              FieldOf(r[i], f) == if cs[i].id == id && f == field then value else FieldOf(cs[i], f)
  {
    seq(|cs|, i requires 0 <= i < |cs| => if cs[i].id == id then WithField(cs[i], field, value) else cs[i])
  }

  /** Two characters with the same id, role and text fields are equal. */
  lemma CharacterExt(c: Character, d: Character)
    requires c.id == d.id && c.role == d.role
    requires forall f :: FieldOf(c, f) == FieldOf(d, f)
    ensures c == d
  {
    assert FieldOf(c, Name) == FieldOf(d, Name);
    assert FieldOf(c, Prompt) == FieldOf(d, Prompt);
    assert FieldOf(c, Description) == FieldOf(d, Description);
  }

  /** Typing the same value twice leaves the list as typing it once. */
  lemma UpdateCharacterIdempotent(cs: seq<Character>, id: int, field: CharField, value: string)
    ensures UpdateCharacter(UpdateCharacter(cs, id, field, value), id, field, value) ==
            UpdateCharacter(cs, id, field, value)
  {
    var once := UpdateCharacter(cs, id, field, value);
    var twice := UpdateCharacter(once, id, field, value);
    forall i | 0 <= i < |cs| ensures twice[i] == once[i] {
      CharacterExt(twice[i], once[i]);
    }
  }

  /** Edits to different fields do not interfere: their order does not matter. */
  lemma UpdateCharacterCommutes(cs: seq<Character>, id1: int, f1: CharField, v1: string,
                                id2: int, f2: CharField, v2: string)
    requires f1 != f2
    ensures UpdateCharacter(UpdateCharacter(cs, id1, f1, v1), id2, f2, v2) ==
            UpdateCharacter(UpdateCharacter(cs, id2, f2, v2), id1, f1, v1)
  {
    var a := UpdateCharacter(UpdateCharacter(cs, id1, f1, v1), id2, f2, v2);
    var b := UpdateCharacter(UpdateCharacter(cs, id2, f2, v2), id1, f1, v1);
    forall i | 0 <= i < |cs| ensures a[i] == b[i] {
      CharacterExt(a[i], b[i]);
    }
  }

  /** What a handler may catch: an `Error` object, or any other value. */
  datatype Thrown = ErrorObject(message: string) | OtherValue

  const UnknownErrorMessage := "Lỗi không xác định"
  const MissingKeysMessage := "MISSING_KEYS"

  /** The text shown for a caught value. */
  function ErrorMessage(error: Thrown): (shown: string)
    ensures error.ErrorObject? ==> shown == error.message
    ensures shown == UnknownErrorMessage <==> error == OtherValue || error == ErrorObject(UnknownErrorMessage)
  {
    match error
    case ErrorObject(m) => m
    case OtherValue => UnknownErrorMessage
  }

  /** No failure the generation service reports is the missing-keys signal:
      every message it builds starts with one of two fixed prefixes. */
  lemma ServiceErrorsNeverMissingKeys(error: string, context: string)
    ensures GeminiService.HandleGeminiError(error, context) != MissingKeysMessage
  {
    var message := GeminiService.HandleGeminiError(error, context);
    assert MissingKeysMessage[0] == 'M';
    if message == GeminiService.GenericErrorMessage(context, ToLower(error)) {
      assert message[0] == 'Đ';
    } else {
      assert GeminiService.FixedPrefix[0] == 'L';
      assert message[0] == 'L';
    }
  }

  // ---------------------------------------------------------------------
  // The session
  // ---------------------------------------------------------------------

  const InitialLoadingMessage := "Đang xử lý..."
  const StoriesLoadingMessage := "Đang tạo ý tưởng..."
  const CharactersLoadingMessage := "Đang tạo mô tả nhân vật..."
  const ScriptLoadingMessage := "Đang viết kịch bản và kiểm tra..."
  const DefaultScriptStyle := "Lời dẫn"

  /** A snapshot of every state variable of the session. */
  datatype SessionView = SessionView(
    step: AppStep, isLoading: bool, loadingMessage: string,
    isKeyModalOpen: bool, userKeys: seq<string>, serviceKeys: seq<string>,
    storyIdea: string, style: string, narrationLanguage: string, scriptStyle: string,
    numStories: int, generatedStories: seq<Story>, selectedStoryId: Option<int>,
    numCharacters: int, characters: seq<Character>, videoDuration: int, script: Option<Script>)

  /** The state after a failure is reported: loading stops, and the key
      dialog opens when the message is the missing-keys signal. */
  function ApiErrorState(v: SessionView, message: string): (s: SessionView)
    ensures !s.isLoading
    ensures s.isKeyModalOpen <==> v.isKeyModalOpen || message == MissingKeysMessage
    ensures s.(isLoading := v.isLoading, isKeyModalOpen := v.isKeyModalOpen) == v
  {
    v.(isLoading := false, isKeyModalOpen := v.isKeyModalOpen || message == MissingKeysMessage)
  }

  /** The state variables of the wizard. `serviceKeys` is the key list last
      handed to the generation service. */
  class Session {
    var step: AppStep
    var isLoading: bool
    var loadingMessage: string
    var isKeyModalOpen: bool
    var userKeys: seq<string>
    var serviceKeys: seq<string>
    var storyIdea: string
    var style: string
    var narrationLanguage: string
    var scriptStyle: string
    var numStories: int
    var generatedStories: seq<Story>
    var selectedStoryId: Option<int>
    var numCharacters: int
    var characters: seq<Character>
    var videoDuration: int
    var script: Option<Script>

    ghost function View(): SessionView
      reads this
    {
      SessionView(step, isLoading, loadingMessage, isKeyModalOpen, userKeys, serviceKeys,
                  storyIdea, style, narrationLanguage, scriptStyle, numStories, generatedStories,
                  selectedStoryId, numCharacters, characters, videoDuration, script)
    }

    /** The service holds at least one key. */
    predicate HasApiKeys()
      reads this
    {
      serviceKeys != []
    }

    /** The initial state; the first visual style and narration language of
        the option lists are parameters. */
    constructor (defaultStyle: string, defaultLanguage: string, initialServiceKeys: seq<string>)
      ensures View() == SessionView(StoryIdeas, false, InitialLoadingMessage, false, [], initialServiceKeys,
                                    "", defaultStyle, defaultLanguage, DefaultScriptStyle, 3, [], None,
                                    2, [], 150, None)
    {
      step := StoryIdeas;
      isLoading := false;
      loadingMessage := InitialLoadingMessage;
      isKeyModalOpen := false;
      userKeys := [];
      serviceKeys := initialServiceKeys;
      storyIdea := "";
      style := defaultStyle;
      narrationLanguage := defaultLanguage;
      scriptStyle := DefaultScriptStyle;
      numStories := 3;
      generatedStories := [];
      selectedStoryId := None;
      numCharacters := 2;
      characters := [];
      videoDuration := 150;
      script := None;
    }

    /** The start-up effect: a non-empty stored key list is adopted as it
        is (without validation); otherwise the key dialog opens. */
    method RestoreKeys(stored: Option<seq<string>>)
      modifies this
      ensures stored.Some? && stored.value != [] ==>
                View() == old(View()).(userKeys := stored.value, serviceKeys := stored.value)
      ensures !(stored.Some? && stored.value != []) ==> View() == old(View()).(isKeyModalOpen := true)
    {
      if stored.Some? && |stored.value| > 0 {
        userKeys := stored.value;
        serviceKeys := stored.value;
      } else {
        isKeyModalOpen := true;
      }
    }

    /** Saves the keys typed in the dialog. Nothing changes when no line
        survives validation; otherwise both the session and the service get
        exactly the valid keys and the dialog closes. */
    method SaveKeys(rawKeys: seq<string>) returns (saved: bool)
      modifies this
      ensures saved == (ValidKeys(rawKeys) != [])
      ensures !saved ==> View() == old(View())
      ensures saved ==> View() == old(View()).(userKeys := ValidKeys(rawKeys), serviceKeys := ValidKeys(rawKeys),
                                               isKeyModalOpen := false)
    {
      var validKeys := ValidKeys(rawKeys);
      if |validKeys| == 0 {
        return false;
      }
      userKeys := validKeys;
      serviceKeys := validKeys;
      isKeyModalOpen := false;
      saved := true;
    }

    /** Deletes the keys once the user confirms, and reopens the dialog. */
    method DeleteKeys(confirmed: bool)
      modifies this
      ensures !confirmed ==> View() == old(View())
      ensures confirmed ==> View() == old(View()).(userKeys := [], serviceKeys := [], isKeyModalOpen := true)
    {
      if confirmed {
        userKeys := [];
        serviceKeys := [];
        isKeyModalOpen := true;
      }
    }

    /** Reports a caught value: returns the text shown to the user, stops
        loading, and reopens the key dialog only for the missing-keys signal. */
    method HandleApiError(error: Thrown) returns (shown: string)
      modifies this
      ensures shown == ErrorMessage(error)
      ensures View() == ApiErrorState(old(View()), shown)
    {
      shown := ErrorMessage(error);
      isLoading := false;
      if shown == MissingKeysMessage {
        isKeyModalOpen := true;
      }
    }

    /** Story step. Without keys the dialog opens and the service is not
        called; otherwise the answer is numbered 1..n, or the failure is
        reported. Loading is off afterwards either way. */
    method GenerateStories(service: (string, string, int) -> Outcome<seq<StoryDraft>>) returns (called: bool)
      modifies this
      ensures called == old(HasApiKeys())
      ensures !called ==> View() == old(View()).(isKeyModalOpen := true)
      ensures called ==>
                var answer := service(old(storyIdea), old(style), old(numStories));
                var loading := old(View()).(loadingMessage := StoriesLoadingMessage);
                View() == if answer.Ok? then loading.(generatedStories := NumberStories(answer.value), isLoading := false)
                          else ApiErrorState(loading, answer.msg)
    {
      if !HasApiKeys() {
        isKeyModalOpen := true;
        return false;
      }
      called := true;
      isLoading := true;
      loadingMessage := StoriesLoadingMessage;
      var answer := service(storyIdea, style, numStories);
      ApplyStories(answer);
    }

    /** Applies the service's answer for the stories step: on success the numbered
        stories are stored; a failure is reported. Loading is off afterwards either way. */
    method ApplyStories(answer: Outcome<seq<StoryDraft>>)
      modifies this
      ensures View() == if answer.Ok? then old(View()).(generatedStories := NumberStories(answer.value), isLoading := false)
                        else ApiErrorState(old(View()), answer.msg)
    {
      match answer {
        case Ok(drafts) =>
          generatedStories := NumberStories(drafts);
          isLoading := false;
        case Err(m) =>
          var _ := HandleApiError(ErrorObject(m));
      }
    }

    /** Marks a story as chosen. */
    method SelectStory(id: int)
      modifies this
      ensures View() == old(View()).(selectedStoryId := Some(id))
    {
      selectedStoryId := Some(id);
    }

    /** Character step. Without keys the dialog opens; without a chosen
        story nothing happens; in neither case is the service called.
        Otherwise the answer is numbered 1..n and the wizard moves to the
        character step, or the failure is reported. */
    method CreateCharacters(service: (Story, int, string) -> Outcome<seq<CharacterDraft>>) returns (called: bool)
      modifies this
      ensures called == (old(HasApiKeys()) && FindStory(old(generatedStories), old(selectedStoryId)).Some?)
      ensures !old(HasApiKeys()) ==> View() == old(View()).(isKeyModalOpen := true)
      ensures old(HasApiKeys()) && !called ==> View() == old(View())
      ensures called ==>
                var story := FindStory(old(generatedStories), old(selectedStoryId)).value;
                var answer := service(story, old(numCharacters), old(style));
                var loading := old(View()).(loadingMessage := CharactersLoadingMessage);
                View() == if answer.Ok? then loading.(characters := NumberCharacters(answer.value), step := CharacterCreation, isLoading := false)
                          else ApiErrorState(loading, answer.msg)
    {
      if !HasApiKeys() {
        isKeyModalOpen := true;
        return false;
      }
      var selected := FindStory(generatedStories, selectedStoryId);
      if selected.None? {
        return false;
      }
      called := true;
      isLoading := true;
      loadingMessage := CharactersLoadingMessage;
      var answer := service(selected.value, numCharacters, style);
      ApplyCharacters(answer);
    }

    /** Applies the service's answer for the characters step: on success the numbered
        characters are stored and the wizard moves on; a failure is reported. Loading is off afterwards either way. */
    method ApplyCharacters(answer: Outcome<seq<CharacterDraft>>)
      modifies this
      ensures View() == if answer.Ok? then old(View()).(characters := NumberCharacters(answer.value), step := CharacterCreation, isLoading := false)
                        else ApiErrorState(old(View()), answer.msg)
    {
      match answer {
        case Ok(drafts) =>
          characters := NumberCharacters(drafts);
          step := CharacterCreation;
          isLoading := false;
        case Err(m) =>
          var _ := HandleApiError(ErrorObject(m));
      }
    }

    /** Edits one text field of the characters with the given id. */
    method CharacterChange(id: int, field: CharField, value: string)
      modifies this
      ensures View() == old(View()).(characters := UpdateCharacter(old(characters), id, field, value))
    {
      characters := UpdateCharacter(characters, id, field, value);
    }

    /** Script step. Without keys the dialog opens; without a chosen story
        nothing happens; in neither case is the service called. Otherwise
        the script is stored and shown, or the failure is reported. */
    method GenerateScript(service: (Story, seq<Character>, int, string, string) -> Outcome<Script>) returns (called: bool)
      modifies this
      ensures called == (old(HasApiKeys()) && FindStory(old(generatedStories), old(selectedStoryId)).Some?)
      ensures !old(HasApiKeys()) ==> View() == old(View()).(isKeyModalOpen := true)
      ensures old(HasApiKeys()) && !called ==> View() == old(View())
      ensures called ==>
                var story := FindStory(old(generatedStories), old(selectedStoryId)).value;
                var answer := service(story, old(characters), old(videoDuration), old(narrationLanguage), old(scriptStyle));
                var loading := old(View()).(loadingMessage := ScriptLoadingMessage);
                View() == if answer.Ok? then loading.(script := Some(answer.value), step := ScriptDisplay, isLoading := false)
                          else ApiErrorState(loading, answer.msg)
    {
      if !HasApiKeys() {
        isKeyModalOpen := true;
        return false;
      }
      var selected := FindStory(generatedStories, selectedStoryId);
      if selected.None? {
        return false;
      }
      called := true;
      isLoading := true;
      loadingMessage := ScriptLoadingMessage;
      var answer := service(selected.value, characters, videoDuration, narrationLanguage, scriptStyle);
      ApplyScript(answer);
    }

    /** Applies the service's answer for the script step: on success the script is
        stored and shown; a failure is reported. Loading is off afterwards either way. */
    method ApplyScript(answer: Outcome<Script>)
      modifies this
      ensures View() == if answer.Ok? then old(View()).(script := Some(answer.value), step := ScriptDisplay, isLoading := false)
                        else ApiErrorState(old(View()), answer.msg)
    {
      match answer {
        case Ok(result) =>
          script := Some(result);
          step := ScriptDisplay;
          isLoading := false;
        case Err(m) =>
          var _ := HandleApiError(ErrorObject(m));
      }
    }

    /** Starts over: back to the story step with no stories, no selection,
        no characters and no script; keys and form inputs are kept. */
    method ResetApp()
      modifies this
      ensures View() == old(View()).(step := StoryIdeas, generatedStories := [], selectedStoryId := None,
                                     characters := [], script := None)
    {
      step := StoryIdeas;
      generatedStories := [];
      selectedStoryId := None;
      characters := [];
      script := None;
    }
  }
}
