/** The chat panel of components/RightPanel.tsx: the transcript, the input
    box, the send flow with its automatic language switch, the routing of
    speech-recognition results, and the language selector in its header.

    The language state is the shared `LanguageProvider`, the assistant is
    the `GeminiAgent`, and OpenCC's Simplified-to-Traditional converter is
    the function `convert`. Message ids (`Date.now()` in the source) are
    parameters. React runs the `[language]` effect after the render that
    changed the language; a method here performs it at that point. */
module RightPanel {
  import opened LedgerTypes
  import opened Translations
  import Text
  import LanguageContext
  import GeminiService

  datatype Role = User | Model | System

  datatype ChatMessage = ChatMessage(id: string, role: Role, content: string)

  /** The reply shown when the assistant fails. */
  const ErrorText: string :=
    "Sorry, I encountered an error connecting to Gemini. Please check your API Key."

  /** `getInitialGreeting()` in language `lang`. */
  function Greeting(lang: Language): string {
    T(AiGreeting, lang) + "\n\n" + T(AiHelpIntro, lang) + "\n" + T(AiHelp1, lang) + "\n" +
    T(AiHelp2, lang) + "\n" + T(AiHelp3, lang) + "\n\n" + T(AiPrompt, lang)
  }

  /** The transcript's first message. */
  function GreetingMessage(lang: Language): ChatMessage {
    ChatMessage("0", Model, Greeting(lang))
  }

  /** The language after a send of `input`: a Chinese input switches an
      unlocked language to Simplified or Traditional Chinese. */
  function AutoLanguage(input: string, language: Language, manual: bool): (r: Language)
    ensures manual || !LanguageContext.ContainsChinese(input) ==> r == language
    ensures !manual && LanguageContext.ContainsChinese(input) ==>
              (r == ZhCN <==> LanguageContext.IsSimplifiedChinese(input)) && r != En
  {
    if !manual && LanguageContext.ContainsChinese(input) then
      if LanguageContext.IsSimplifiedChinese(input) then ZhCN else ZhTW
    else language
  }

  /** Whether a send calls `setLanguage`. */
  predicate Switches(input: string, manual: bool) {
    !manual && LanguageContext.ContainsChinese(input)
  }

  /** Text with some Simplified-only character and no Traditional one moves
      an unlocked panel to Simplified Chinese, from any language. */
  lemma SimplifiedInputSwitchesToZhCN(input: string, language: Language)
    requires LanguageContext.IsSimplifiedChinese(input)
    ensures Switches(input, false) && AutoLanguage(input, language, false) == ZhCN
  {
    LanguageContext.SimplifiedImpliesChinese(input);
  }

  /** The model message that ends a send: the agent's answer or the
      fixed error text. */
  function ReplyText(answer: Result<string, string>): (r: string)
    ensures answer.Ok? ==> r == answer.value
    ensures answer.Err? ==> r == ErrorText
  {
    if answer.Ok? then answer.value else ErrorText
  }

  /** Every send ends with a non-empty model message. */
  lemma ReplyNeverEmpty(c: GeminiService.Conversation, message: string)
    ensures ReplyText(GeminiService.SendSpec(c, message).1) != ""
  {
    var first := GeminiService.NextReply(c.script);
    GeminiService.ConverseShape(GeminiService.Conversation(c.world, first.1, c.sent + [GeminiService.UserText(message)]), first.0);
  }

  /** `handleSpeechResult(transcript)`: the new input text and the new
      language. */
  function SpeechSpec(transcript: string, language: Language, manual: bool,
                      convert: string -> string): (r: (string, Language))
    ensures !LanguageContext.ContainsChinese(transcript) ==> r == (transcript, language)
    ensures LanguageContext.ContainsChinese(transcript) && language == ZhCN ==> r == (transcript, ZhCN)
    ensures LanguageContext.ContainsChinese(transcript) && language != ZhCN ==> r.0 == convert(transcript)
    ensures r.1 != language <==> LanguageContext.ContainsChinese(transcript) && language == En && !manual
    ensures r.1 != language ==> r.1 == ZhTW
  {
    if LanguageContext.ContainsChinese(transcript) then
      match language
      case ZhTW => (convert(transcript), ZhTW)
      case ZhCN => (transcript, ZhCN)
      case En => (convert(transcript), if !manual then ZhTW else En)
    else (transcript, language)
  }

  /** What an interim recognition result puts into the input box. */
  function InterimText(transcript: string, language: Language, convert: string -> string): string {
    if language == ZhTW && LanguageContext.ContainsChinese(transcript) then convert(transcript) else transcript
  }

  /** The interim text already shows what the final result will set, except
      for Chinese heard in English mode, which is converted only at the
      end. */
  lemma InterimMatchesFinal(transcript: string, language: Language, manual: bool, convert: string -> string)
    ensures InterimText(transcript, language, convert) == SpeechSpec(transcript, language, manual, convert).0 <==>
            !(language == En && LanguageContext.ContainsChinese(transcript)) ||
            convert(transcript) == transcript
  {
  }

  class ChatPanel {
    var messages: seq<ChatMessage>
    var input: string
    var isLoading: bool
    var isListening: bool
    /** whether the browser offers speech recognition */
    const speechSupported: bool
    const provider: LanguageContext.LanguageProvider
    const agent: GeminiService.GeminiAgent
    /** OpenCC's Simplified-to-Traditional converter */
    const convert: string -> string

    constructor (provider: LanguageContext.LanguageProvider, agent: GeminiService.GeminiAgent,
                 convert: string -> string, speechSupported: bool)
      ensures messages == [GreetingMessage(provider.language)]
      ensures input == "" && !isLoading && !isListening
      ensures this.provider == provider && this.agent == agent && this.convert == convert
      ensures this.speechSupported == speechSupported
    {
      messages := [GreetingMessage(provider.language)];
      input := "";
      isLoading := false;
      isListening := false;
      this.speechSupported := speechSupported;
      this.provider := provider;
      this.agent := agent;
      this.convert := convert;
    }

    /** The `[language]` effect: the transcript becomes the greeting in the
        current language. */
    method LanguageEffect()
      modifies this
      ensures messages == [GreetingMessage(provider.language)]
      ensures input == old(input) && isLoading == old(isLoading) && isListening == old(isListening)
    {
      messages := [GreetingMessage(provider.language)];
    }

    /** `setLanguage(lang)` followed, when the language changed, by the
        effect. */
    method SwitchLanguage(lang: Language)
      modifies this, provider
      ensures provider.language == lang && provider.isManuallySet == old(provider.isManuallySet)
      ensures provider.storage == old(provider.storage)[LanguageContext.StorageKey := Code(lang)]
      ensures messages == if lang != old(provider.language) then [GreetingMessage(lang)] else old(messages)
      ensures input == old(input) && isLoading == old(isLoading) && isListening == old(isListening)
    {
      var before := provider.language;
      provider.SetLanguage(lang);
      if lang != before {
        LanguageEffect();
      }
    }

    /** `LanguageSelector.handleSelect(code)`: select the language and lock
        it against automatic switching. */
    method HandleSelect(code: Language)
      modifies this, provider
      ensures provider.language == code && provider.isManuallySet
      ensures provider.storage == old(provider.storage)[LanguageContext.StorageKey := Code(code)][LanguageContext.ManualKey := "true"]
      ensures messages == if code != old(provider.language) then [GreetingMessage(code)] else old(messages)
      ensures input == old(input) && isLoading == old(isLoading) && isListening == old(isListening)
    {
      SwitchLanguage(code);
      provider.HandleSetManually(true);
    }

    /** The synchronous part of `handleSend`: the guard, the automatic
        language switch, then the user's message is appended, the input
        cleared and loading set. The effect of a language change runs
        after this. */
    method BeginSend(userId: string) returns (proceed: bool)
      modifies this, provider
      ensures proceed <==> !Text.IsBlank(old(input)) && !old(isLoading)
      ensures !proceed ==>
                messages == old(messages) && input == old(input) && isLoading == old(isLoading) &&
                provider.language == old(provider.language) && provider.storage == old(provider.storage)
      ensures proceed ==>
                provider.language == AutoLanguage(old(input), old(provider.language), old(provider.isManuallySet)) &&
                provider.storage == (if Switches(old(input), old(provider.isManuallySet))
                                     then old(provider.storage)[LanguageContext.StorageKey := Code(provider.language)]
                                     else old(provider.storage)) &&
                messages == old(messages) + [ChatMessage(userId, User, old(input))] &&
                input == "" && isLoading
      ensures provider.isManuallySet == old(provider.isManuallySet) && isListening == old(isListening)
    {
      if Text.IsBlank(input) || isLoading {
        return false;
      }
      if !provider.isManuallySet && LanguageContext.ContainsChinese(input) {
        if LanguageContext.IsSimplifiedChinese(input) {
          provider.SetLanguage(ZhCN);
        } else {
          provider.SetLanguage(ZhTW);
        }
      }
      messages := messages + [ChatMessage(userId, User, input)];
      input := "";
      isLoading := true;
      return true;
    }

    /** The end of `handleSend`: one model message with the answer or the
        error text, and loading ends. */
    method FinishSend(replyId: string, answer: Result<string, string>)
      modifies this
      ensures messages == old(messages) + [ChatMessage(replyId, Model, ReplyText(answer))]
      ensures !isLoading && input == old(input) && isListening == old(isListening)
    {
      messages := messages + [ChatMessage(replyId, Model, ReplyText(answer))];
      isLoading := false;
    }

    /** `handleSend()`. A blank input or a send in progress changes nothing.
        Otherwise the user's message is appended and sent to the agent, and
        exactly one model message follows; if the send switched the
        language, the effect has meanwhile replaced the transcript, user
        message included, by the new greeting. */
    method HandleSend(userId: string, replyId: string)
      modifies this, provider, agent, agent.store, agent.store.bus
      ensures Text.IsBlank(old(input)) || old(isLoading) ==>
                messages == old(messages) && input == old(input) && isLoading == old(isLoading) &&
                provider.language == old(provider.language) && provider.storage == old(provider.storage) &&
                agent.ConversationOf() == old(agent.ConversationOf())
      ensures !Text.IsBlank(old(input)) && !old(isLoading) ==>
                var lang := AutoLanguage(old(input), old(provider.language), old(provider.isManuallySet));
                var sent := GeminiService.SendSpec(old(agent.ConversationOf()), old(input));
                provider.language == lang &&
                messages == (if lang != old(provider.language) then [GreetingMessage(lang)]
                             else old(messages) + [ChatMessage(userId, User, old(input))]) +
                            [ChatMessage(replyId, Model, ReplyText(sent.1))] &&
                agent.ConversationOf() == sent.0 &&
                input == "" && !isLoading
      ensures provider.isManuallySet == old(provider.isManuallySet) && isListening == old(isListening)
    {
      var text := input;
      var before := provider.language;
      var proceed := BeginSend(userId);
      if !proceed {
        return;
      }
      if provider.language != before {
        LanguageEffect();
      }
      var answer := agent.SendMessage(text);
      FinishSend(replyId, answer);
    }

    /** `handleKeyDown`: Enter without Shift sends. */
    method HandleKeyDown(key: string, shiftKey: bool, userId: string, replyId: string)
      modifies this, provider, agent, agent.store, agent.store.bus
      ensures !(key == "Enter" && !shiftKey) ==>
                messages == old(messages) && input == old(input) && isLoading == old(isLoading) &&
                provider.language == old(provider.language) && provider.storage == old(provider.storage) &&
                agent.ConversationOf() == old(agent.ConversationOf())
      ensures key == "Enter" && !shiftKey && (Text.IsBlank(old(input)) || old(isLoading)) ==>
                messages == old(messages) && input == old(input) && isLoading == old(isLoading)
      ensures key == "Enter" && !shiftKey && !Text.IsBlank(old(input)) && !old(isLoading) ==>
                input == "" && !isLoading &&
                |messages| > 0 && messages[|messages| - 1].role == Model &&
                agent.ConversationOf() == GeminiService.SendSpec(old(agent.ConversationOf()), old(input)).0
      ensures provider.isManuallySet == old(provider.isManuallySet) && isListening == old(isListening)
    {
      if key == "Enter" && !shiftKey {
        HandleSend(userId, replyId);
      }
    }

    /** `handleSpeechResult(transcript)` for a final recognition result,
        followed by the effect when it switched the language. */
    method HandleSpeechResult(transcript: string)
      modifies this, provider
      ensures (input, provider.language) ==
              SpeechSpec(transcript, old(provider.language), old(provider.isManuallySet), convert)
      ensures provider.storage == if provider.language != old(provider.language)
                                  then old(provider.storage)[LanguageContext.StorageKey := Code(provider.language)]
                                  else old(provider.storage)
      ensures messages == if provider.language != old(provider.language)
                          then [GreetingMessage(provider.language)] else old(messages)
      ensures provider.isManuallySet == old(provider.isManuallySet)
      ensures isLoading == old(isLoading) && isListening == old(isListening)
    {
      if LanguageContext.ContainsChinese(transcript) {
        if provider.language == ZhTW {
          input := convert(transcript);
        } else if provider.language == ZhCN {
          input := transcript;
        } else {
          input := convert(transcript);
          if !provider.isManuallySet {
            SwitchLanguage(ZhTW);
          }
        }
      } else {
        input := transcript;
      }
    }

    /** `recognition.onresult`: a final result is handled as above, an
        interim one only updates the input box. */
    method OnRecognitionResult(transcript: string, isFinal: bool)
      modifies this, provider
      ensures isFinal ==>
                (input, provider.language) ==
                SpeechSpec(transcript, old(provider.language), old(provider.isManuallySet), convert)
      ensures !isFinal ==>
                input == InterimText(transcript, old(provider.language), convert) &&
                provider.language == old(provider.language) && provider.storage == old(provider.storage) &&
                messages == old(messages)
      ensures provider.isManuallySet == old(provider.isManuallySet)
      ensures isLoading == old(isLoading) && isListening == old(isListening)
    {
      if isFinal {
        HandleSpeechResult(transcript);
      } else if provider.language == ZhTW && LanguageContext.ContainsChinese(transcript) {
        input := convert(transcript);
      } else {
        input := transcript;
      }
    }

    /** `toggleListening()`: without recognition nothing happens; a running
        recognition stops; otherwise the input is cleared and listening
        starts. */
    method ToggleListening()
      modifies this
      ensures !speechSupported ==> input == old(input) && isListening == old(isListening)
      ensures speechSupported ==> isListening == !old(isListening)
      ensures speechSupported ==> input == if old(isListening) then old(input) else ""
      ensures messages == old(messages) && isLoading == old(isLoading)
    {
      if !speechSupported {
        return;
      }
      if isListening {
        isListening := false;
      } else {
        input := "";
        isListening := true;
      }
    }

    /** `recognition.onend` and `recognition.onerror`. */
    method OnRecognitionEnd()
      modifies this
      ensures !isListening
      ensures messages == old(messages) && input == old(input) && isLoading == old(isLoading)
    {
      isListening := false;
    }
  }
}
