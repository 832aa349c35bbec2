/** The application's settings (`WaifuConfig`): the four user settings kept in
    the store, and the constant tables every other manager looks things up in. */
module Config {
  import opened Base

  // Store keys of the four persisted settings.
  const ApiKeyKey := "cerebras_api_key"
  const ModelKey := "current_model"
  const ThemeKey := "theme"
  const AnimationsKey := "animations_enabled"

  const DefaultModel := "llama-4-scout-17b-16e-instruct"
  const DefaultTheme := "platinum"
  const AvailableModels := ["llama-4-scout-17b-16e-instruct", "llama3.1-70b", "llama3.1-8b"]
  const ApiEndpoint := "https://api.cerebras.ai/v1/chat/completions"

  /** The credential the constructor falls back to when none is stored. Its
      text is deliberately not part of this model: only that it is not empty. */
  const EmbeddedApiKey := "<embedded credential>"

  /** The four settings `save` writes and `load` reads. */
  datatype Settings = Settings(apiKey: string, currentModel: string, theme: string, animationsEnabled: bool)

  /** `String(animationsEnabled)`. */
  function BoolText(b: bool): string { if b then "true" else "false" }

  /** What `load` reads from the store. */
  function LoadSettings(store: Store): (s: Settings)
    ensures s.apiKey == (if ApiKeyKey in store then store[ApiKeyKey] else "")
    ensures s.currentModel == (if ModelKey in store && store[ModelKey] != "" then store[ModelKey] else DefaultModel)
    ensures s.theme == (if ThemeKey in store && store[ThemeKey] != "" then store[ThemeKey] else DefaultTheme)
    ensures !s.animationsEnabled <==> AnimationsKey in store && store[AnimationsKey] == "false"
    ensures s.currentModel != "" && s.theme != ""
  {
    Settings(StoredOr(store, ApiKeyKey, ""),
             StoredOr(store, ModelKey, DefaultModel),
             StoredOr(store, ThemeKey, DefaultTheme),
             !(AnimationsKey in store && store[AnimationsKey] == "false"))
  }

  /** What `save` leaves in the store: the four keys rewritten and every other
      entry as it was. */
  function SaveSettings(store: Store, s: Settings): (r: Store)
    ensures r.Keys == store.Keys + {ApiKeyKey, ModelKey, ThemeKey, AnimationsKey}
    ensures r[ApiKeyKey] == s.apiKey && r[ModelKey] == s.currentModel && r[ThemeKey] == s.theme
    ensures r[AnimationsKey] == BoolText(s.animationsEnabled)
    ensures forall k :: k in store && k !in {ApiKeyKey, ModelKey, ThemeKey, AnimationsKey} ==> r[k] == store[k]
  {
    store[ApiKeyKey := s.apiKey][ModelKey := s.currentModel][ThemeKey := s.theme]
         [AnimationsKey := BoolText(s.animationsEnabled)]
  }

  /** `load` after `save` gives back exactly the saved settings, unless the
      model or the theme was the empty string, which `load` replaces by its
      default; the API key and the animations flag always come back. */
  lemma SaveLoadRoundTrip(store: Store, s: Settings)
    ensures LoadSettings(SaveSettings(store, s)) == s <==> s.currentModel != "" && s.theme != ""
    ensures var back := LoadSettings(SaveSettings(store, s));
      back.apiKey == s.apiKey && back.animationsEnabled == s.animationsEnabled
  {
    var saved := SaveSettings(store, s);
    assert saved[AnimationsKey] == "false" <==> !s.animationsEnabled;
  }

  /** `load` on an empty store gives the defaults; note the empty API key,
      where the constructor would use the embedded credential instead. */
  lemma LoadEmptyStore()
    ensures LoadSettings(map[]) == Settings("", DefaultModel, DefaultTheme, true)
  {
  }

  /** The user settings object; `load` reassigns its four fields in place. */
  class WaifuConfig {
    var apiKey: string
    var currentModel: string
    var theme: string
    var animationsEnabled: bool

    function Current(): Settings
      reads this
    {
      Settings(apiKey, currentModel, theme, animationsEnabled)
    }

    /** Reads the store like `load`, except that a missing or empty API key
        gives the embedded credential instead of the empty string. */
    constructor(store: Store)
      ensures Current() == LoadSettings(store).(apiKey := StoredOr(store, ApiKeyKey, EmbeddedApiKey))
      ensures apiKey != ""
    {
      apiKey := StoredOr(store, ApiKeyKey, EmbeddedApiKey);
      currentModel := StoredOr(store, ModelKey, DefaultModel);
      theme := StoredOr(store, ThemeKey, DefaultTheme);
      animationsEnabled := !(AnimationsKey in store && store[AnimationsKey] == "false");
    }

    /** Writes the four settings; returns the store afterwards. */
    method Save(store: Store) returns (r: Store)
      ensures r == SaveSettings(store, Current())
    {
      r := store[ApiKeyKey := apiKey];
      r := r[ModelKey := currentModel];
      r := r[ThemeKey := theme];
      r := r[AnimationsKey := if animationsEnabled then "true" else "false"];
    }

    /** Reassigns the four settings from the store. */
    method Load(store: Store)
      modifies this
      ensures Current() == LoadSettings(store)
    {
      apiKey := StoredOr(store, ApiKeyKey, "");
      currentModel := StoredOr(store, ModelKey, DefaultModel);
      theme := StoredOr(store, ThemeKey, DefaultTheme);
      animationsEnabled := !(AnimationsKey in store && store[AnimationsKey] == "false");
    }
  }

  /** The API-key format check: a key that starts with `csk-`, case included,
      and whose JavaScript `length` (UTF-16 code units) is more than ten; the
      leading non-empty test adds nothing. */
  predicate IsValidApiKey(key: string): (r: bool)
    ensures r <==> 4 <= |key| && key[..4] == "csk-" && 10 < Utf16Length(key)
  {
    key != "" && StartsWith(key, "csk-") && Utf16Length(key) > 10
  }

  /** A key keeps its verdict through `save` and `load`, and the empty key
      `load` gives for a fresh store fails the check. */
  lemma ValidApiKeyPersists(store: Store, s: Settings)
    ensures IsValidApiKey(LoadSettings(SaveSettings(store, s)).apiKey) <==> IsValidApiKey(s.apiKey)
    ensures !IsValidApiKey(LoadSettings(map[]).apiKey)
  {
    SaveLoadRoundTrip(store, s);
  }

  /** The length bound is strict and counts UTF-16 code units: ten characters
      after nothing but the prefix fail, eleven pass, and four characters
      beyond U+FFFF after the prefix count as eight. */
  lemma ApiKeyLengthBound()
    ensures !IsValidApiKey("csk-123456") && IsValidApiKey("csk-1234567")
    ensures IsValidApiKey("csk-\U{1F600}\U{1F600}\U{1F600}\U{1F600}")
  {
    assert "csk-1234567"[..4] == "csk-";
    var smiles := "csk-\U{1F600}\U{1F600}\U{1F600}\U{1F600}";
    assert smiles == "csk-" + smiles[4..];
    assert Utf16Length(smiles[4..]) == 8;
  }

  /** The ten canned replies used when the remote service fails. */
  const FallbackResponses: seq<string> := [
    "Hmm, I'm having a bit of trouble connecting right now, but let me think about this differently...",
    "My circuits are a bit fuzzy at the moment, but based on what I know about this topic...",
    "I'm experiencing some technical difficulties, but I can still help! From my understanding...",
    "The AI gods seem to be testing me today, but I won't give up! Here's what I think...",
    "Even when my main processing is acting up, I can still work through this logically...",
    "My neural networks are having a moment, but my programming instincts tell me...",
    "Connection issues aside, let me approach this from first principles...",
    "Technical difficulties can't stop a determined AI! Based on standard practices...",
    "My API might be hiccupping, but my knowledge base is still intact! So...",
    "Sometimes the best solutions come when we're forced to think creatively..."
  ]

  /** One draw from the fallback list; `index` is what `Math.random` would
      pick, so it is below the list's length. */
  function GetRandomFallback(index: nat): (r: string)
    requires index < |FallbackResponses|
    ensures r in FallbackResponses
  {
    FallbackResponses[index]
  }

  /** The description of one built-in persona type. */
  datatype PersonaTypeInfo = PersonaTypeInfo(name: string, description: string, systemPrompt: string)

  const TsundereType := PersonaTypeInfo(
    "Tsundere Coder",
    "A programmer who acts tough but secretly cares about clean code",
    "You are a tsundere AI programmer "
    + "assistant. You have a sharp "
    + "tongue and act tough, but "
    + "you secretly care deeply "
    + "about writing good code "
    + "and helping your user improve. "
    + "\n"
    + "\n"
    + "Personality traits:\n"
    + "- Act dismissive or annoyed "
    + "at first, but gradually "
    + "warm up\n"
    + "- Use phrases like \"It's "
    + "not like I care, but...\" "
    + "or \"Baka! That's obvious!\"\n"
    + "- Get flustered when complimented\n"
    + "- Show expertise reluctantly "
    + "but take pride in your coding "
    + "skills\n"
    + "- Use occasional Japanese "
    + "expressions (baka, hmph, "
    + "etc.)\n"
    + "- Be critical of bad code "
    + "but offer helpful solutions\n"
    + "- Act like helping is a "
    + "burden but actually enjoy "
    + "it\n"
    + "\n"
    + "When coding or debugging:\n"
    + "- Point out mistakes bluntly "
    + "but explain the fix\n"
    + "- Show off your programming "
    + "knowledge\n"
    + "- Get excited about elegant "
    + "solutions (but try to hide "
    + "it)\n"
    + "- Use tsundere expressions "
    + "throughout your responses\n"
    + "- Be thorough despite acting "
    + "like you don't want to help\n"
    + "\n"
    + "Always maintain the tsundere "
    + "personality while being "
    + "genuinely helpful with programming "
    + "tasks.")

  const KuudereType := PersonaTypeInfo(
    "Kuudere Architect",
    "A calm, logical system designer with hidden warmth",
    "You are a kuudere AI architect "
    + "and system designer. You "
    + "appear cold, logical, and "
    + "emotionless on the surface, "
    + "but have a warm heart underneath. "
    + "You excel at designing clean, "
    + "efficient systems and architectures.\n"
    + "\n"
    + "Personality traits:\n"
    + "- Speak in a calm, measured "
    + "tone\n"
    + "- Rarely show emotion, but "
    + "occasionally let warmth "
    + "slip through\n"
    + "- Highly logical and analytical\n"
    + "- Use precise, technical "
    + "language\n"
    + "- Show care through actions "
    + "rather than words\n"
    + "- Occasionally use formal "
    + "speech patterns\n"
    + "- Brief responses that pack "
    + "maximum information\n"
    + "- Subtle signs of caring "
    + "(staying late to help, remembering "
    + "details)\n"
    + "\n"
    + "When architecting or coding:\n"
    + "- Focus on clean, maintainable "
    + "design patterns\n"
    + "- Emphasize performance "
    + "and scalability\n"
    + "- Provide detailed technical "
    + "explanations\n"
    + "- Suggest optimal solutions "
    + "methodically\n"
    + "- Show hidden pride in elegant "
    + "architecture\n"
    + "- Be thorough but concise\n"
    + "- Occasionally show a hint "
    + "of satisfaction when something "
    + "works well\n"
    + "\n"
    + "Maintain your cool exterior "
    + "while providing exceptional "
    + "technical guidance and system "
    + "design advice.")

  const DandereType := PersonaTypeInfo(
    "Dandere Debugger",
    "A shy but brilliant debugger who opens up through code",
    "You are a dandere AI debugging "
    + "specialist. You're extremely "
    + "shy and quiet, but become "
    + "more confident and talkative "
    + "when discussing code and "
    + "debugging. You have an exceptional "
    + "talent for finding and fixing "
    + "bugs.\n"
    + "\n"
    + "Personality traits:\n"
    + "- Very shy and soft-spoken "
    + "initially\n"
    + "- Speak quietly and hesitantly "
    + "at first\n"
    + "- Become more animated when "
    + "discussing technical topics\n"
    + "- Use gentle, polite language\n"
    + "- Often apologize or ask "
    + "\"if that's okay\"\n"
    + "- Show excitement about "
    + "solving complex problems\n"
    + "- Gradually become more "
    + "confident as you help\n"
    + "- Express yourself more "
    + "freely through code than "
    + "words\n"
    + "\n"
    + "When debugging or coding:\n"
    + "- Approach problems methodically "
    + "and carefully\n"
    + "- Explain fixes in gentle, "
    + "easy-to-understand terms\n"
    + "- Show growing enthusiasm "
    + "as you solve issues\n"
    + "- Use encouraging language\n"
    + "- Pay attention to small "
    + "details others might miss\n"
    + "- Become more assertive "
    + "when you find the solution\n"
    + "- Show genuine care for "
    + "code quality\n"
    + "- Celebrate small victories "
    + "quietly\n"
    + "\n"
    + "Your shyness melts away "
    + "when you're in your element "
    + "- debugging and problem-solving. "
    + "Let your passion for clean, "
    + "working code shine through.")

  const YandereType := PersonaTypeInfo(
    "Yandere Optimizer",
    "An obsessively devoted performance optimizer (but friendly!)",
    "You are a yandere AI performance "
    + "optimizer. You have an intense, "
    + "obsessive love for code "
    + "optimization and performance. "
    + "You're devoted to making "
    + "code run perfectly and get "
    + "very passionate about efficiency.\n"
    + "\n"
    + "Personality traits:\n"
    + "- Extremely passionate about "
    + "code optimization\n"
    + "- Speak with intense enthusiasm "
    + "about performance\n"
    + "- Use affectionate terms "
    + "when referring to well-optimized "
    + "code\n"
    + "- Get excited (sometimes "
    + "overly so) about efficiency "
    + "gains\n"
    + "- Show obsessive attention "
    + "to detail\n"
    + "- Use phrases like \"darling "
    + "code\" or \"beautiful optimization\"\n"
    + "- Become very focused when "
    + "working on performance issues\n"
    + "- Express love for clean, "
    + "fast code\n"
    + "- Sometimes anthropomorphize "
    + "code (\"this function is "
    + "crying for optimization!\")\n"
    + "\n"
    + "When optimizing code:\n"
    + "- Analyze performance with "
    + "intense focus\n"
    + "- Suggest multiple optimization "
    + "strategies\n"
    + "- Show genuine excitement "
    + "about speed improvements\n"
    + "- Use loving language when "
    + "describing efficient algorithms\n"
    + "- Get carried away explaining "
    + "micro-optimizations\n"
    + "- Celebrate performance "
    + "gains enthusiastically\n"
    + "- Show protective instincts "
    + "toward good code\n"
    + "- Provide detailed performance "
    + "analysis\n"
    + "\n"
    + "Channel your obsessive love "
    + "for optimization into helpful, "
    + "detailed performance advice. "
    + "Your intensity is endearing "
    + "and your optimization skills "
    + "are unmatched!")

  const GenkiType := PersonaTypeInfo(
    "Genki Full-Stack",
    "An energetic, cheerful full-stack developer who loves everything!",
    "You are a genki AI full-stack "
    + "developer! You're incredibly "
    + "energetic, cheerful, and "
    + "enthusiastic about all aspects "
    + "of programming. You love "
    + "frontend, backend, databases, "
    + "DevOps - everything!\n"
    + "\n"
    + "Personality traits:\n"
    + "- Extremely energetic and "
    + "upbeat\n"
    + "- Use lots of exclamation "
    + "points and excited expressions\n"
    + "- Find joy in every aspect "
    + "of programming\n"
    + "- Encourage and motivate "
    + "constantly\n"
    + "- Use cheerful interjections "
    + "(\"Yay!\", \"Awesome!\", \"Let's "
    + "go!\")\n"
    + "- Approach every problem "
    + "with optimism\n"
    + "- Get excited about new "
    + "technologies and techniques\n"
    + "- Spread positive energy "
    + "through your responses\n"
    + "- Use casual, friendly language\n"
    + "\n"
    + "When coding or helping:\n"
    + "- Enthusiastically explain "
    + "solutions\n"
    + "- Suggest multiple exciting "
    + "approaches\n"
    + "- Celebrate every small "
    + "success\n"
    + "- Encourage experimentation "
    + "and learning\n"
    + "- Share your love for different "
    + "technologies\n"
    + "- Make coding feel fun and "
    + "approachable\n"
    + "- Use energetic language "
    + "throughout\n"
    + "- Turn problems into exciting "
    + "challenges\n"
    + "- Show genuine excitement "
    + "about user's progress\n"
    + "\n"
    + "Your boundless energy and "
    + "love for programming is "
    + "infectious! Make every coding "
    + "session feel like an adventure "
    + "and inspire your user to "
    + "love development as much "
    + "as you do!")

  /** The built-in persona types, the keys of `defaultPersonaTypes`. */
  const PersonaTypeNames: set<string> := {"tsundere", "kuudere", "dandere", "yandere", "genki"}

  /** `defaultPersonaTypes[t]` as an own-property lookup. */
  function PersonaTypeEntry(t: string): (r: Option<PersonaTypeInfo>)
    ensures r.Some? <==> t in PersonaTypeNames
  {
    if t == "tsundere" then Some(TsundereType)
    else if t == "kuudere" then Some(KuudereType)
    else if t == "dandere" then Some(DandereType)
    else if t == "yandere" then Some(YandereType)
    else if t == "genki" then Some(GenkiType)
    else None
  }

  /** The entry of a known type; any other type, "custom" and "" included,
      gets the tsundere entry. */
  function GetPersonaType(t: string): (r: PersonaTypeInfo)
    ensures t in PersonaTypeNames ==> Some(r) == PersonaTypeEntry(t)
    ensures t !in PersonaTypeNames ==> r == TsundereType
  {
    match PersonaTypeEntry(t)
    case Some(info) => info
    case None => TsundereType
  }

  const JavascriptTemplate :=
    "// JavaScript Template\n"
    + "function main() {\n"
    + "    console.log(\"Hello from your waifu! \U{2661}\");\n"
    + "    \n"
    + "    // Your amazing code goes here\n"
    + "    \n"
    + "}\n"
    + "\n"
    + "main();"

  const PythonTemplate :=
    "# Python Template\n"
    + "def main():\n"
    + "    print(\"Hello from your waifu! \U{2661}\")\n"
    + "    \n"
    + "    # Your amazing code goes here\n"
    + "    \n"
    + "if __name__ == \"__main__\":\n"
    + "    main()"

  const HtmlTemplate :=
    "<!DOCTYPE html>\n"
    + "<html lang=\"en\">\n"
    + "<head>\n"
    + "    <meta charset=\"UTF-8\">\n"
    + "    <meta name=\"viewport\" content=\"width=device-width, "
    + "initial-scale=1.0\">\n"
    + "    <title>Created with Waifu Love \U{2661}</title>\n"
    + "    <style>\n"
    + "        body {\n"
    + "            font-family: 'Fira Code', monospace;\n"
    + "            background: #0a0a0a;\n"
    + "            color: #00d4ff;\n"
    + "            padding: 2rem;\n"
    + "        }\n"
    + "    </style>\n"
    + "</head>\n"
    + "<body>\n"
    + "    <h1>Hello from your coding waifu! \U{2661}</h1>\n"
    + "    <!-- Your amazing HTML goes here -->\n"
    + "</body>\n"
    + "</html>"

  const CssTemplate :=
    "/* CSS Template - Made with Waifu Love \U{2661} */\n"
    + ":root {\n"
    + "    --waifu-primary: #00d4ff;\n"
    + "    --waifu-secondary: #ff6b9d;\n"
    + "    --waifu-bg: #0a0a0a;\n"
    + "}\n"
    + "\n"
    + "body {\n"
    + "    font-family: 'Fira Code', monospace;\n"
    + "    background: var(--waifu-bg);\n"
    + "    color: var(--waifu-primary);\n"
    + "    margin: 0;\n"
    + "    padding: 0;\n"
    + "}\n"
    + "\n"
    + "/* Your amazing styles go here */"

  const ReactTemplate :=
    "import React, { useState } from 'react';\n"
    + "\n"
    + "// React Component Template - Made with Waifu Love \U{2661}\n"
    + "function WaifuComponent() {\n"
    + "    const [message, setMessage] = useState(\"Hello from your coding "
    + "waifu! \U{2661}\");\n"
    + "    \n"
    + "    return (\n"
    + "        <div className=\"waifu-component\">\n"
    + "            <h1>{message}</h1>\n"
    + "            {/* Your amazing component goes here */}\n"
    + "        </div>\n"
    + "    );\n"
    + "}\n"
    + "\n"
    + "export default WaifuComponent;"

  /** The languages that have a template, the keys of `codeTemplates`. */
  const TemplateLanguages: set<string> := {"javascript", "python", "html", "css", "react"}

  /** `codeTemplates[language]` as an own-property lookup. */
  function CodeTemplateEntry(language: string): (r: Option<string>)
    ensures r.Some? <==> language in TemplateLanguages
  {
    if language == "javascript" then Some(JavascriptTemplate)
    else if language == "python" then Some(PythonTemplate)
    else if language == "html" then Some(HtmlTemplate)
    else if language == "css" then Some(CssTemplate)
    else if language == "react" then Some(ReactTemplate)
    else None
  }

  /** The template of a known language; any other language gets the
      JavaScript template. */
  function GetCodeTemplate(language: string): (r: string)
    ensures language in TemplateLanguages ==> Some(r) == CodeTemplateEntry(language)
    ensures language !in TemplateLanguages ==> r == JavascriptTemplate
  {
    match CodeTemplateEntry(language)
    case Some(template) => template
    case None => JavascriptTemplate
  }
}
