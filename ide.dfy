/** The code editor (`IDEManager`): the table of open files with their
    language and unsaved flag, the file the editor shows, language detection
    from a file name, and the help request that sends the code to the
    selected persona. */
module Ide {
  import opened Base
  import Config
  import Personas
  import Chat

  /** One entry of `files`. */
  datatype FileEntry = FileEntry(content: string, language: string, modified: bool)

  /** The keys of `languageMap`: the extensions that are recognised. */
  const Extensions: set<string> :=
    {"js", "jsx", "ts", "tsx", "py", "html", "htm", "css", "scss", "sass", "json", "md"}

  /** The keys of `modeMap`, which are also the languages `languageMap` yields. */
  const Modes: set<string> := {"javascript", "python", "xml", "css", "markdown"}

  /** The language of an unrecognised extension, and the mode of an
      unrecognised language. */
  const PlainText := "text"

  /** `languageMap[ext]` as an own-property lookup. */
  function LanguageEntry(ext: string): (r: Option<string>)
    ensures r.Some? <==> ext in Extensions
    ensures r.Some? ==> r.value in Modes
  {
    if ext == "js" || ext == "jsx" || ext == "ts" || ext == "tsx" || ext == "json" then Some("javascript")
    else if ext == "py" then Some("python")
    else if ext == "html" || ext == "htm" then Some("xml")
    else if ext == "css" || ext == "scss" || ext == "sass" then Some("css")
    else if ext == "md" then Some("markdown")
    else None
  }

  /** `detectLanguageFromFilename`: the lower-cased text after the last dot,
      looked up in `languageMap`; an unknown extension gives `'text'`. */
  function DetectLanguage(filename: string): (r: string)
    ensures r in Modes || r == PlainText
    ensures r == PlainText <==> ToLowerAscii(AfterLastDot(filename)) !in Extensions
    ensures var ext := ToLowerAscii(AfterLastDot(filename));
      ext in Extensions ==> LanguageEntry(ext) == Some(r)
  {
    match LanguageEntry(ToLowerAscii(AfterLastDot(filename)))
    case Some(language) => language
    case None => PlainText
  }

  /** `modeMap[language]` as an own-property lookup. */
  function ModeEntry(language: string): (r: Option<string>)
    ensures r.Some? <==> language in Modes
  {
    if language == "javascript" then Some("javascript")
    else if language == "python" then Some("python")
    else if language == "xml" then Some("xml")
    else if language == "css" then Some("css")
    else if language == "markdown" then Some("markdown")
    else None
  }

  /** `getEditorMode`: every known language is its own mode, and any other
      language is shown as plain text. */
  function EditorMode(language: string): (r: string)
    ensures language in Modes ==> r == language
    ensures language !in Modes ==> r == PlainText
  {
    match ModeEntry(language)
    case Some(mode) => mode
    case None => PlainText
  }

  /** Every language detection can produce has an editor mode of the same
      name, so a detected file is never shown with another mode. */
  lemma ModeOfDetectedLanguage(filename: string)
    ensures EditorMode(DetectLanguage(filename)) == DetectLanguage(filename)
  {
  }

  /** The text after the last dot is the one dot-free suffix that is all of
      `s` or follows a dot. */
  lemma AfterLastDotUnique(s: string, t: string)
    requires |t| <= |s| && t == s[|s| - |t|..] && '.' !in t
    requires |t| < |s| ==> s[|s| - |t| - 1] == '.'
    ensures AfterLastDot(s) == t
  {
  }

  /** Only the text after the last dot decides the language: whatever comes
      before it, dots included, is ignored. */
  lemma DetectLanguageUsesLastExtension(stem: string, ext: string)
    requires '.' !in ext
    ensures DetectLanguage(stem + "." + ext) == DetectLanguage(ext)
  {
    var s := stem + "." + ext;
    assert s[|s| - |ext|..] == ext;
    AfterLastDotUnique(s, ext);
    AfterLastDotUnique(ext, ext);
  }

  /** Lower-casing a suffix is taking that suffix of the lower-cased text. */
  lemma LowerSuffix(s: string, n: nat)
    requires n <= |s|
    ensures ToLowerAscii(s[n..]) == ToLowerAscii(s)[n..]
  {
    var x, y := ToLowerAscii(s[n..]), ToLowerAscii(s)[n..];
    forall k | 0 <= k < |x| ensures x[k] == y[k] {
      assert s[n..][k] == s[n + k];
    }
  }

  /** Lower-casing leaves the dots where they were, so it commutes with
      taking the text after the last dot. */
  lemma LowerAfterLastDot(s: string)
    ensures AfterLastDot(ToLowerAscii(s)) == ToLowerAscii(AfterLastDot(s))
  {
    var lower := ToLowerAscii(s);
    var r := AfterLastDot(s);
    var t := ToLowerAscii(r);
    LowerSuffix(s, |s| - |r|);
    assert '.' !in t by {
      forall k | 0 <= k < |t| ensures t[k] != '.' {
        assert r[k] in r;
      }
    }
    if |r| < |s| {
      assert lower[|s| - |r| - 1] == LowerAscii(s[|s| - |r| - 1]);
    }
    AfterLastDotUnique(lower, t);
  }

  /** Lower-casing twice is lower-casing once. */
  lemma LowerTwice(s: string)
    ensures ToLowerAscii(ToLowerAscii(s)) == ToLowerAscii(s)
  {
    var once := ToLowerAscii(s);
    assert forall k :: 0 <= k < |once| ==> ToLowerAscii(once)[k] == once[k];
  }

  /** Detection ignores the case of ASCII letters: `MAIN.PY` is Python. */
  lemma DetectLanguageIgnoresCase(filename: string)
    ensures DetectLanguage(ToLowerAscii(filename)) == DetectLanguage(filename)
  {
    LowerAfterLastDot(filename);
    LowerTwice(AfterLastDot(filename));
  }

  /** The extension `html` alone is detected as `'xml'`. */
  lemma HtmlIsXml()
    ensures DetectLanguage("html") == "xml"
  {
    HtmlExtension();
    assert LanguageEntry("html") == Some("xml");
  }

  /** The name `html` is its own lower-cased extension. */
  lemma HtmlExtension()
    ensures ToLowerAscii(AfterLastDot("html")) == "html"
  {
    assert AfterLastDot("html") == "html" by {
      assert '.' !in "html";
      AfterLastDotUnique("html", "html");
    }
    var lower := ToLowerAscii("html");
    assert lower[0] == 'h' && lower[1] == 't' && lower[2] == 'm' && lower[3] == 'l';
  }

  /** An `.html` file is detected as `'xml'`, which has no code template of
      its own, so a new HTML file starts from the JavaScript template. */
  lemma HtmlFileGetsJavascriptTemplate(stem: string)
    ensures DetectLanguage(stem + ".html") == "xml"
    ensures "xml" !in Config.TemplateLanguages
  {
    assert stem + ".html" == stem + "." + "html";
    DetectLanguageUsesLastExtension(stem, "html");
    HtmlIsXml();
  }

  /** The template a file of a detected language starts from: only Python
      and CSS have templates of their own besides JavaScript, so every other
      file, HTML included, gets the JavaScript template. */
  lemma TemplateOfLanguage(language: string)
    requires language in Modes || language == PlainText
    ensures Config.GetCodeTemplate(language) ==
      if language == "python" then Config.PythonTemplate
      else if language == "css" then Config.CssTemplate
      else Config.JavascriptTemplate
  {
    if language !in {"javascript", "python", "css"} {
      assert language !in Config.TemplateLanguages;
    }
  }

  // Object.keys order

  /** The value of a string of decimal digits. */
  function DecimalValue(s: string): nat
  {
    if s == [] then 0
    else DecimalValue(s[..|s| - 1]) * 10 + (if '0' <= s[|s| - 1] <= '9' then s[|s| - 1] as int - '0' as int else 0)
  }

  /** A canonical array index: decimal digits without a leading zero (or
      `"0"` itself) whose value is below 2^32 - 1. */
  predicate IsArrayIndex(s: string)
  {
    && s != []
    && (forall k :: 0 <= k < |s| ==> '0' <= s[k] <= '9')
    && (s[0] == '0' ==> |s| == 1)
    && DecimalValue(s) < 0xFFFF_FFFF
  }

  /** The order `Object.keys` lists an object's keys in: the array indices
      first, by increasing value, and then the other keys. */
  predicate KeyOrder(names: seq<string>)
  {
    forall i, j :: 0 <= i < j < |names| && IsArrayIndex(names[j]) ==>
      IsArrayIndex(names[i]) && DecimalValue(names[i]) <= DecimalValue(names[j])
  }

  /** Dropping the first key keeps the order of the rest. */
  lemma KeyOrderTail(names: seq<string>)
    requires names != [] && KeyOrder(names)
    ensures KeyOrder(names[1..])
  {
    forall i, j | 0 <= i < j < |names[1..]| && IsArrayIndex(names[1..][j])
      ensures IsArrayIndex(names[1..][i]) && DecimalValue(names[1..][i]) <= DecimalValue(names[1..][j])
    {
      assert names[1..][i] == names[i + 1] && names[1..][j] == names[j + 1];
    }
  }

  /** In ordered keys, an index after the first key is bounded below by it. */
  lemma HeadBoundsIndices(names: seq<string>, x: string)
    requires names != [] && KeyOrder(names)
    requires x in names[1..] && IsArrayIndex(x)
    ensures IsArrayIndex(names[0]) && DecimalValue(names[0]) <= DecimalValue(x)
  {
    var m :| 0 <= m < |names[1..]| && names[1..][m] == x;
    assert names[m + 1] == x;
  }

  /** A key put in front of ordered keys keeps them ordered when it is not
      an index, or when it is an index no larger than any index among them. */
  lemma KeyOrderCons(key: string, names: seq<string>)
    requires KeyOrder(names)
    requires IsArrayIndex(key) || forall k :: 0 <= k < |names| ==> !IsArrayIndex(names[k])
    requires IsArrayIndex(key) ==>
      forall k :: 0 <= k < |names| && IsArrayIndex(names[k]) ==> DecimalValue(key) <= DecimalValue(names[k])
    ensures KeyOrder([key] + names)
  {
    var r := [key] + names;
    forall i, j | 0 <= i < j < |r| && IsArrayIndex(r[j])
      ensures IsArrayIndex(r[i]) && DecimalValue(r[i]) <= DecimalValue(r[j])
    {
      assert r[j] == names[j - 1];
      if i > 0 {
        assert r[i] == names[i - 1];
      }
    }
  }

  /** Places a new array index among the indices at the front, after the
      smaller ones. */
  function InsertIndexKey(names: seq<string>, key: string): (r: seq<string>)
    requires IsArrayIndex(key)
    ensures |r| == |names| + 1
    ensures forall y :: y in r <==> y in names || y == key
    ensures Distinct(names) && key !in names ==> Distinct(r)
    ensures key !in names ==> Without(r, key) == names
  {
    if names != [] && IsArrayIndex(names[0]) && DecimalValue(names[0]) < DecimalValue(key) then
      assert Distinct(names) ==> names[0] !in names[1..];
      var rest := InsertIndexKey(names[1..], key);
      assert ([names[0]] + rest)[1..] == rest;
      assert names == [names[0]] + names[1..];
      [names[0]] + rest
    else
      [key] + names
  }

  /** The new index lands where `Object.keys` lists it: ordered keys stay
      ordered. */
  lemma {:induction false} InsertIndexKeyKeepsOrder(names: seq<string>, key: string)
    requires IsArrayIndex(key) && KeyOrder(names)
    ensures KeyOrder(InsertIndexKey(names, key))
  {
    if names != [] && IsArrayIndex(names[0]) && DecimalValue(names[0]) < DecimalValue(key) {
      KeyOrderTail(names);
      InsertIndexKeyKeepsOrder(names[1..], key);
      var rest := InsertIndexKey(names[1..], key);
      forall k | 0 <= k < |rest| && IsArrayIndex(rest[k])
        ensures DecimalValue(names[0]) <= DecimalValue(rest[k])
      {
        assert rest[k] in rest;
        if rest[k] != key {
          HeadBoundsIndices(names, rest[k]);
        }
      }
      KeyOrderCons(names[0], rest);
    } else {
      if names != [] && !IsArrayIndex(names[0]) {
        assert forall k :: 0 <= k < |names| ==> !IsArrayIndex(names[k]);
      }
      forall k | 0 <= k < |names| && IsArrayIndex(names[k])
        ensures DecimalValue(key) <= DecimalValue(names[k])
      {
        assert IsArrayIndex(names[0]);
        if k > 0 {
          assert DecimalValue(names[0]) <= DecimalValue(names[k]);
        }
      }
      KeyOrderCons(key, names);
    }
  }

  /** `files[key] = …` as seen by `Object.keys`: an existing key keeps its
      place, a new array index joins the indices in order, and any other
      new key goes last. */
  function AddKey(names: seq<string>, key: string): (r: seq<string>)
    ensures forall y :: y in r <==> y in names || y == key
    ensures key in names ==> r == names
    ensures key !in names && !IsArrayIndex(key) ==> r == names + [key]
    ensures key !in names ==> |r| == |names| + 1 && Without(r, key) == names
    ensures Distinct(names) ==> Distinct(r)
    ensures KeyOrder(names) ==> KeyOrder(r)
  {
    if key in names then names
    else if IsArrayIndex(key) then
      assert KeyOrder(names) ==> KeyOrder(InsertIndexKey(names, key)) by {
        if KeyOrder(names) { InsertIndexKeyKeepsOrder(names, key); }
      }
      InsertIndexKey(names, key)
    else
      WithoutLastAdded(names, key);
      names + [key]
  }

  /** Deleting a key keeps the others in their order. */
  lemma {:induction false} WithoutKeepsKeyOrder(names: seq<string>, key: string)
    requires KeyOrder(names)
    ensures KeyOrder(Without(names, key))
  {
    if names != [] {
      KeyOrderTail(names);
      WithoutKeepsKeyOrder(names[1..], key);
      if names[0] != key {
        var rest := Without(names[1..], key);
        assert Without(names, key) == [names[0]] + rest;
        if IsArrayIndex(names[0]) {
          forall k | 0 <= k < |rest| && IsArrayIndex(rest[k])
            ensures DecimalValue(names[0]) <= DecimalValue(rest[k])
          {
            assert rest[k] in names[1..];
            var m :| 0 <= m < |names[1..]| && names[1..][m] == rest[k];
            assert names[m + 1] == rest[k];
          }
        } else {
          forall k | 0 <= k < |rest| ensures !IsArrayIndex(rest[k]) {
            assert rest[k] in names[1..];
            var m :| 0 <= m < |names[1..]| && names[1..][m] == rest[k];
            assert names[m + 1] == rest[k];
          }
        }
        KeyOrderCons(names[0], rest);
      }
    }
  }

  // The help request

  /** The code block of the help prompt: the content fenced and tagged with
      its language. */
  function Fenced(language: string, content: string): string
  {
    "```" + language + "\n" + content + "\n```"
  }

  /** The instructions that follow the code block. */
  const HelpInstructions :=
    "\n"
    + "\n"
    + "Please review this code and help me with:\n"
    + "1. Any syntax errors or bugs you notice\n"
    + "2. Potential improvements or optimizations\n"
    + "3. Best practices I should follow\n"
    + "4. Any suggestions for making the code better\n"
    + "\n"
    + "If the code looks incomplete, please suggest what might be missing or "
    + "what I should add next."

  /** A prompt built as a head, the file name, a separator, the code block
      and the instructions holds the file name and the code block, and
      starts with its head. */
  lemma PromptParts(head: string, filename: string, sep: string, block: string, rest: string)
    ensures var r := head + filename + sep + block + rest;
      Contains(r, block) && Contains(r, filename) && StartsWith(r, head)
  {
    var r := head + filename + sep + block + rest;
    ContainsMiddle(head + filename + sep, block, rest);
    ContainsMiddle(head, filename, sep + block + rest);
    assert r == head + filename + (sep + block + rest);
    assert r[..|head|] == head;
  }

  /** `createCodeHelpPrompt`: names the language and the file, then quotes
      the code in a fenced block, then asks for a review. */
  function HelpPrompt(content: string, filename: string, language: string): (r: string)
    ensures Contains(r, Fenced(language, content))
    ensures Contains(r, filename)
    ensures StartsWith(r, "I need help with my " + language + " code in ")
  {
    PromptParts("I need help with my " + language + " code in ", filename,
                ". Here's what I'm working on:\n\n", Fenced(language, content), HelpInstructions);
    "I need help with my " + language + " code in " + filename
      + ". Here's what I'm working on:\n\n" + Fenced(language, content) + HelpInstructions
  }

  /** What `callAI` posts: the request the chat would send for `prompt`
      with no conversation before it, except that the system turn is the
      persona's own prompt without the chat's context addendum and the
      sampling settings are its own. */
  function HelpRequest(settings: Config.Settings, persona: Personas.Persona, prompt: string): (r: Chat.Request)
    ensures var c := Chat.BuildRequest(settings, Some(persona), [], prompt);
      r == c.(turns := [Chat.Turn(Chat.System, persona.systemPrompt)] + c.turns[1..],
              temperature := 0.7, maxTokens := 1000)
  {
    Chat.Request(Config.ApiEndpoint, "Bearer " + settings.apiKey, settings.currentModel,
                 [Chat.Turn(Chat.System, persona.systemPrompt), Chat.Turn(Chat.UserRole, prompt)],
                 0.7, 1000, false)
  }

  /** The help request carries no conversation: just the persona's prompt
      and the code, fenced, in one user turn. */
  lemma HelpRequestCarriesCode(settings: Config.Settings, persona: Personas.Persona,
                               content: string, filename: string, language: string)
    ensures var r := HelpRequest(settings, persona, HelpPrompt(content, filename, language));
      && r.endpoint == Config.ApiEndpoint
      && r.authorization == "Bearer " + settings.apiKey
      && r.model == settings.currentModel
      && |r.turns| == 2
      && r.turns[0] == Chat.Turn(Chat.System, persona.systemPrompt)
      && r.turns[1].role == Chat.UserRole
      && Contains(r.turns[1].content, Fenced(language, content))
      && r.temperature == 0.7 && r.maxTokens == 1000 && !r.stream
  {
  }

  /** The advice that follows the fallback line when the request fails. */
  const HelpAdvice :=
    "I notice you might want to check for syntax errors, add proper "
    + "error handling, or optimize the logic flow. Feel free to ask me "
    + "specific questions about your code!"

  /** The answer shown when the help request fails: a canned fallback line,
      then generic advice that names the language. */
  function HelpFallback(fallback: string, language: string): (r: string)
    ensures StartsWith(r, fallback)
    ensures Contains(r, " Based on your " + language + " code, ")
  {
    var middle := " Based on your " + language + " code, ";
    ContainsMiddle(fallback, middle, HelpAdvice);
    assert (fallback + middle + HelpAdvice)[..|fallback|] == fallback;
    fallback + middle + HelpAdvice
  }

  /** What `closeFile` did. */
  datatype CloseOutcome = LastFile | NoSuchFile | Declined | Closed

  /** What the new-file dialog did: the prompt was cancelled or left empty,
      the name was taken, or the file was created. */
  datatype NewFileOutcome = Cancelled | AlreadyExists | Created

  /** The synchronous part of `askWaifuForHelp`: refused, or this request
      went out on behalf of `persona` about a file in `language`. */
  datatype HelpStart =
    | NeedPersona
    | NeedApiKey
    | Asking(persona: Personas.Persona, language: string, request: Chat.Request)

  /** The editor and its open files. `names` is `Object.keys(files)`, the
      order of the tabs; `editor` is the text the editor holds, which is
      written back into the file only by the operations below. */
  class IDEManager {
    var names: seq<string>
    var files: map<string, FileEntry>
    var currentFile: string
    var editor: string
    /** The editor's syntax mode. */
    var mode: string
    /** The registry whose selected persona is asked for help. */
    const registry: Personas.PersonaManager
    /** The configuration the API key comes from. */
    const config: Config.WaifuConfig

    /** There is always an open file, the tabs list every file once in
        `Object.keys` order, and the current file is one of them. */
    ghost predicate Valid()
      reads this
    {
      && names != []
      && Distinct(names)
      && KeyOrder(names)
      && (forall n :: n in files <==> n in names)
      && currentFile in files
    }

    /** One file, `main.js`, holding the JavaScript template, shown in the
        editor in JavaScript mode. */
    constructor(registry: Personas.PersonaManager, config: Config.WaifuConfig)
      ensures Valid()
      ensures names == ["main.js"] && currentFile == "main.js"
      ensures files == map["main.js" := FileEntry(Config.JavascriptTemplate, "javascript", false)]
      ensures editor == Config.JavascriptTemplate && mode == "javascript"
      ensures this.registry == registry && this.config == config
    {
      var template := Config.GetCodeTemplate("javascript");
      names := ["main.js"];
      files := map["main.js" := FileEntry(template, "javascript", false)];
      currentFile := "main.js";
      editor := template;
      mode := "javascript";
      this.registry := registry;
      this.config := config;
    }

    /** `onEditorChange` after the editor text became `text`: the current
        file takes the text and is marked unsaved only when the text differs
        from what it holds. */
    method EditorChange(text: string)
      requires Valid()
      modifies this
      ensures Valid()
      ensures editor == text
      ensures names == old(names) && currentFile == old(currentFile) && mode == old(mode)
      ensures text == old(files)[currentFile].content ==> files == old(files)
      ensures text != old(files)[currentFile].content ==>
        files == old(files)[currentFile := old(files)[currentFile].(content := text, modified := true)]
    {
      editor := text;
      var file := files[currentFile];
      if text != file.content {
        files := files[currentFile := file.(content := text, modified := true)];
      }
    }

    /** `saveCurrentFile`: the current file takes the editor text and is no
        longer unsaved. */
    method SaveCurrentFile()
      requires Valid()
      modifies this
      ensures Valid()
      ensures names == old(names) && currentFile == old(currentFile)
      ensures editor == old(editor) && mode == old(mode)
      ensures files == old(files)[currentFile := old(files)[currentFile].(content := editor, modified := false)]
    {
      files := files[currentFile := files[currentFile].(content := editor, modified := false)];
    }

    /** `switchToFile`: an unknown name or the current file changes nothing;
        otherwise the editor text is stored into the file being left (its
        unsaved flag untouched), and the editor shows the target's content in
        the target's mode. */
    method SwitchToFile(filename: string)
      requires Valid()
      modifies this
      ensures Valid()
      ensures names == old(names)
      ensures filename !in old(files) || filename == old(currentFile) ==>
        files == old(files) && currentFile == old(currentFile) && editor == old(editor) && mode == old(mode)
      ensures filename in old(files) && filename != old(currentFile) ==>
        && files == old(files)[old(currentFile) := old(files)[old(currentFile)].(content := old(editor))]
        && currentFile == filename
        && editor == old(files)[filename].content
        && mode == EditorMode(old(files)[filename].language)
    {
      if filename !in files || filename == currentFile {
        return;
      }
      files := files[currentFile := files[currentFile].(content := editor)];
      currentFile := filename;
      editor := files[filename].content;
      mode := EditorMode(files[filename].language);
    }

    /** `closeFile`: the last file cannot be closed, an unknown name fails,
        and an unsaved file is closed only when confirmed. Closing the current
        file shows the first remaining file, with the editor mode left as it
        was; closing another file leaves the editor alone. */
    method CloseFile(filename: string, confirmed: bool) returns (outcome: CloseOutcome)
      requires Valid()
      modifies this
      ensures Valid()
      ensures |old(names)| == 1 ==> outcome == LastFile
      ensures |old(names)| > 1 && filename !in old(files) ==> outcome == NoSuchFile
      ensures |old(names)| > 1 && filename in old(files) && old(files)[filename].modified && !confirmed ==>
        outcome == Declined
      ensures outcome == Closed <==>
        |old(names)| > 1 && filename in old(files) && (!old(files)[filename].modified || confirmed)
      ensures outcome != Closed ==>
        names == old(names) && files == old(files) && currentFile == old(currentFile) && editor == old(editor)
      ensures outcome == Closed ==>
        && files == old(files) - {filename}
        && names == Without(old(names), filename)
        && (filename == old(currentFile) ==> currentFile == names[0] && editor == files[currentFile].content)
        && (filename != old(currentFile) ==> currentFile == old(currentFile) && editor == old(editor))
      ensures mode == old(mode)
    {
      if |names| == 1 {
        return LastFile;
      }
      if filename !in files {
        return NoSuchFile;
      }
      if files[filename].modified && !confirmed {
        return Declined;
      }
      Remove(filename);
      outcome := Closed;
    }

    /** The deletion itself: the entry and its tab go, and a current file
        that went is replaced by the first remaining one. */
    method Remove(filename: string)
      requires Valid() && |names| > 1 && filename in files
      modifies this
      ensures Valid()
      ensures files == old(files) - {filename}
      ensures names == Without(old(names), filename)
      ensures filename == old(currentFile) ==> currentFile == names[0] && editor == files[currentFile].content
      ensures filename != old(currentFile) ==> currentFile == old(currentFile) && editor == old(editor)
      ensures mode == old(mode)
    {
      WithoutKeepsKeyOrder(names, filename);
      files := files - {filename};
      names := Without(names, filename);
      if filename == currentFile {
        currentFile := names[0];
        editor := files[currentFile].content;
      }
    }

    /** The new-file dialog: a cancelled or empty name does nothing, a taken
        name is refused, and otherwise the file is added with the template of
        its detected language, unsaved flag clear, and switched to. */
    method NewFile(input: Option<string>) returns (outcome: NewFileOutcome)
      requires Valid()
      modifies this
      ensures Valid()
      ensures input.None? || input == Some("") ==> outcome == Cancelled
      ensures input.Some? && input.value != "" && input.value in old(files) ==> outcome == AlreadyExists
      ensures outcome == Created <==> input.Some? && input.value != "" && input.value !in old(files)
      ensures outcome != Created ==>
        names == old(names) && files == old(files) && currentFile == old(currentFile)
        && editor == old(editor) && mode == old(mode)
      ensures outcome == Created ==>
        var language := DetectLanguage(input.value);
        var entry := FileEntry(Config.GetCodeTemplate(language), language, false);
        && names == AddKey(old(names), input.value)
        && files == old(files)[input.value := entry][old(currentFile) := old(files)[old(currentFile)].(content := old(editor))]
        && currentFile == input.value
        && editor == entry.content
        && mode == EditorMode(language)
    {
      if input.None? || input.value == "" {
        return Cancelled;
      }
      var filename := input.value;
      if filename in files {
        return AlreadyExists;
      }
      var language := DetectLanguage(filename);
      PutAndSwitch(filename, FileEntry(Config.GetCodeTemplate(language), language, false));
      outcome := Created;
    }

    /** `importFile` once the file is read: the entry of that name is added
        or replaced, unsaved flag clear, and switched to. Importing over the
        current file replaces its entry but, the switch being a no-op, leaves
        the editor showing the old text. The editor is taken to keep the text
        exactly; its conversion of CR line endings to LF is not modelled. */
    method ImportFile(filename: string, content: string)
      requires Valid()
      modifies this
      ensures Valid()
      ensures names == AddKey(old(names), filename)
      ensures filename == old(currentFile) ==>
        && files == old(files)[filename := FileEntry(content, DetectLanguage(filename), false)]
        && currentFile == old(currentFile) && editor == old(editor) && mode == old(mode)
      ensures filename != old(currentFile) ==>
        && files == old(files)[filename := FileEntry(content, DetectLanguage(filename), false)]
                              [old(currentFile) := old(files)[old(currentFile)].(content := old(editor))]
        && currentFile == filename
        && editor == content
        && mode == EditorMode(DetectLanguage(filename))
    {
      PutAndSwitch(filename, FileEntry(content, DetectLanguage(filename), false));
    }

    /** What creating and importing share: `entry` is stored under
        `filename`, a new name joining the tabs, and then switched to. */
    method PutAndSwitch(filename: string, entry: FileEntry)
      requires Valid()
      modifies this
      ensures Valid()
      ensures names == AddKey(old(names), filename)
      ensures filename == old(currentFile) ==>
        && files == old(files)[filename := entry]
        && currentFile == old(currentFile) && editor == old(editor) && mode == old(mode)
      ensures filename != old(currentFile) ==>
        && files == old(files)[filename := entry][old(currentFile) := old(files)[old(currentFile)].(content := old(editor))]
        && currentFile == filename
        && editor == entry.content
        && mode == EditorMode(entry.language)
    {
      files := files[filename := entry];
      names := AddKey(names, filename);
      assert forall n :: n in files <==> n in names;
      SwitchToFile(filename);
    }

    /** The synchronous part of `askWaifuForHelp`: it needs a selected persona
        and then an API key; otherwise it sends the editor text, the current
        file's name and its language to the selected persona. */
    method BeginHelp() returns (start: HelpStart)
      requires Valid()
      ensures registry.currentPersona.None? ==> start == NeedPersona
      ensures registry.currentPersona.Some? && config.apiKey == "" ==> start == NeedApiKey
      ensures start.Asking? <==> registry.currentPersona.Some? && config.apiKey != ""
      ensures start.Asking? ==>
        && start.persona == registry.currentPersona.value
        && start.language == files[currentFile].language
        && start.request == HelpRequest(config.Current(), start.persona,
                                        HelpPrompt(editor, currentFile, start.language))
    {
      if registry.currentPersona.None? {
        return NeedPersona;
      }
      if config.apiKey == "" {
        return NeedApiKey;
      }
      var persona := registry.currentPersona.value;
      var language := files[currentFile].language;
      var prompt := HelpPrompt(editor, currentFile, language);
      start := Asking(persona, language, HelpRequest(config.Current(), persona, prompt));
    }

    /** The reply to a help request: its text is shown and the persona asked
        (not whichever is selected now) is credited one message; a failed
        request shows the fallback advice and credits nobody. */
    method FinishHelp(persona: Personas.Persona, language: string, reply: Chat.Reply, fallbackIndex: nat)
      returns (shown: string, answered: bool)
      requires registry.Valid()
      requires fallbackIndex < |Config.FallbackResponses|
      modifies registry
      ensures registry.Valid()
      ensures answered <==> Chat.ReplyContent(reply).Some?
      ensures answered ==> shown == Chat.ReplyContent(reply).value
      ensures !answered ==> shown == HelpFallback(Config.GetRandomFallback(fallbackIndex), language)
      ensures answered && persona.id in old(registry.personas) ==>
        registry.personas == Personas.CountedOnce(old(registry.personas), persona.id)
      ensures !(answered && persona.id in old(registry.personas)) ==> registry.personas == old(registry.personas)
      ensures registry.currentPersonaId == old(registry.currentPersonaId)
    {
      var content := Chat.ReplyContent(reply);
      if content.Some? {
        shown := content.value;
        answered := true;
        registry.IncrementMessageCount(persona.id);
      } else {
        shown := HelpFallback(Config.GetRandomFallback(fallbackIndex), language);
        answered := false;
      }
    }
  }
}
