/** Whole interactions across the managers, wired together the way the
    page wires them: each method starts from fresh managers, drives them
    through one story, and states what the user sees and what is stored. */
module Scenarios {
  import opened Base
  import Config
  import Personas
  import Chat
  import Ide

  /** The reply of a working service whose first choice says `text`. */
  function ReplyWith(text: string): Chat.Reply
  {
    Chat.Answered(true, Some([Some(Chat.Choice(Some(text)))]))
  }

  /** The user picks persona `id`: the registry selects it and tells the
      chat twice, once by calling `onPersonaChange` directly and once more
      through the `personaChanged` event the chat listens to. Each telling
      loads that persona's stored history and draws a greeting (indices
      `first` and `second`) that a timer adds later; both greetings are
      returned in the order their timers fire. */
  method Switch(registry: Personas.PersonaManager, chat: Chat.ChatManager, id: string, now: int,
                first: nat, second: nat)
    returns (greetings: seq<string>)
    requires registry.Valid() && chat.Valid() && id in registry.personas && registry.personas[id].id == id
    requires first < 4 && second < 4
    modifies registry, chat
    ensures registry.Valid() && chat.Valid()
    ensures registry.personas == old(registry.personas)[id := old(registry.personas)[id].(lastUsed := now)]
    ensures registry.currentPersonaId == Some(id)
    ensures chat.currentPersona == Some(registry.personas[id])
    ensures chat.messageHistory == old(chat.messageHistory) && chat.isTyping == old(chat.isTyping)
    ensures chat.messages == if id in chat.messageHistory then chat.messageHistory[id] else []
    ensures var welcome := Chat.WelcomeMessages(registry.personas[id].personaType);
      greetings == [welcome[first], welcome[second]]
  {
    var selected := registry.SelectPersona(id, now);
    var direct := chat.OnPersonaChange(selected.value, first);
    var viaEvent := chat.OnPersonaChange(selected.value, second);
    greetings := [direct, viaEvent];
  }

  /** A registry holding only `p`, with `p` selected at time 0, and a chat
      that has been told of the selection. The configuration comes from an
      empty store. The greetings the selection queues are not yet shown. */
  method Selected(p: Personas.Persona)
    returns (registry: Personas.PersonaManager, chat: Chat.ChatManager)
    ensures fresh(registry) && fresh(chat) && fresh(chat.config)
    ensures registry.Valid() && chat.Valid()
    ensures chat.registry == registry && chat.config.apiKey != ""
    ensures registry.personas == map[p.id := p.(lastUsed := 0)]
    ensures registry.currentPersonaId == Some(p.id)
    ensures chat.currentPersona == Some(p.(lastUsed := 0))
    ensures chat.messages == [] && chat.messageHistory == map[] && !chat.isTyping
  {
    registry := new Personas.PersonaManager(map[p.id := p], None);
    var config := new Config.WaifuConfig(map[]);
    chat := new Chat.ChatManager(registry, config, map[]);
    var greetings := Switch(registry, chat, p.id, 0, 0, 0);
  }

  /** Half a second after `p` is selected in a fresh chat both queued
      greetings appear: two messages from the persona, neither stored, both
      sent back to the service as context with the next request, and both
      counted by the summary. */
  method GreetedTwice(p: Personas.Persona, first: nat, second: nat)
    returns (greetings: seq<string>, shown: seq<Chat.Message>, stored: map<string, seq<Chat.Message>>,
             summary: Chat.Summary)
    requires first < 4 && second < 4
    ensures var welcome := Chat.WelcomeMessages(p.personaType);
      greetings == [welcome[first], welcome[second]]
    ensures shown == [Chat.Message(greetings[0], Chat.Ai, 500), Chat.Message(greetings[1], Chat.Ai, 500)]
    ensures stored == map[]
    ensures Chat.ConversationContext(shown) == [Chat.Turn(Chat.Assistant, greetings[0]), Chat.Turn(Chat.Assistant, greetings[1])]
    ensures summary.Summary? && summary.messageCount == 2 && summary.aiMessages == 2
  {
    var registry := new Personas.PersonaManager(map[p.id := p], None);
    var config := new Config.WaifuConfig(map[]);
    var chat := new Chat.ChatManager(registry, config, map[]);
    greetings := Switch(registry, chat, p.id, 0, first, second);
    ShowGreetings(chat, greetings, 500);
    shown := chat.messages;
    stored := chat.messageHistory;
    summary := Chat.ConversationSummary(chat.currentPersona, shown);
    GreetingsAsContext(chat.currentPersona.value, greetings[0], greetings[1], 500);
  }

  /** The greeting timers fire: each queued greeting is added as the
      persona's message without being stored. */
  method ShowGreetings(chat: Chat.ChatManager, greetings: seq<string>, now: int)
    requires chat.Valid() && |greetings| == 2
    modifies chat
    ensures chat.Valid()
    ensures chat.messages == old(chat.messages)
      + [Chat.Message(greetings[0], Chat.Ai, now), Chat.Message(greetings[1], Chat.Ai, now)]
    ensures chat.messageHistory == old(chat.messageHistory)
    ensures chat.currentPersona == old(chat.currentPersona) && chat.isTyping == old(chat.isTyping)
  {
    chat.AddMessage(greetings[0], Chat.Ai, false, now);
    chat.AddMessage(greetings[1], Chat.Ai, false, now);
  }

  /** A session holding just two greetings goes to the service as two
      assistant turns, and the summary counts both as the persona's. */
  lemma GreetingsAsContext(persona: Personas.Persona, a: string, b: string, now: int)
    ensures var ms := [Chat.Message(a, Chat.Ai, now), Chat.Message(b, Chat.Ai, now)];
      && Chat.ConversationContext(ms) == [Chat.Turn(Chat.Assistant, a), Chat.Turn(Chat.Assistant, b)]
      && Chat.ConversationSummary(Some(persona), ms).messageCount == 2
      && Chat.ConversationSummary(Some(persona), ms).aiMessages == 2
  {
    var ms := [Chat.Message(a, Chat.Ai, now), Chat.Message(b, Chat.Ai, now)];
    assert ms[1..] == [ms[1]] && ms[1..][1..] == [];
    assert Chat.CountSender(ms[1..], Chat.Ai) == 1;
    assert Chat.CountSender(ms, Chat.Ai) == 2;
  }

  /** A chat that can send: a persona, a key and nothing in flight. */
  predicate CanSend(chat: Chat.ChatManager)
    reads chat, chat.config
  {
    chat.currentPersona.Some? && !chat.isTyping && chat.config.apiKey != ""
  }

  /** Text with nothing for `trim` to remove. */
  predicate Unpadded(text: string)
  {
    text != [] && !IsJsWhitespace(text[0]) && !IsJsWhitespace(text[|text| - 1])
  }

  /** The user sends `text`: it is shown, stored, and awaited. */
  method Ask(chat: Chat.ChatManager, text: string, now: int)
    requires chat.Valid() && CanSend(chat) && Unpadded(text)
    modifies chat
    ensures chat.Valid() && chat.isTyping && chat.currentPersona == old(chat.currentPersona)
    ensures chat.messages == old(chat.messages) + [Chat.Message(text, Chat.User, now)]
    ensures chat.messageHistory ==
      Chat.SaveToHistory(old(chat.messageHistory), chat.currentPersona.value.id, Chat.Message(text, Chat.User, now))
  {
    TrimUnpadded(text);
    var start := chat.BeginSend(text, now);
  }

  /** The user tries to send `text` while the guard for `reason` applies:
      the send is refused for that reason and the chat is left as it was. */
  method Refused(chat: Chat.ChatManager, text: string, reason: Chat.Rejection, now: int) returns (start: Chat.SendStart)
    requires chat.Valid() && Unpadded(text)
    requires Chat.Refusal(text, chat.currentPersona, chat.config.apiKey, chat.isTyping) == Some(reason)
    modifies chat
    ensures unchanged(chat)
    ensures start == Chat.Rejected(reason)
  {
    TrimUnpadded(text);
    start := chat.BeginSend(text, now);
  }

  /** The service answers `answer` to the request in flight. */
  method Hear(chat: Chat.ChatManager, text: string, answer: string, now: int)
    requires chat.Valid() && chat.registry.Valid() && chat.isTyping
    modifies chat, chat.registry
    ensures chat.Valid() && chat.registry.Valid() && !chat.isTyping
    ensures chat.currentPersona == old(chat.currentPersona)
    ensures chat.messages == old(chat.messages) + [Chat.Message(answer, Chat.Ai, now)]
    ensures chat.messageHistory ==
      Chat.SaveToHistory(old(chat.messageHistory), chat.currentPersona.value.id, Chat.Message(answer, Chat.Ai, now))
    ensures var id := chat.currentPersona.value.id;
      && (id in old(chat.registry.personas) ==> chat.registry.personas == Personas.CountedOnce(old(chat.registry.personas), id))
      && (id !in old(chat.registry.personas) ==> chat.registry.personas == old(chat.registry.personas))
  {
    var answered := chat.FinishSend(text, ReplyWith(answer), 0, 0, now);
  }

  /** The request in flight fails, in any of the ways that leave no reply
      text: one answer is added, from the service's side, holding the
      fallback sentence drawn and the user's message in quotes, and no
      counter moves. */
  method Miss(chat: Chat.ChatManager, text: string, reply: Chat.Reply, fallbackIndex: nat, frameIndex: nat, now: int)
    requires chat.Valid() && chat.registry.Valid() && chat.isTyping
    requires Chat.ReplyContent(reply).None?
    requires fallbackIndex < |Config.FallbackResponses| && frameIndex < 3
    modifies chat, chat.registry
    ensures chat.Valid() && !chat.isTyping
    ensures chat.currentPersona == old(chat.currentPersona)
    ensures |chat.messages| == |old(chat.messages)| + 1 && chat.messages[..|old(chat.messages)|] == old(chat.messages)
    ensures var m := chat.messages[|old(chat.messages)|];
      && m.sender == Chat.Ai && m.timestamp == now
      && Contains(m.content, Quote(text)) && Contains(m.content, Config.FallbackResponses[fallbackIndex])
    ensures chat.registry.personas == old(chat.registry.personas)
  {
    var answered := chat.FinishSend(text, reply, fallbackIndex, frameIndex, now);
  }

  /** Saving to a history that is still short of the cap just appends. */
  lemma SavedBelowCap(history: map<string, seq<Chat.Message>>, id: string, m: Chat.Message)
    requires id in history ==> |history[id]| < Chat.HistoryCap
    ensures Chat.SaveToHistory(history, id, m)[id] == (if id in history then history[id] else []) + [m]
  {
  }

  /** `p` selected in a fresh chat and asked "hi" at time 1, the answer not
      yet in. */
  method Asked(p: Personas.Persona) returns (registry: Personas.PersonaManager, chat: Chat.ChatManager)
    ensures fresh(registry) && fresh(chat)
    ensures registry.Valid() && chat.Valid()
    ensures chat.registry == registry && chat.config.apiKey != ""
    ensures registry.personas == map[p.id := p.(lastUsed := 0)]
    ensures chat.currentPersona == Some(p.(lastUsed := 0)) && chat.isTyping
    ensures chat.messages == [Chat.Message("hi", Chat.User, 1)]
    ensures chat.messageHistory == map[p.id := [Chat.Message("hi", Chat.User, 1)]]
  {
    registry, chat := Selected(p);
    Ask(chat, "hi", 1);
    SavedBelowCap(map[], p.id, Chat.Message("hi", Chat.User, 1));
  }

  /** The user says "hi" and the service answers "hello!": the chat shows
      the question and the answer, both are stored under the persona, and
      the persona is credited one message. */
  method SuccessfulExchange(p: Personas.Persona)
    returns (shown: seq<Chat.Message>, stored: seq<Chat.Message>, count: nat)
    ensures shown == [Chat.Message("hi", Chat.User, 1), Chat.Message("hello!", Chat.Ai, 2)]
    ensures stored == shown
    ensures count == p.messageCount + 1
  {
    var registry, chat := Asked(p);
    Hear(chat, "hi", "hello!", 2);
    SavedBelowCap(map[p.id := [Chat.Message("hi", Chat.User, 1)]], p.id, Chat.Message("hello!", Chat.Ai, 2));
    shown := chat.messages;
    stored := chat.messageHistory[p.id];
    count := registry.personas[p.id].messageCount;
  }

  /** The service cannot be reached: whichever fallback and frame are
      drawn, the answer shown quotes the user's "hi" inside the persona's
      fallback, and nobody is credited. */
  method FailedExchange(p: Personas.Persona, fallbackIndex: nat, frameIndex: nat)
    returns (shown: seq<Chat.Message>, count: nat)
    requires fallbackIndex < |Config.FallbackResponses| && frameIndex < 3
    ensures |shown| == 2 && shown[0] == Chat.Message("hi", Chat.User, 1)
    ensures shown[1].sender == Chat.Ai && Contains(shown[1].content, Quote("hi"))
    ensures Contains(shown[1].content, Config.FallbackResponses[fallbackIndex])
    ensures count == p.messageCount
  {
    var registry, chat := Asked(p);
    Miss(chat, "hi", Chat.Unanswered, fallbackIndex, frameIndex, 2);
    shown := chat.messages;
    count := registry.personas[p.id].messageCount;
  }

  /** While a reply is awaited a second message is refused and nothing is
      logged. */
  method SecondSendWhileBusy(p: Personas.Persona)
    returns (start: Chat.SendStart, shown: seq<Chat.Message>)
    ensures start == Chat.Rejected(Chat.Busy)
    ensures shown == [Chat.Message("hi", Chat.User, 1)]
  {
    var registry, chat := Asked(p);
    start := Refused(chat, "hi", Chat.Busy, 2);
    shown := chat.messages;
  }

  /** Deleting the persona the chat is talking to does not reach the chat:
      it still accepts a message and stores it under the deleted id. */
  method SendAfterDeletingActivePersona(p: Personas.Persona)
    returns (deleted: bool, remaining: map<string, Personas.Persona>, shown: seq<Chat.Message>, stored: seq<Chat.Message>)
    ensures deleted && remaining == map[]
    ensures shown == [Chat.Message("hi", Chat.User, 1)]
    ensures stored == shown
  {
    var registry, chat := Selected(p);
    deleted := registry.DeletePersona(p.id, true);
    remaining := registry.personas;
    Ask(chat, "hi", 1);
    SavedBelowCap(map[], p.id, Chat.Message("hi", Chat.User, 1));
    shown := chat.messages;
    stored := chat.messageHistory[p.id];
  }

  /** The persona is deleted while its answer is awaited: the answer is
      still shown and stored under the deleted id, and credits nobody. */
  method AnswerAfterDeletingActivePersona(p: Personas.Persona)
    returns (remaining: map<string, Personas.Persona>, shown: seq<Chat.Message>, stored: seq<Chat.Message>)
    ensures remaining == map[]
    ensures shown == [Chat.Message("hi", Chat.User, 1), Chat.Message("hello!", Chat.Ai, 2)]
    ensures stored == shown
  {
    var registry, chat := Asked(p);
    var deleted := registry.DeletePersona(p.id, true);
    assert registry.personas == map[];
    Hear(chat, "hi", "hello!", 2);
    assert chat.messageHistory ==
      Chat.SaveToHistory(map[p.id := [Chat.Message("hi", Chat.User, 1)]], p.id, Chat.Message("hello!", Chat.Ai, 2));
    SavedBelowCap(map[p.id := [Chat.Message("hi", Chat.User, 1)]], p.id, Chat.Message("hello!", Chat.Ai, 2));
    shown := chat.messages;
    stored := chat.messageHistory[p.id];
    remaining := registry.personas;
  }

  /** After a reload the registry has restored the selected persona, but
      the chat was never told, so the first message is refused. */
  method ReloadLeavesChatWithoutPersona(p: Personas.Persona)
    returns (restored: bool, start: Chat.SendStart)
    requires p.id != ""
    ensures restored
    ensures start == Chat.Rejected(Chat.NoPersona)
  {
    var registry := new Personas.PersonaManager(map[p.id := p], Some(p.id));
    var config := new Config.WaifuConfig(map[]);
    var chat := new Chat.ChatManager(registry, config, map[]);
    restored := registry.currentPersona.Some?;
    start := Refused(chat, "hi", Chat.NoPersona, 1);
  }

  /** A question to one persona whose answer arrives after the user has
      switched to another: the answer is shown and stored in the second
      persona's chat, and the second persona is credited. */
  method ReplyAfterSwitch(p: Personas.Persona, q: Personas.Persona)
    returns (pStored: seq<Chat.Message>, qStored: seq<Chat.Message>, pCount: nat, qCount: nat)
    requires p.id != q.id
    ensures pStored == [Chat.Message("hi", Chat.User, 1)]
    ensures qStored == [Chat.Message("hello!", Chat.Ai, 3)]
    ensures pCount == p.messageCount && qCount == q.messageCount + 1
  {
    var registry := new Personas.PersonaManager(map[p.id := p, q.id := q], None);
    var config := new Config.WaifuConfig(map[]);
    var chat := new Chat.ChatManager(registry, config, map[]);
    var greetings := Switch(registry, chat, p.id, 0, 0, 0);
    Ask(chat, "hi", 1);
    greetings := Switch(registry, chat, q.id, 2, 0, 0);
    Hear(chat, "hi", "hello!", 3);
    pStored := chat.messageHistory[p.id];
    qStored := chat.messageHistory[q.id];
    pCount := registry.personas[p.id].messageCount;
    qCount := registry.personas[q.id].messageCount;
  }

  /** An editor over `registry`, configured from an empty store. */
  method EditorOver(registry: Personas.PersonaManager) returns (ide: Ide.IDEManager)
    ensures fresh(ide) && ide.Valid() && ide.registry == registry && ide.config.apiKey != ""
  {
    var config := new Config.WaifuConfig(map[]);
    ide := new Ide.IDEManager(registry, config);
  }

  /** The user asks the selected persona for help with the open file. */
  method AskForHelp(ide: Ide.IDEManager) returns (start: Ide.HelpStart)
    requires ide.Valid() && ide.registry.currentPersona.Some? && ide.config.apiKey != ""
    ensures start.Asking? && start.persona == ide.registry.currentPersona.value
  {
    start := ide.BeginHelp();
  }

  /** The help reply `answer` arrives for a request made to `persona`. */
  method HearHelp(ide: Ide.IDEManager, persona: Personas.Persona, language: string, answer: string)
    returns (shown: string)
    requires ide.registry.Valid()
    modifies ide.registry
    ensures ide.registry.Valid() && shown == answer
    ensures persona.id in old(ide.registry.personas) ==>
      ide.registry.personas == Personas.CountedOnce(old(ide.registry.personas), persona.id)
    ensures persona.id !in old(ide.registry.personas) ==> ide.registry.personas == old(ide.registry.personas)
  {
    var answered;
    shown, answered := ide.FinishHelp(persona, language, ReplyWith(answer), 0);
  }

  /** Help asked of one persona whose reply arrives after the user has
      switched to another: unlike the chat, the editor credits the persona
      that was asked. */
  method HelpCreditsPersonaAsked(p: Personas.Persona, q: Personas.Persona)
    returns (shown: string, pCount: nat, qCount: nat)
    requires p.id != q.id
    ensures shown == "hello!"
    ensures pCount == p.messageCount + 1 && qCount == q.messageCount
  {
    var registry := new Personas.PersonaManager(map[p.id := p, q.id := q], None);
    var ide := EditorOver(registry);
    var first := registry.SelectPersona(p.id, 0);
    var start := AskForHelp(ide);
    var second := registry.SelectPersona(q.id, 1);
    shown := HearHelp(ide, start.persona, start.language, "hello!");
    pCount := registry.personas[p.id].messageCount;
    qCount := registry.personas[q.id].messageCount;
  }

  /** A fresh editor with nothing selected in a fresh registry. */
  method FreshEditor() returns (ide: Ide.IDEManager)
    ensures fresh(ide) && fresh(ide.registry) && ide.Valid()
    ensures ide.names == ["main.js"] && ide.currentFile == "main.js"
    ensures ide.files == map["main.js" := Ide.FileEntry(Config.JavascriptTemplate, "javascript", false)]
    ensures ide.editor == Config.JavascriptTemplate && ide.mode == "javascript"
  {
    var registry := new Personas.PersonaManager(map[], None);
    var config := new Config.WaifuConfig(map[]);
    ide := new Ide.IDEManager(registry, config);
  }

  /** The user creates a file under a new, non-empty name. */
  method Create(ide: Ide.IDEManager, filename: string) returns (outcome: Ide.NewFileOutcome)
    requires ide.Valid() && filename != "" && filename !in ide.files
    modifies ide
    ensures ide.Valid() && outcome == Ide.Created && filename in ide.files
    ensures var language := Ide.DetectLanguage(filename);
      && ide.files[filename] == Ide.FileEntry(Config.GetCodeTemplate(language), language, false)
      && ide.currentFile == filename
      && ide.mode == Ide.EditorMode(language)
    ensures ide.names == Ide.AddKey(old(ide.names), filename)
    ensures old(ide.currentFile) in ide.files
    ensures ide.files[old(ide.currentFile)].language == old(ide.files)[old(ide.currentFile)].language
  {
    outcome := ide.NewFile(Some(filename));
  }

  /** A new HTML file is an XML file that starts from the JavaScript
      template, in the tab after `main.js`. */
  method NewHtmlFile(stem: string)
    returns (outcome: Ide.NewFileOutcome, entry: Ide.FileEntry, mode: string, names: seq<string>)
    ensures outcome == Ide.Created
    ensures entry == Ide.FileEntry(Config.JavascriptTemplate, "xml", false)
    ensures mode == "xml" && names == ["main.js", stem + ".html"]
  {
    var ide := FreshEditor();
    var filename := stem + ".html";
    Ide.HtmlFileGetsJavascriptTemplate(stem);
    assert filename[|filename| - 1] == 'l' && filename[|filename| - 5] == '.';
    assert !Ide.IsArrayIndex(filename);
    outcome := Create(ide, filename);
    entry := ide.files[filename];
    mode := ide.mode;
    names := ide.names;
  }

  /** Importing a file over the open one replaces its entry, but the editor
      still holds the old text, so saving straight away brings the old text
      back. */
  method ImportOverOpenFileIsLostOnSave() returns (imported: string, saved: string)
    ensures imported == "x = 1"
    ensures saved == Config.JavascriptTemplate
  {
    var ide := FreshEditor();
    ide.ImportFile("main.js", "x = 1");
    imported := ide.files["main.js"].content;
    ide.SaveCurrentFile();
    saved := ide.files["main.js"].content;
  }

  /** `py` is Python whatever the stem. */
  lemma PythonFile(stem: string)
    ensures Ide.DetectLanguage(stem + ".py") == "python"
  {
    assert stem + ".py" == stem + "." + "py";
    Ide.DetectLanguageUsesLastExtension(stem, "py");
    assert AfterLastDot("py") == "py" by {
      assert '.' !in "py";
      Ide.AfterLastDotUnique("py", "py");
    }
    assert ToLowerAscii("py") == "py" by {
      var lower := ToLowerAscii("py");
      assert lower[0] == 'p' && lower[1] == 'y';
    }
    assert Ide.LanguageEntry("py") == Some("python");
  }

  /** Closing the current Python file shows `main.js` again, but the editor
      stays in Python mode. */
  method ClosingCurrentFileKeepsMode(stem: string)
    returns (closed: Ide.CloseOutcome, current: string, language: string, mode: string)
    ensures closed == Ide.Closed
    ensures current == "main.js" && language == "javascript"
    ensures mode == "python"
  {
    var ide := FreshEditor();
    var filename := stem + ".py";
    PythonFile(stem);
    assert filename[|filename| - 1] == 'y' && filename[|filename| - 3] == '.';
    assert !Ide.IsArrayIndex(filename);
    var created := Create(ide, filename);
    assert ide.names == ["main.js", filename];
    assert ide.files["main.js"].language == "javascript";
    assert ide.mode == "python" by {
      assert "python" in Ide.Modes;
    }
    closed := ide.CloseFile(filename, false);
    assert ide.names == ["main.js"] by {
      assert Without(["main.js", filename], filename) == ["main.js"] + Without([filename], filename);
    }
    current := ide.currentFile;
    language := ide.files[current].language;
    mode := ide.mode;
  }

  /** The tab order after importing `10` and then `2` into a fresh editor. */
  lemma IndexKeysSorted()
    ensures Ide.AddKey(["main.js"], "10") == ["10", "main.js"]
    ensures Ide.AddKey(["10", "main.js"], "2") == ["2", "10", "main.js"]
  {
    assert !Ide.IsArrayIndex("main.js") by {
      assert "main.js"[0] == 'm';
    }
    assert Ide.IsArrayIndex("10") && Ide.DecimalValue("10") == 10 by {
      assert "10"[..1] == "1";
    }
    assert Ide.IsArrayIndex("2") && Ide.DecimalValue("2") == 2;
    assert "10" !in ["main.js"];
    assert Ide.InsertIndexKey(["main.js"], "10") == ["10", "main.js"];
    assert "2" !in ["10", "main.js"];
    assert Ide.InsertIndexKey(["10", "main.js"], "2") == ["2", "10", "main.js"];
  }

  /** File names that are array indices are listed first, by value, so
      closing the current file `2` moves to `10`, not to `main.js`. */
  method NumericNamesComeFirst() returns (names: seq<string>, current: string)
    ensures names == ["2", "10", "main.js"]
    ensures current == "10"
  {
    var ide := FreshEditor();
    IndexKeysSorted();
    ide.ImportFile("10", "ten");
    ide.ImportFile("2", "two");
    names := ide.names;
    var closed := ide.CloseFile("2", true);
    current := ide.currentFile;
  }
}
