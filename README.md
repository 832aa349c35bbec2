# Waifu Coder managers in Dafny

Waifu Coder is a browser front end for coding with an AI assistant. The user
picks a "persona" (a named character with its own system prompt), chats with
it, and asks it to review code in a small multi-file editor. Four managers hold
the logic. This project models them and proves properties of the model.

- `Config.WaifuConfig` (`config.js`). The four user settings and their
  save/load over `localStorage`. The API-key check. The constant tables:
  persona types, code templates and canned fallback replies.
- `Personas.PersonaManager` (`personas.js`). Persona records keyed by id, and
  the current selection. Creation falls back to a default persona when a field
  is blank. Also select, delete, a message counter, default avatars and the
  newest-first display order.
- `Chat.ChatManager` (`chat.js`).
  - State: a history per persona capped at a hundred messages, the session's
    message list, the current persona and a single-flight flag.
  - Sending is split into `BeginSend` (the four guards, logging the user's
    text, building the request) and `FinishSend` (applying the reply, or
    falling back to a persona-flavoured substitute).
  - Also clearing, switching persona, the request shape and the
    conversation summary.
- `Ide.IDEManager` (`ide.js`).
  - State: the file table and the tab order. The tab order is a sequence
    that follows JavaScript's `Object.keys` rules: array-index names first,
    by value, then the other names in insertion order.
  - Operations: the current file, the editor text and mode; create, import,
    switch, close, save and change tracking.
  - Pure parts: language detection and the code-review request.

`base.dfy` holds what the browser supplies: `String.prototype.trim`, ASCII
lower-casing, `split('.').pop()`, `includes`, a string's UTF-16 `length`,
and `localStorage` as a `map<string, string>`. A Dafny string is a sequence
of Unicode characters. A JavaScript string is a sequence of UTF-16 code
units. The two differ only in length, and the one length the managers
measure is the API key's, which `Base.Utf16Length` counts in code units. `scenarios.dfy` wires the managers together the way the
page does. It drives them through whole interactions and states what the user
ends up seeing and what is stored.

The model replaces the environment with parameters:
- the clock becomes integer timestamps;
- each `Math.random` pick becomes an index;
- the persona id `generatePersonaId` returns becomes a fresh-id argument;
- each `fetch` outcome becomes a `Chat.Reply` value;
- a `confirm`/`prompt` answer becomes a boolean or an `Option`;
- a read file becomes a string.

Where the behaviour the system is designed for and the code differ, the model
follows the code:
- Deleting a persona removes neither its chat history nor the chat's copy of
  it. The chat keeps sending to the deleted id
  (`Scenarios.SendAfterDeletingActivePersona`,
  `Scenarios.AnswerAfterDeletingActivePersona`).
- The single-flight flag is one per chat, not one per persona.
- Selecting a persona tells the chat twice: once by a direct call and once
  through the `personaChanged` event. Each telling queues a greeting, so two
  unsaved greetings appear. Both go out as context with the next request,
  and the summary counts both (`Scenarios.Switch`, `Scenarios.GreetedTwice`).
- A reply that arrives after a switch goes to the newly selected persona in
  the chat (`Scenarios.ReplyAfterSwitch`). The code-review reply credits the
  persona that was asked (`Scenarios.HelpCreditsPersonaAsked`).
- After a reload the registry restores the selected persona but the chat is
  never told of it, so sending is refused until the user picks a persona
  again (`Scenarios.ReloadLeavesChatWithoutPersona`).
- A new HTML file is detected as `xml`, which has no template, so it starts
  from the JavaScript template (`Ide.HtmlFileGetsJavascriptTemplate`,
  `Scenarios.NewHtmlFile`).
- Closing the current file shows the first remaining file but leaves the
  editor in the closed file's mode (`Scenarios.ClosingCurrentFileKeepsMode`).
- Importing a file under the current file's name replaces its entry. The
  editor keeps the old text, which the next save writes back
  (`Scenarios.ImportOverOpenFileIsLostOnSave`).
- The constructor falls back to an embedded credential when no key is stored;
  `load` falls back to the empty string.

## Model

| member | source | states |
|---|---|---|
| Base.Trim | WAIFU__1111/scripts/chat.js:147 | `trim` gives the piece of its input left once only whitespace is removed before and after it; the piece neither starts nor ends with whitespace and is empty exactly when the input is all whitespace |
| Base.Utf16Length | WAIFU__1111/scripts/config.js:259 | a string's JavaScript `length`: between its character count and twice that, equal to the count when every character is at most U+FFFF and twice it when every character is above |
| Base.StoredOr | WAIFU__1111/scripts/config.js:251-253 | `getItem(key) \|\| fallback` gives a non-empty stored value, and the fallback for a missing or empty one; it is empty only when the fallback is |
| Base.TrimUnpadded | WAIFU__1111/scripts/chat.js:147 | text without leading or trailing whitespace is its own trim |
| Base.ToLowerAscii | WAIFU__1111/scripts/ide.js:288 | lower-casing keeps the length and maps each character through the ASCII case mapping |
| Base.AfterLastDot | WAIFU__1111/scripts/ide.js:288 | `split('.').pop()` is the dot-free suffix that is either the whole name or follows its last dot |
| Base.Without | WAIFU__1111/scripts/ide.js:250 | deleting a key keeps exactly the other keys, in order, once each, one fewer when it was present |
| Config.LoadSettings | WAIFU__1111/scripts/config.js:250-255 | `load` takes each stored value, with `''`, the default model and the default theme for a missing or empty one; animations are off exactly when the stored text is `false` |
| Config.SaveSettings | WAIFU__1111/scripts/config.js:242-247 | `save` writes the four keys, animations as `true`/`false`, and leaves every other store entry alone |
| Config.SaveLoadRoundTrip | WAIFU__1111/scripts/config.js:242-255 | `load` after `save` returns the saved settings exactly when the model and theme are non-empty; the key and the animations flag always survive |
| Config.LoadEmptyStore | WAIFU__1111/scripts/config.js:251-254 | `load` on an empty store gives an empty key, the default model and theme, and animations on |
| Config.WaifuConfig.constructor | WAIFU__1111/scripts/config.js:3-7 | the constructor reads the store like `load` but falls back to the embedded credential, so its key is never empty |
| Config.WaifuConfig.Save | WAIFU__1111/scripts/config.js:242-247 | the store after `save` is `SaveSettings` of the current settings |
| Config.WaifuConfig.Load | WAIFU__1111/scripts/config.js:250-255 | after `load` the four fields are `LoadSettings` of the store |
| Config.IsValidApiKey | WAIFU__1111/scripts/config.js:258-260 | a key is valid exactly when it starts with `csk-`, case included, and its JavaScript `length` in UTF-16 code units is more than ten; the leading non-empty test adds nothing |
| Config.ValidApiKeyPersists | WAIFU__1111/scripts/config.js:242-260 | a key passes the check after `save` and `load` exactly when it passed before; the key `load` gives for a fresh store fails |
| Config.ApiKeyLengthBound | WAIFU__1111/scripts/config.js:258-260 | the length bound is strict and counts UTF-16 code units: ten characters with the prefix fail, eleven pass, and four characters beyond U+FFFF after the prefix pass as eight code units |
| Config.GetRandomFallback | WAIFU__1111/scripts/config.js:263-265 | every draw is one of the fallback replies |
| Config.PersonaTypeEntry | WAIFU__1111/scripts/config.js:18-152 | a persona type has its own entry exactly when it is one of the five built-in types |
| Config.GetPersonaType | WAIFU__1111/scripts/config.js:273-275 | a known type gets its own entry, any other type the tsundere one |
| Config.CodeTemplateEntry | WAIFU__1111/scripts/config.js:169-238 | a language has its own template exactly when it is one of the five template languages |
| Config.GetCodeTemplate | WAIFU__1111/scripts/config.js:268-270 | a known language gets its own template, any other language the JavaScript one |
| Personas.DefaultsComplete | WAIFU__1111/scripts/personas.js:171-199 | each of the four default personas has a name, a type and a prompt |
| Personas.ResolveFields | WAIFU__1111/scripts/personas.js:124-143 | a blank trimmed name, blank type or blank trimmed prompt gives one of the four default personas, otherwise the trimmed form fields; either way no required field is empty |
| Personas.NewPersona | WAIFU__1111/scripts/personas.js:220-231 | the new record has the given id and form fields, was created and last used now, has no messages, and shows the chosen picture or, without one, the type's default avatar |
| Personas.AvatarEntry | WAIFU__1111/scripts/personas.js:246-252 | a type has its own avatar exactly when it is built-in |
| Personas.GetDefaultAvatar | WAIFU__1111/scripts/personas.js:244-255 | a built-in type gets its own avatar, any other type the tsundere one |
| Personas.PersonaManager.constructor | WAIFU__1111/scripts/personas.js:3-11 | the current persona is restored only when the stored id is non-empty and a key of the loaded records |
| Personas.PersonaManager.SelectPersona | WAIFU__1111/scripts/personas.js:360-383 | an unknown id changes nothing; a known one becomes current, its record's `lastUsed` refreshed, and is stored as the selection |
| Personas.PersonaManager.SavePersonaData | WAIFU__1111/scripts/personas.js:220-242 | exactly one record is added under the new id, with no messages, the others are unchanged, and the new persona is selected |
| Personas.PersonaManager.CreatePersona | WAIFU__1111/scripts/personas.js:119-218 | the stored persona has the form's fields, or a default persona's fields without the chosen picture when one was blank; it is selected |
| Personas.PersonaManager.DeletePersona | WAIFU__1111/scripts/personas.js:448-467 | an unknown id or a declined confirmation changes nothing; otherwise exactly that key goes, and the selection is cleared exactly when it was current |
| Personas.PersonaManager.IncrementMessageCount | WAIFU__1111/scripts/personas.js:539-544 | a known persona's count goes up by one and nothing else changes; an unknown id changes nothing |
| Personas.InsertNewestFirst | WAIFU__1111/scripts/personas.js:280 | inserting into a newest-first list keeps it newest first and adds exactly that record |
| Personas.NewestFirstCons | WAIFU__1111/scripts/personas.js:280 | a record used no earlier than the head of a newest-first list can go in front |
| Personas.SortNewestFirst | WAIFU__1111/scripts/personas.js:279-280 | the display order is a permutation of the records, most recently used first |
| Chat.LastN | WAIFU__1111/scripts/chat.js:288 | `slice(-n)` is the last min(n, length) elements |
| Chat.AppendCapped | WAIFU__1111/scripts/chat.js:280-289 | one save pushes the message and keeps the last hundred, ending with that message |
| Chat.LastNAbsorbs | WAIFU__1111/scripts/chat.js:287-289 | cutting to the last n before appending more changes nothing about the last n afterwards |
| Chat.AppendEachKeepsLastHundred | WAIFU__1111/scripts/chat.js:274-289 | any number of saves one by one leave exactly the last hundred of all messages, in order |
| Chat.SaveToHistory | WAIFU__1111/scripts/chat.js:274-292 | saving creates the persona's entry when missing, keeps the last hundred of old plus the message, and leaves every other entry alone |
| Chat.ToTurns | WAIFU__1111/scripts/chat.js:432-435 | each message becomes one turn, in order |
| Chat.ConversationContext | WAIFU__1111/scripts/chat.js:428-436 | the context is the last min(10, n) messages in order, each a user turn exactly when the user sent it |
| Chat.SystemPrompt | WAIFU__1111/scripts/chat.js:409-426 | the system text is the generic prompt without a persona, otherwise the persona's prompt followed by the one fixed addendum |
| Chat.BuildRequest | WAIFU__1111/scripts/chat.js:366-394 | the request goes to the configured endpoint with the key and model; its turns are the system turn, the context, then the text as a user turn; temperature 0.8, 1500 tokens, no streaming |
| Chat.ReplyContent | WAIFU__1111/scripts/chat.js:396-406 | a reply text comes only from an answered response whose status is ok, and it is the message of the first choice |
| Chat.ReplyFailures | WAIFU__1111/scripts/chat.js:396-406 | no response, a status that is not ok, missing or empty `choices`, a `null` first choice or one without a message all give no text; an ok reply's first message is the text whatever choices follow |
| Chat.UserTurnSentTwice | WAIFU__1111/scripts/chat.js:366-389 | the user's text is logged (line 174) before the request is built, so it is sent as both of the last two turns |
| Chat.WelcomeEntry | WAIFU__1111/scripts/chat.js:73-105 | a type has its own greetings exactly when it is built-in |
| Chat.WelcomeMessages | WAIFU__1111/scripts/chat.js:73-108 | four greetings, the type's own for a built-in type and the tsundere ones otherwise |
| Chat.FrameEntry | WAIFU__1111/scripts/chat.js:203-228 | a type has its own fallback templates exactly when it is built-in |
| Chat.FallbackFrames | WAIFU__1111/scripts/chat.js:230 | three templates, the type's own for a built-in type and the tsundere ones otherwise |
| Chat.PersonalizeFallback | WAIFU__1111/scripts/chat.js:200-233 | without a persona the fallback comes back unchanged; with one the text contains the fallback and the user's message in quotes, from the tsundere templates for an unknown type |
| Chat.FillKeepsBoth | WAIFU__1111/scripts/chat.js:205-227 | a filled template contains both texts put into it |
| Chat.CountSender | WAIFU__1111/scripts/chat.js:519-520 | a sender's count is at most the number of messages |
| Chat.SendersPartition | WAIFU__1111/scripts/chat.js:519-520 | the user's and the AI's counts add up to the number of messages |
| Chat.ElapsedMinutes | WAIFU__1111/scripts/chat.js:540-541 | the whole minutes elapsed, rounded down: `r` minutes are no more than the gap and `r + 1` minutes more; never negative when the times are in order |
| Chat.ChatDuration | WAIFU__1111/scripts/chat.js:535-550 | zero minutes for fewer than two messages; below an hour the elapsed minutes; otherwise hours and remaining minutes that add up to them |
| Chat.ConversationSummary | WAIFU__1111/scripts/chat.js:514-533 | nothing without a persona or messages; otherwise the persona's name, the counts (adding up to the total), the first and last times and the duration |
| Chat.LoadAsWritten | WAIFU__1111/scripts/chat.js:118-120 | as written, the session list becomes the stored array itself whenever one exists |
| Chat.AddAsWritten | WAIFU__1111/scripts/chat.js:267-299 | as written, a saving push onto a shared array appends the message twice |
| Chat.SharedSaveStoresTwice | WAIFU__1111/scripts/chat.js:274-299 | as written, one saved message is stored twice in a loaded history, and 99 stored messages grow to 101 |
| Chat.SharedWelcomeIsStored | WAIFU__1111/scripts/chat.js:295-299 | as written, the unsaved welcome still lands in a loaded history |
| Chat.SharedHistoryExample | WAIFU__1111/scripts/chat.js:274-299 | history `[m0]` plus one saved `hi` becomes `[m0, hi, hi]` as written, `[m0, hi]` as intended |
| Chat.Refusal | WAIFU__1111/scripts/chat.js:147-164 | the guards in order: empty trimmed text, no persona, no key, busy; a send goes ahead exactly when none applies |
| Chat.ChatManager.constructor | WAIFU__1111/scripts/chat.js:3-11 | a new chat has the stored histories, no persona and nothing in flight |
| Chat.ChatManager.AddMessage | WAIFU__1111/scripts/chat.js:267-302 | the message always joins the session list; it is saved, capped, only when saving is asked for and a persona is selected |
| Chat.ChatManager.OnPersonaChange | WAIFU__1111/scripts/chat.js:58-71 | the session becomes the persona's stored history (empty without one), the stored histories unchanged; the greeting is one of the type's |
| Chat.ChatManager.BeginSend | WAIFU__1111/scripts/chat.js:145-177 | a refused send changes nothing; otherwise the trimmed text is logged and saved as the user's, the manager is busy, and the request is built from the session as it now is |
| Chat.ChatManager.Accept | WAIFU__1111/scripts/chat.js:174-177 | the user's text is logged and saved and the manager becomes busy |
| Chat.ChatManager.FinishSend | WAIFU__1111/scripts/chat.js:179-197 | no longer busy; with a reply text that text is logged and saved and the current persona credited once; otherwise the dressed-up fallback is logged and saved and no counter moves |
| Chat.ChatManager.AddAnswer | WAIFU__1111/scripts/chat.js:183-186 | the reply is logged and saved and the current persona's counter goes up by one |
| Chat.ChatManager.AddFallback | WAIFU__1111/scripts/chat.js:190-193 | the personalised fallback is logged and saved |
| Chat.ChatManager.ClearChat | WAIFU__1111/scripts/chat.js:438-467 | without a persona or messages, or when declined, nothing changes; with a persona, messages and the user's confirmation it always clears: the session empties and only the current persona's history is dropped |
| Ide.LanguageEntry | WAIFU__1111/scripts/ide.js:289-302 | an extension has a language exactly when it is one of the twelve, and that language has an editor mode |
| Ide.DetectLanguage | WAIFU__1111/scripts/ide.js:287-305 | the language is one of the five modes or `text`; `text` exactly when the lower-cased last extension is not in the table, and otherwise the language the table gives that extension |
| Ide.ModeEntry | WAIFU__1111/scripts/ide.js:308-314 | a language has a mode exactly when it is one of the five |
| Ide.EditorMode | WAIFU__1111/scripts/ide.js:307-317 | a known language is its own mode, any other is `text` |
| Ide.ModeOfDetectedLanguage | WAIFU__1111/scripts/ide.js:287-317 | a detected language is shown in the mode of the same name |
| Ide.AfterLastDotUnique | WAIFU__1111/scripts/ide.js:288 | the text after the last dot is the one dot-free suffix that is all of the name or follows a dot |
| Ide.DetectLanguageUsesLastExtension | WAIFU__1111/scripts/ide.js:288 | only the last extension decides the language |
| Ide.LowerSuffix | WAIFU__1111/scripts/ide.js:288 | lower-casing a suffix is taking the suffix of the lower-cased name |
| Ide.LowerAfterLastDot | WAIFU__1111/scripts/ide.js:288 | lower-casing commutes with taking the text after the last dot |
| Ide.LowerTwice | WAIFU__1111/scripts/ide.js:288 | lower-casing twice is lower-casing once |
| Ide.DetectLanguageIgnoresCase | WAIFU__1111/scripts/ide.js:287-305 | detection ignores the case of ASCII letters |
| Ide.HtmlIsXml | WAIFU__1111/scripts/ide.js:295 | `html` is detected as `xml` |
| Ide.HtmlFileGetsJavascriptTemplate | WAIFU__1111/scripts/ide.js:273-295 | an `.html` file is `xml`, which has no template, so it gets the JavaScript one |
| Ide.TemplateOfLanguage | WAIFU__1111/scripts/ide.js:273-274 | of the detectable languages only Python and CSS have their own template; every other gets the JavaScript one |
| Ide.KeyOrderTail | WAIFU__1111/scripts/ide.js:252 | dropping the first key keeps the `Object.keys` order of the rest |
| Ide.KeyOrderCons | WAIFU__1111/scripts/ide.js:252 | a key can go in front when it is a smaller index, or when no key is an index |
| Ide.InsertIndexKey | WAIFU__1111/scripts/ide.js:276 | adding a new index key inserts it once, and the other keys keep their order |
| Ide.InsertIndexKeyKeepsOrder | WAIFU__1111/scripts/ide.js:276 | an index key goes after the smaller indices, keeping the order |
| Ide.AddKey | WAIFU__1111/scripts/ide.js:276 | an existing key keeps the order; a new key is added once and the other keys keep their order, a non-index one going last; distinctness and the `Object.keys` order are kept |
| Ide.WithoutKeepsKeyOrder | WAIFU__1111/scripts/ide.js:250-255 | deleting a key keeps the `Object.keys` order of the rest |
| Ide.PromptParts | WAIFU__1111/scripts/ide.js:430-444 | the prompt contains the code block and the name, and starts with its head |
| Ide.HelpPrompt | WAIFU__1111/scripts/ide.js:430-444 | the prompt names the language and the file and contains the code fenced with its language |
| Ide.HelpRequest | WAIFU__1111/scripts/ide.js:446-469 | the review request is the chat's request for the prompt with no conversation, except that the system turn is the persona's bare prompt and the sampling is 0.7 and 1000 tokens |
| Ide.HelpRequestCarriesCode | WAIFU__1111/scripts/ide.js:446-469 | the review request has the endpoint, key and model, the persona's prompt as the system turn and the fenced code in one user turn; temperature 0.7, 1000 tokens |
| Ide.HelpFallback | WAIFU__1111/scripts/ide.js:423-426 | the failure text starts with the fallback and names the language |
| Ide.IDEManager.constructor | WAIFU__1111/scripts/ide.js:3-12 | one file, `main.js`, holding the JavaScript template, current and shown in JavaScript mode |
| Ide.IDEManager.EditorChange | WAIFU__1111/scripts/ide.js:128-137 | the current file takes the editor text and is marked unsaved only when the text differs |
| Ide.IDEManager.SaveCurrentFile | WAIFU__1111/scripts/ide.js:319-328 | the current file takes the editor text and is no longer unsaved |
| Ide.IDEManager.SwitchToFile | WAIFU__1111/scripts/ide.js:208-236 | an unknown name or the current file changes nothing; otherwise the editor text is stored into the file left and the target is shown in its mode |
| Ide.IDEManager.CloseFile | WAIFU__1111/scripts/ide.js:238-262 | the last file is never closed; an unsaved one only when confirmed; closing the current file shows the first remaining key, closing another changes nothing else; the mode never changes |
| Ide.IDEManager.Remove | WAIFU__1111/scripts/ide.js:250-256 | the entry and its tab go; a current file that went is replaced by the first remaining one |
| Ide.IDEManager.NewFile | WAIFU__1111/scripts/ide.js:264-285 | a cancelled or empty name and a taken name change nothing; otherwise the file is added with its language's template, unsaved flag clear, and switched to |
| Ide.IDEManager.ImportFile | WAIFU__1111/scripts/ide.js:585-603 | the entry is added or replaced with the read text, unsaved flag clear, and switched to; over the current file the editor keeps its old text |
| Ide.IDEManager.PutAndSwitch | WAIFU__1111/scripts/ide.js:276-282 | the entry is stored, a new name joins the tabs in `Object.keys` order, and the file is switched to |
| Ide.IDEManager.BeginHelp | WAIFU__1111/scripts/ide.js:393-411 | no persona and then no key are refused; otherwise the editor text, file name and language go to the selected persona |
| Ide.IDEManager.FinishHelp | WAIFU__1111/scripts/ide.js:415-427 | a reply text is shown and credits the persona asked; otherwise the fallback advice is shown and no counter moves |
| Scenarios.Switch | WAIFU__1111/scripts/personas.js:431-441 | selecting a persona tells the chat twice, directly and through the `personaChanged` event; the chat shows that persona's stored history and two greetings are queued, one per telling |
| Scenarios.GreetedTwice | WAIFU__1111/scripts/chat.js:58-71 | once the timers fire, a fresh chat shows two greetings from the persona, none stored, both sent as assistant turns with the next request and both counted by the summary |
| Scenarios.ShowGreetings | WAIFU__1111/scripts/chat.js:67-69 | each queued greeting is added as the persona's message and not stored |
| Scenarios.GreetingsAsContext | WAIFU__1111/scripts/chat.js:428-436 | two greetings alone become two assistant turns of context, and the summary counts two messages, both from the AI |
| Scenarios.Selected | WAIFU__1111/scripts/personas.js:220-242 | a fresh registry with one selected persona and a chat told of it |
| Scenarios.Ask | WAIFU__1111/scripts/chat.js:145-177 | an unpadded text is shown, saved and awaited |
| Scenarios.Refused | WAIFU__1111/scripts/chat.js:147-164 | a guarded send is refused for its reason and changes nothing |
| Scenarios.Hear | WAIFU__1111/scripts/chat.js:181-186 | the reply is shown, saved and credited to the current persona |
| Scenarios.Miss | WAIFU__1111/scripts/chat.js:187-193 | for any reply without text, one message is added from the AI side holding the fallback and the quoted user text; no counter moves |
| Scenarios.SavedBelowCap | WAIFU__1111/scripts/chat.js:276-289 | below the cap, saving just appends |
| Scenarios.Asked | WAIFU__1111/scripts/chat.js:145-177 | after asking `hi`, the session and the history hold exactly that message |
| Scenarios.SuccessfulExchange | WAIFU__1111/scripts/chat.js:145-197 | a successful exchange shows and stores question and answer and credits the persona once |
| Scenarios.FailedExchange | WAIFU__1111/scripts/chat.js:187-193 | a failed exchange shows the drawn fallback quoting the question and credits nobody |
| Scenarios.SecondSendWhileBusy | WAIFU__1111/scripts/chat.js:161-164 | a second send while a reply is awaited is refused and logs nothing |
| Scenarios.SendAfterDeletingActivePersona | WAIFU__1111/scripts/personas.js:448-467 | after deleting the active persona the chat still accepts a message and stores it under the deleted id |
| Scenarios.AnswerAfterDeletingActivePersona | WAIFU__1111/scripts/personas.js:448-467 | an answer arriving after the deletion is still shown and stored, and credits nobody |
| Scenarios.ReloadLeavesChatWithoutPersona | WAIFU__1111/scripts/chat.js:3-11 | after a reload the registry has a current persona but the chat refuses to send for want of one |
| Scenarios.ReplyAfterSwitch | WAIFU__1111/scripts/chat.js:183-186 | a reply arriving after a switch is stored for, and credited to, the newly selected persona |
| Scenarios.EditorOver | WAIFU__1111/scripts/ide.js:3-12 | a fresh editor over a registry, with a non-empty key |
| Scenarios.AskForHelp | WAIFU__1111/scripts/ide.js:393-411 | with a persona and a key the request goes to the selected persona |
| Scenarios.HearHelp | WAIFU__1111/scripts/ide.js:415-420 | the help reply is shown and credits the persona asked |
| Scenarios.HelpCreditsPersonaAsked | WAIFU__1111/scripts/ide.js:393-420 | a help reply arriving after a switch credits the persona that was asked, not the one selected |
| Scenarios.FreshEditor | WAIFU__1111/scripts/ide.js:3-12 | a fresh editor has only `main.js` with the JavaScript template |
| Scenarios.Create | WAIFU__1111/scripts/ide.js:264-285 | a new name is created with its language's template and becomes current |
| Scenarios.NewHtmlFile | WAIFU__1111/scripts/ide.js:264-285 | a new `.html` file is `xml` with the JavaScript template, in `xml` mode, after `main.js` |
| Scenarios.ImportOverOpenFileIsLostOnSave | WAIFU__1111/scripts/ide.js:585-603 | importing over the open file replaces it, and saving straight away writes the old editor text back |
| Scenarios.PythonFile | WAIFU__1111/scripts/ide.js:292 | a `.py` name is Python whatever comes before |
| Scenarios.ClosingCurrentFileKeepsMode | WAIFU__1111/scripts/ide.js:238-262 | closing the current Python file shows `main.js` again in Python mode |
| Scenarios.IndexKeysSorted | WAIFU__1111/scripts/ide.js:592 | importing `10` and then `2` gives the tabs `2`, `10`, `main.js` |
| Scenarios.NumericNamesComeFirst | WAIFU__1111/scripts/ide.js:252-254 | closing the current file `2` moves to `10`, not to `main.js` |

## Left out

- Rendering, modals, notifications, the typing indicator, scrolling and tab
  styling: DOM work with no state of its own. `main.js` is not part of this
  model.
- Event wiring is modelled only where the managers' state depends on it:
  the `personaChanged` event (`Scenarios.Switch`) and the editor's `change`
  listener as `Ide.IDEManager.EditorChange`. That listener also fires on
  the editor's own `setValue` during a switch (ide.js lines 48-50, 149 and
  221). The model leaves those calls out, because for text the editor keeps
  as given they find nothing changed.
- `Ide.IDEManager.ImportFile`: the editor is assumed to keep text exactly as
  given, and so are `Ide.IDEManager.SwitchToFile` and
  `Ide.IDEManager.NewFile`. CodeMirror turns CR and CRLF line endings into
  LF. An imported file whose text has CR line endings is therefore
  rewritten with LF by the `change` listener as soon as it is shown, and
  marked unsaved. The model keeps the text as read, and the file stays
  marked saved.
- `formatMessage` in the chat and in the editor: regular-expression
  replacement emitting HTML.
- `runCode`, `runJavaScript` and `previewHTML`: they run user code with
  `eval` or open a window.
- The file readers: the avatar picture and the imported file arrive as
  strings. The failed read of an avatar is `None`.
- Exports and downloads, which have no counterpart that reads them back.
- `fetch` itself and the `User-Agent` header: the reply is a parameter. A
  first choice whose message has no `content` is folded into "no text". In the
  source `getAIResponse` then returns `undefined`. Showing it calls
  `formatMessage(undefined)`, which throws inside `displayMessage` (chat.js
  lines 271 and 344-346) before any state changes. The send then takes the
  fallback path, as it does in the model. The editor behaves the same way
  through `addToOutput` (ide.js lines 500 and 524).
- The clock and `toISOString`: timestamps are integers in milliseconds.
- Randomness: every `Math.random` pick is an index argument.
- The half-second delay before the welcome message: `OnPersonaChange`
  returns the greeting instead of adding it later, and
  `Scenarios.ShowGreetings` adds the queued greetings when the timers fire.
- `Scenarios.Switch`: only `Scenarios.GreetedTwice` lets the two greeting
  timers fire. The other scenarios end, or send their next message, before
  the half second is up, so their sessions hold no greetings.
- `Personas.SortNewestFirst`: the order among personas with the same
  `lastUsed` is not stated. JavaScript's stable sort keeps them in
  `Object.values` order.
- The JSON encoding of `localStorage` entries. The store is a
  `map<string, string>`, and saved records are values.
- Lookups by inherited object property names such as `constructor` or
  `toString`. Every lookup table is modelled as own properties only.
- The exception path of `createPersona`. Reading the form is assumed to
  succeed, so only the missing-field branch leads to a default persona.
- `Base.ToLowerAscii`: maps ASCII letters only. This is exact for the
  extension table: the only non-ASCII character that lower-cases to an ASCII
  letter is the Kelvin sign, which gives `k`, and no extension contains `k`.
- `Ide.IDEManager.SwitchToFile`: the editor mode is set as if CodeMirror is
  always present. The plain text-area editor without a mode is not modelled.
- `Ide.IDEManager.CloseFile`: closing an unknown name throws in the source
  before anything changes. Here it is the `NoSuchFile` outcome.
- `Scenarios.Miss`: states only that the fallback and the quoted message
  appear in the added message. `Chat.ChatManager.FinishSend` states the
  exact text.
- `Chat.ChatManager`: the session list and the stored history are separate
  values, as the code evidently intends: each saved message is stored once.
  The sharing of one array between them in the source is modelled on values by `Chat.LoadAsWritten` and
  `Chat.AddAsWritten` (see Findings).
- The embedded credential of the configuration is not reproduced: it is an
  opaque non-empty constant.

## Findings

| source | as written | input that shows it | evidently intended | confidence | as-written member | corrected member |
|---|---|---|---|---|---|---|
| WAIFU__1111/scripts/chat.js:120 | loading a persona's chat makes the session list the very array stored in the history, so a saving `addMessage` pushes each message twice onto it (lines 280 and 295), and an unsaved welcome is stored anyway | stored history `[m0]`, user sends `hi`: the history becomes `[m0, hi, hi]`; 99 stored messages plus one saved grow to 101 | each saved message stored once, at most a hundred kept, the welcome not stored | not executed | Chat.SharedSaveStoresTwice | Chat.SaveToHistory |
