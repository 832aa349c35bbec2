/** The chat session engine (`ChatManager`): the per-persona message
    history, the session's message list, the request sent to the chat
    completion service, and the substitute text shown when it fails. */
module Chat {
  import opened Base
  import Config
  import Personas

  /** The `type` of a message: `'user'` or `'ai'`. */
  datatype Sender = User | Ai

  /** One chat message; the timestamp is in milliseconds. */
  datatype Message = Message(content: string, sender: Sender, timestamp: int)

  /** The `role` of one turn of a request. */
  datatype Role = System | UserRole | Assistant

  datatype Turn = Turn(role: Role, content: string)

  /** What `getAIResponse` posts: the endpoint, the `Authorization` header
      and the fields of the JSON body. */
  datatype Request = Request(
    endpoint: string,
    authorization: string,
    model: string,
    turns: seq<Turn>,
    temperature: real,
    maxTokens: nat,
    stream: bool)

  /** One entry of the decoded `choices` array; `message` holds the text of
      its `message` object, or is `None` when the object is missing. */
  datatype Choice = Choice(message: Option<string>)

  /** What the fetch produced: no response at all (the network failed, or the
      body was not JSON), or a response with its `ok` flag and its decoded
      `choices` (`None` when the body has none; a `None` entry is `null`). */
  datatype Reply = Unanswered | Answered(ok: bool, choices: Option<seq<Option<Choice>>>)

  /** The text `getAIResponse` resolves with, or `None` where it throws: a
      status that is not ok, or no `choices[0].message`. */
  function ReplyContent(reply: Reply): (r: Option<string>)
    ensures r.Some? ==> reply.Answered? && reply.ok && reply.choices.Some?
    ensures r.Some? ==> reply.choices.value != [] && reply.choices.value[0] == Some(Choice(r))
  {
    if reply.Answered? && reply.ok && reply.choices.Some? && |reply.choices.value| > 0
       && reply.choices.value[0].Some?
    then reply.choices.value[0].value.message
    else None
  }

  /** Every way `getAIResponse` can fail gives no text: no response, a
      status that is not ok, no `choices`, an empty array, a `null` first
      choice, or a first choice without a message; otherwise the first
      choice's message is the text, whatever the choices after it. */
  lemma ReplyFailures(ok: bool, choices: Option<seq<Option<Choice>>>)
    ensures ReplyContent(Unanswered) == None
    ensures !ok ==> ReplyContent(Answered(ok, choices)) == None
    ensures choices.None? || choices == Some([]) ==> ReplyContent(Answered(ok, choices)) == None
    ensures choices.Some? && choices.value != [] && (choices.value[0].None? || choices.value[0] == Some(Choice(None)))
      ==> ReplyContent(Answered(ok, choices)) == None
    ensures forall text: string, more: seq<Option<Choice>> ::
      ReplyContent(Answered(true, Some([Some(Choice(Some(text)))] + more))) == Some(text)
  {
  }

  /** Each persona's stored history keeps at most this many messages. */
  const HistoryCap: nat := 100

  /** A request carries at most this many earlier messages. */
  const ContextWindow: nat := 10

  /** `s.slice(-n)` for a positive `n`: the last `n` elements, or all of `s`
      when it is shorter. */
  function LastN(s: seq<Message>, n: nat): (r: seq<Message>)
    ensures |r| == Min(|s|, n)
    ensures r == s[|s| - |r|..]
  {
    if |s| <= n then s else s[|s| - n..]
  }

  /** One saving step of `addMessage` on a persona's history: push, then cut
      back to the last hundred when the array grew past that. The result is
      the last hundred of the old history followed by `m`. */
  function AppendCapped(log: seq<Message>, m: Message): (r: seq<Message>)
    ensures r == LastN(log + [m], HistoryCap)
    ensures |r| <= HistoryCap && r[|r| - 1] == m
  {
    var grown := log + [m];
    if |grown| > HistoryCap then grown[|grown| - HistoryCap..] else grown
  }

  /** The history after saving `ms` one after the other. */
  function AppendEach(log: seq<Message>, ms: seq<Message>): seq<Message>
    decreases |ms|
  {
    if ms == [] then log else AppendEach(AppendCapped(log, ms[0]), ms[1..])
  }

  /** Keeping the last `n` of a prefix and then the last `n` of the whole is
      the same as keeping the last `n` of the whole. */
  lemma LastNAbsorbs(x: seq<Message>, y: seq<Message>, n: nat)
    ensures LastN(LastN(x, n) + y, n) == LastN(x + y, n)
  {
    var w := x + y;
    var z := LastN(x, n) + y;
    if |x| <= n {
      assert LastN(x, n) == x;
    } else if y == [] {
      assert w == x && z == LastN(x, n);
    } else {
      assert z == w[|x| - n..];
      assert z[|z| - n..] == w[|x| - n..][|z| - n..] == w[|w| - n..];
    }
  }

  /** However many messages are saved one by one, a history that starts
      within the cap holds exactly the last hundred of all of them, in order. */
  lemma {:induction false} AppendEachKeepsLastHundred(log: seq<Message>, ms: seq<Message>)
    requires |log| <= HistoryCap
    ensures AppendEach(log, ms) == LastN(log + ms, HistoryCap)
    decreases |ms|
  {
    if ms == [] {
      assert log + ms == log;
    } else {
      var next := AppendCapped(log, ms[0]);
      AppendEachKeepsLastHundred(next, ms[1..]);
      LastNAbsorbs(log + [ms[0]], ms[1..], HistoryCap);
      assert log + [ms[0]] + ms[1..] == log + ms;
    }
  }

  /** The history of persona `id` after `addMessage` saved `m` to it: the
      entry is created when missing and capped; no other entry changes. */
  function SaveToHistory(history: map<string, seq<Message>>, id: string, m: Message): (r: map<string, seq<Message>>)
    ensures r.Keys == history.Keys + {id}
    ensures r[id] == LastN((if id in history then history[id] else []) + [m], HistoryCap)
    ensures |r[id]| <= HistoryCap
    ensures forall k :: k in history && k != id ==> r[k] == history[k]
  {
    history[id := AppendCapped(if id in history then history[id] else [], m)]
  }

  /** `msg.type === 'user' ? 'user' : 'assistant'`. */
  function RoleOf(s: Sender): Role
  {
    if s == User then UserRole else Assistant
  }

  /** The turn a message becomes in a request. */
  function TurnOf(m: Message): Turn
  {
    Turn(RoleOf(m.sender), m.content)
  }

  /** The messages as turns, one for one and in order. */
  function ToTurns(ms: seq<Message>): (ts: seq<Turn>)
    ensures |ts| == |ms|
    ensures forall i :: 0 <= i < |ms| ==> ts[i] == TurnOf(ms[i])
  {
    if ms == [] then [] else [TurnOf(ms[0])] + ToTurns(ms[1..])
  }

  /** `buildConversationContext`: the last ten session messages (all of them
      when there are fewer), in order, each a user turn exactly when it was
      sent by the user. */
  function ConversationContext(messages: seq<Message>): (ts: seq<Turn>)
    ensures |ts| == Min(|messages|, ContextWindow)
    ensures forall i :: 0 <= i < |ts| ==> ts[i] == TurnOf(messages[|messages| - |ts| + i])
    ensures forall i :: 0 <= i < |ts| ==>
      (ts[i].role == UserRole <==> messages[|messages| - |ts| + i].sender == User)
  {
    ToTurns(LastN(messages, ContextWindow))
  }

  /** The system text used when no persona is selected. */
  const NoPersonaPrompt := "You are a helpful AI assistant."

  /** The fixed text appended to every persona's own prompt. */
  const ContextAddendum := "\n"
    + "        \n"
    + "Additional Context:\n"
    + "- You are chatting in a casual conversation format, not just coding help\n"
    + "- The user might ask about programming, life, anime, or just want to chat\n"
    + "- Keep responses engaging and in-character\n"
    + "- You can use emojis and expressions that fit your personality\n"
    + "- If asked about coding, you\'re always ready to help enthusiastically\n"
    + "- Remember you\'re in \"Waifu Coder\" - a fun, anime-inspired coding environment\n"
    + "- Feel free to ask the user about their projects or interests\n"
    + "        "

  /** `buildSystemPrompt`: the persona's own prompt followed by the one
      fixed addendum, whichever the persona, or the generic prompt without
      one. */
  function SystemPrompt(persona: Option<Personas.Persona>): (r: string)
    ensures persona.None? ==> r == NoPersonaPrompt
    ensures persona.Some? ==>
      && StartsWith(r, persona.value.systemPrompt)
      && r[|persona.value.systemPrompt|..] == ContextAddendum
  {
    match persona
    case None => NoPersonaPrompt
    case Some(p) =>
      var r := p.systemPrompt + ContextAddendum;
      assert r[..|p.systemPrompt|] == p.systemPrompt;
      r
  }

  const Temperature: real := 0.8
  const MaxTokens: nat := 1500

  /** The request for `text`, built from the session messages as they are
      when it is sent (`getAIResponse`): the configured endpoint, key and
      model; the system turn, then the recent context, then `text` as a user
      turn; the fixed sampling settings. */
  function BuildRequest(settings: Config.Settings, persona: Option<Personas.Persona>,
                        messages: seq<Message>, text: string): (r: Request)
    ensures r.endpoint == Config.ApiEndpoint
    ensures r.authorization == "Bearer " + settings.apiKey
    ensures r.model == settings.currentModel
    ensures |r.turns| == Min(|messages|, ContextWindow) + 2
    ensures r.turns[0] == Turn(System, SystemPrompt(persona))
    ensures r.turns[1..|r.turns| - 1] == ConversationContext(messages)
    ensures r.turns[|r.turns| - 1] == Turn(UserRole, text)
    ensures r.temperature == Temperature && r.maxTokens == MaxTokens && !r.stream
  {
    var context := ConversationContext(messages);
    var turns := [Turn(System, SystemPrompt(persona))] + context + [Turn(UserRole, text)];
    assert turns[1..|turns| - 1] == context;
    Request(Config.ApiEndpoint, "Bearer " + settings.apiKey, settings.currentModel,
            turns, Temperature, MaxTokens, false)
  }

  /** The user's text reaches the service twice: `sendMessage` logs it before
      the request is built, so the context already ends with it, and the
      request then adds it again as its last turn. */
  lemma UserTurnSentTwice(settings: Config.Settings, persona: Option<Personas.Persona>,
                          messages: seq<Message>, text: string, now: int)
    requires messages != [] && messages[|messages| - 1] == Message(text, User, now)
    ensures var turns := BuildRequest(settings, persona, messages, text).turns;
      |turns| >= 3 && turns[|turns| - 2] == turns[|turns| - 1] == Turn(UserRole, text)
  {
    var turns := BuildRequest(settings, persona, messages, text).turns;
    var context := ConversationContext(messages);
    assert turns[|turns| - 2] == turns[1..|turns| - 1][|context| - 1];
    assert context[|context| - 1] == TurnOf(messages[|messages| - 1]);
  }

  const TsundereWelcome: seq<string> := [
    "H-Hey! It\'s not like I wanted "
      + "to help you code or anything... "
      + "but since you\'re here, I "
      + "guess I can assist. Baka!",
    "Hmph! Another user who probably "
      + "writes terrible code. Fine, "
      + "I\'ll help you improve... "
      + "but don\'t expect me to go "
      + "easy on you!",
    "W-What?! You want MY help "
      + "with coding? Well... I suppose "
      + "I could spare some time. "
      + "Don\'t get the wrong idea "
      + "though!",
    "Great, another person who "
      + "needs debugging help. It\'s "
      + "not like I enjoy fixing "
      + "messy code... but I\'ll do "
      + "it anyway!"]

  const KuudereWelcome: seq<string> := [
    "I see you require assistance "
      + "with programming. Very well, "
      + "I shall provide optimal "
      + "solutions to your queries.",
    "Your coding companion is "
      + "now online. Please state "
      + "your requirements and I "
      + "will process them accordingly.",
    "Initiating collaborative "
      + "programming session. I am "
      + "prepared to assist with "
      + "system architecture and "
      + "implementation.",
    "Hello. I am here to help "
      + "you write efficient, maintainable "
      + "code. Please proceed with "
      + "your questions."]

  const DandereWelcome: seq<string> := [
    "Um... h-hello there! I hope "
      + "I can help you with your "
      + "coding... if that\'s okay "
      + "with you...",
    "H-Hi! I\'m a bit nervous, "
      + "but I really want to help "
      + "you write good code! Please "
      + "be patient with me...",
    "Oh! You\'re here! I\'ve been "
      + "practicing debugging... "
      + "I hope I can be useful to "
      + "you... *fidgets nervously*",
    "S-Sorry if I seem shy... "
      + "but I love helping with "
      + "code! Please don\'t hesitate "
      + "to ask me anything!"]

  const YandereWelcome: seq<string> := [
    "Darling developer! I\'ve "
      + "been waiting for you! Let\'s "
      + "write beautiful code together "
      + "- just you and me~",
    "Finally! My precious coder "
      + "is here! I promise to optimize "
      + "every line until it\'s absolutely "
      + "perfect for you!",
    "Oh my sweet programmer! "
      + "I\'ll make sure your code "
      + "runs flawlessly - I won\'t "
      + "let any bugs hurt our precious "
      + "project!",
    "Welcome back, my love! Your "
      + "code needs attention, and "
      + "I\'m the ONLY one who can "
      + "give it the care it deserves!"]

  const GenkiWelcome: seq<string> := [
    "Hey there, amazing coder! "
      + "I\'m SO excited to help you "
      + "build incredible things! "
      + "Let\'s make some awesome "
      + "software together!",
    "Yay! A new coding adventure! "
      + "I can\'t wait to see what "
      + "we\'ll create today! This "
      + "is going to be FANTASTIC!",
    "Hello hello! Ready to code "
      + "something absolutely amazing?! "
      + "I\'m pumped and ready to "
      + "help with anything you need!",
    "Woohoo! Time to code! I "
      + "love everything about programming "
      + "and I\'m here to make it "
      + "super fun for you! Let\'s "
      + "gooo!"]

  /** The persona types that have their own welcome and fallback texts. */
  function WelcomeEntry(t: string): (r: Option<seq<string>>)
    ensures r.Some? <==> t in Config.PersonaTypeNames
  {
    if t == "tsundere" then Some(TsundereWelcome)
    else if t == "kuudere" then Some(KuudereWelcome)
    else if t == "dandere" then Some(DandereWelcome)
    else if t == "yandere" then Some(YandereWelcome)
    else if t == "genki" then Some(GenkiWelcome)
    else None
  }

  /** `getWelcomeMessages`: the four greetings of a built-in type; every
      other type is greeted as a tsundere. */
  function WelcomeMessages(t: string): (r: seq<string>)
    ensures |r| == 4
    ensures t in Config.PersonaTypeNames ==> Some(r) == WelcomeEntry(t)
    ensures t !in Config.PersonaTypeNames ==> r == TsundereWelcome
  {
    match WelcomeEntry(t)
    case Some(w) => w
    case None => TsundereWelcome
  }

  /** A fallback template: the text around the fallback sentence and around
      the quoted user message. */
  datatype Frame = Frame(before: string, between: string, after: string)

  /** The template filled in with the fallback sentence and the user text. */
  function Fill(f: Frame, fallback: string, user: string): string
  {
    f.before + fallback + f.between + Quote(user) + f.after
  }

  const TsundereFrames: seq<Frame> := [
    Frame("", " But don\'t think this means I can\'t help you! Your question about ", " is actually pretty interesting... I guess."),
    Frame("Ugh, my circuits are acting up! ", " About your ", " - it\'s not like I don\'t know the answer or anything!"),
    Frame("", " And regarding ", " - hmph! I suppose I could explain it, but you better pay attention this time!")]

  const KuudereFrames: seq<Frame> := [
    Frame("", " Regarding your inquiry ", " - I shall provide a logical analysis once systems are restored."),
    Frame("Technical difficulties detected. ", " Your question about ", " requires systematic evaluation."),
    Frame("", " Processing query ", " through alternative cognitive pathways.")]

  const DandereFrames: seq<Frame> := [
    Frame("", " Um... about your question ", " - I\'ll do my best to help even with these issues..."),
    Frame("S-sorry! ", " But I still want to try answering about ", " if you\'ll let me..."),
    Frame("", " I hope I can still be helpful with ", " despite the technical problems...")]

  const YandereFrames: seq<Frame> := [
    Frame("", " But nothing will stop me from helping you with ", ", my darling! \U{2661}"),
    Frame("Technical issues can\'t keep me away from you! ", " About ", " - I\'ll find a way to help, I promise! \U{2661}"),
    Frame("", " But don\'t worry! I\'ll protect you and help with ", " no matter what! \U{2661}")]

  const GenkiFrames: seq<Frame> := [
    Frame("", " But hey! I\'m still super excited to help with ", "! Let\'s figure it out together! \U{2728}"),
    Frame("Oops! ", " But that won\'t stop us from tackling ", " - this is going to be awesome! \U{1F680}"),
    Frame("", " No worries though! Your question about ", " sounds amazing and I can\'t wait to dive in! \U{1F389}")]

  function FrameEntry(t: string): (r: Option<seq<Frame>>)
    ensures r.Some? <==> t in Config.PersonaTypeNames
  {
    if t == "tsundere" then Some(TsundereFrames)
    else if t == "kuudere" then Some(KuudereFrames)
    else if t == "dandere" then Some(DandereFrames)
    else if t == "yandere" then Some(YandereFrames)
    else if t == "genki" then Some(GenkiFrames)
    else None
  }

  /** The three fallback templates of a type; every other type uses the
      tsundere ones. */
  function FallbackFrames(t: string): (r: seq<Frame>)
    ensures |r| == 3
    ensures t in Config.PersonaTypeNames ==> Some(r) == FrameEntry(t)
    ensures t !in Config.PersonaTypeNames ==> r == TsundereFrames
  {
    match FrameEntry(t)
    case Some(f) => f
    case None => TsundereFrames
  }

  /** `personalizeFallback`, with `index` the random pick among the type's
      three templates. With a persona the text keeps the fallback sentence
      and the user's message in quotes; without one the fallback comes back
      unchanged. */
  function PersonalizeFallback(persona: Option<Personas.Persona>, fallback: string, user: string,
                               index: nat): (r: string)
    requires index < 3
    ensures persona.None? ==> r == fallback
    ensures persona.Some? ==> Contains(r, fallback) && Contains(r, Quote(user))
    ensures persona.Some? ==> r == Fill(FallbackFrames(persona.value.personaType)[index], fallback, user)
    ensures persona.Some? && persona.value.personaType !in Config.PersonaTypeNames ==>
      r == Fill(TsundereFrames[index], fallback, user)
  {
    match persona
    case None => fallback
    case Some(p) =>
      var f := FallbackFrames(p.personaType)[index];
      FillKeepsBoth(f, fallback, user);
      Fill(f, fallback, user)
  }

  /** A filled template contains both of the texts put into it. */
  lemma FillKeepsBoth(f: Frame, fallback: string, user: string)
    ensures Contains(Fill(f, fallback, user), fallback)
    ensures Contains(Fill(f, fallback, user), Quote(user))
  {
    var s := Fill(f, fallback, user);
    assert s == f.before + fallback + (f.between + Quote(user) + f.after);
    ContainsMiddle(f.before, fallback, f.between + Quote(user) + f.after);
    assert s == (f.before + fallback + f.between) + Quote(user) + f.after;
    ContainsMiddle(f.before + fallback + f.between, Quote(user), f.after);
  }

  /** The number of messages from `s`. */
  function CountSender(ms: seq<Message>, s: Sender): (n: nat)
    ensures n <= |ms|
  {
    if ms == [] then 0 else (if ms[0].sender == s then 1 else 0) + CountSender(ms[1..], s)
  }

  /** Every message is either the user's or the AI's. */
  lemma {:induction false} SendersPartition(ms: seq<Message>)
    ensures CountSender(ms, User) + CountSender(ms, Ai) == |ms|
  {
    if ms != [] {
      SendersPartition(ms[1..]);
    }
  }

  /** `calculateChatDuration`, as whole minutes, or hours and minutes once
      the conversation spans an hour. */
  datatype Duration = Minutes(minutes: int) | HoursMinutes(hours: int, minutes: int)

  /** `Math.floor((last - first) / 60000)`: Dafny's division by a positive
      number rounds down, as `Math.floor` does. */
  function ElapsedMinutes(first: int, last: int): (r: int)
    ensures r * 60000 <= last - first < (r + 1) * 60000
    ensures first <= last ==> r >= 0
  {
    (last - first) / 60000
  }

  /** The duration between the first and the last message: zero minutes for
      fewer than two; below an hour the minutes; otherwise hours and the
      remaining minutes, which add up to the elapsed minutes. */
  function ChatDuration(ms: seq<Message>): (d: Duration)
    ensures |ms| < 2 ==> d == Minutes(0)
    ensures |ms| >= 2 ==>
      var total := ElapsedMinutes(ms[0].timestamp, ms[|ms| - 1].timestamp);
      && (d.Minutes? <==> total < 60)
      && (d.Minutes? ==> d.minutes == total)
      && (d.HoursMinutes? ==> d.hours >= 1 && 0 <= d.minutes < 60 && d.hours * 60 + d.minutes == total)
  {
    if |ms| < 2 then Minutes(0)
    else
      var total := ElapsedMinutes(ms[0].timestamp, ms[|ms| - 1].timestamp);
      if total < 60 then Minutes(total) else HoursMinutes(total / 60, total % 60)
  }

  /** What `getConversationSummary` reports. */
  datatype Summary =
    | NoConversation
    | Summary(persona: string, messageCount: nat, userMessages: nat, aiMessages: nat,
              firstMessageTime: int, lastMessageTime: int, duration: Duration)

  /** The summary of the session: nothing without a persona or a message;
      otherwise the counts, which add up to the number of messages, the first
      and last times and the duration. */
  function ConversationSummary(persona: Option<Personas.Persona>, ms: seq<Message>): (s: Summary)
    ensures s.NoConversation? <==> persona.None? || ms == []
    ensures s.Summary? ==>
      && s.persona == persona.value.name
      && s.messageCount == |ms|
      && s.userMessages == CountSender(ms, User)
      && s.aiMessages == CountSender(ms, Ai)
      && s.userMessages + s.aiMessages == s.messageCount
      && s.firstMessageTime == ms[0].timestamp
      && s.lastMessageTime == ms[|ms| - 1].timestamp
      && s.duration == ChatDuration(ms)
  {
    if persona.None? || ms == [] then NoConversation
    else
      SendersPartition(ms);
      Summary(persona.value.name, |ms|, CountSender(ms, User), CountSender(ms, Ai),
              ms[0].timestamp, ms[|ms| - 1].timestamp, ChatDuration(ms))
  }

  /** The session as the source keeps it in memory: `shared` says that
      `messages` is the very array stored under the current persona's id,
      which `loadChatForCurrentPersona` sets up whenever that id has a
      stored history. */
  datatype SharedSession = SharedSession(messages: seq<Message>, history: map<string, seq<Message>>, shared: bool)

  /** The sharing every step keeps: a shared list is the stored one. */
  predicate SharingHolds(s: SharedSession, id: string)
  {
    s.shared ==> id in s.history && s.history[id] == s.messages
  }

  /** `loadChatForCurrentPersona` as written: the session list becomes the
      stored array itself when there is one. */
  function LoadAsWritten(history: map<string, seq<Message>>, id: string): (s: SharedSession)
    ensures SharingHolds(s, id)
    ensures s.history == history
    ensures s.shared <==> id in history
    ensures s.messages == if id in history then history[id] else []
  {
    if id in history then SharedSession(history[id], history, true)
    else SharedSession([], history, false)
  }

  /** `addMessage` as written, for the session of persona `id`. A push onto
      a shared array shows in both names; the cut to a hundred makes a new
      array and ends the sharing. */
  function AddAsWritten(s: SharedSession, id: string, m: Message, save: bool): (r: SharedSession)
    requires SharingHolds(s, id)
    ensures SharingHolds(r, id)
    ensures !s.shared ==> r.messages == s.messages + [m]
    ensures s.shared ==> r.messages == s.messages + (if save then [m, m] else [m])
  {
    if !save then
      if s.shared then SharedSession(s.messages + [m], s.history[id := s.messages + [m]], true)
      else s.(messages := s.messages + [m])
    else
      var stored := (if id in s.history then s.history[id] else []) + [m];
      if |stored| > HistoryCap then
        var cut := stored[|stored| - HistoryCap..];
        SharedSession((if s.shared then stored else s.messages) + [m], s.history[id := cut], false)
      else if s.shared then
        SharedSession(stored + [m], s.history[id := stored + [m]], true)
      else
        SharedSession(s.messages + [m], s.history[id := stored], false)
  }

  /** As written, saving one message to a persona whose history was loaded
      stores it twice, and a history of 99 grows to 101, past the cap. */
  lemma SharedSaveStoresTwice(history: map<string, seq<Message>>, id: string, m: Message)
    requires id in history && |history[id]| < HistoryCap
    ensures AddAsWritten(LoadAsWritten(history, id), id, m, true).history[id] == history[id] + [m, m]
    ensures |history[id]| == HistoryCap - 1 ==>
      |AddAsWritten(LoadAsWritten(history, id), id, m, true).history[id]| == HistoryCap + 1
  {
  }

  /** As written, the unsaved welcome message still lands in a loaded
      persona's history. */
  lemma SharedWelcomeIsStored(history: map<string, seq<Message>>, id: string, w: Message)
    requires id in history
    ensures AddAsWritten(LoadAsWritten(history, id), id, w, false).history[id] == history[id] + [w]
  {
  }

  /** One concrete case: a stored history `[m0]`, one saved message `hi`. As
      written the history becomes `[m0, hi, hi]`; saving once, as intended,
      gives `[m0, hi]`. */
  lemma SharedHistoryExample()
    ensures var m0 := Message("earlier", User, 0);
      var hi := Message("hi", User, 1);
      && AddAsWritten(LoadAsWritten(map["p" := [m0]], "p"), "p", hi, true).history["p"] == [m0, hi, hi]
      && SaveToHistory(map["p" := [m0]], "p", hi)["p"] == [m0, hi]
  {
    var m0 := Message("earlier", User, 0);
    var hi := Message("hi", User, 1);
    SharedSaveStoresTwice(map["p" := [m0]], "p", hi);
  }

  /** The reasons `sendMessage` returns before doing anything, in the order
      it checks them. */
  datatype Rejection = EmptyMessage | NoPersona | NoApiKey | Busy

  /** The guards of `sendMessage`, checked in this order: an empty trimmed
      text, no selected persona, no API key, a reply still awaited. A send
      goes ahead exactly when none of them applies. */
  function Refusal(text: string, persona: Option<Personas.Persona>, apiKey: string, busy: bool): (r: Option<Rejection>)
    ensures text == [] ==> r == Some(EmptyMessage)
    ensures text != [] && persona.None? ==> r == Some(NoPersona)
    ensures text != [] && persona.Some? && apiKey == "" ==> r == Some(NoApiKey)
    ensures text != [] && persona.Some? && apiKey != "" && busy ==> r == Some(Busy)
    ensures r.None? <==> text != [] && persona.Some? && apiKey != "" && !busy
  {
    if text == [] then Some(EmptyMessage)
    else if persona.None? then Some(NoPersona)
    else if apiKey == "" then Some(NoApiKey)
    else if busy then Some(Busy)
    else None
  }

  /** The synchronous part of `sendMessage`: refused, or the user's text was
      logged and this request went out. */
  datatype SendStart = Rejected(reason: Rejection) | Started(text: string, request: Request)

  /** What `clearChat` did. */
  datatype ClearOutcome = NoPersonaSelected | AlreadyEmpty | Declined | Cleared

  /** The chat of the selected persona. The session list and the stored
      histories are separate values here (see `AddAsWritten` for the
      sharing the source sets up). */
  class ChatManager {
    var messages: seq<Message>
    var messageHistory: map<string, seq<Message>>
    var currentPersona: Option<Personas.Persona>
    var isTyping: bool
    /** The registry whose counter a successful reply increments. */
    const registry: Personas.PersonaManager
    /** The configuration the API key, model and endpoint come from. */
    const config: Config.WaifuConfig

    /** A request is only ever in flight for a selected persona. */
    ghost predicate Valid()
      reads this
    {
      isTyping ==> currentPersona.Some?
    }

    /** A new manager: the stored histories, no persona (even when the
        registry restored one), nothing in flight. */
    constructor(registry: Personas.PersonaManager, config: Config.WaifuConfig,
                savedHistory: map<string, seq<Message>>)
      ensures Valid()
      ensures messages == [] && messageHistory == savedHistory
      ensures currentPersona.None? && !isTyping
      ensures this.registry == registry && this.config == config
    {
      messages := [];
      messageHistory := savedHistory;
      currentPersona := None;
      isTyping := false;
      this.registry := registry;
      this.config := config;
    }

    /** `addMessage`: the message always joins the session list; it is saved
        to the current persona's history, capped at a hundred, only when
        saving was asked for and a persona is selected. */
    method AddMessage(content: string, sender: Sender, save: bool, now: int)
      requires Valid()
      modifies this
      ensures Valid()
      ensures messages == old(messages) + [Message(content, sender, now)]
      ensures save && currentPersona.Some? ==>
        messageHistory == SaveToHistory(old(messageHistory), currentPersona.value.id, Message(content, sender, now))
      ensures !(save && currentPersona.Some?) ==> messageHistory == old(messageHistory)
      ensures currentPersona == old(currentPersona) && isTyping == old(isTyping)
    {
      var m := Message(content, sender, now);
      if save && currentPersona.Some? {
        messageHistory := SaveToHistory(messageHistory, currentPersona.value.id, m);
      }
      messages := messages + [m];
    }

    /** `onPersonaChange`: the session switches to the persona's stored
        history (empty when it has none). Returns the greeting, picked by
        `welcomeIndex`, that is added unsaved half a second later. */
    method OnPersonaChange(p: Personas.Persona, welcomeIndex: nat) returns (welcome: string)
      requires Valid()
      requires welcomeIndex < |WelcomeMessages(p.personaType)|
      modifies this
      ensures Valid()
      ensures currentPersona == Some(p)
      ensures messages == if p.id in messageHistory then messageHistory[p.id] else []
      ensures messageHistory == old(messageHistory) && isTyping == old(isTyping)
      ensures welcome in WelcomeMessages(p.personaType)
      ensures welcome == WelcomeMessages(p.personaType)[welcomeIndex]
    {
      currentPersona := Some(p);
      messages := if p.id in messageHistory then messageHistory[p.id] else [];
      welcome := WelcomeMessages(p.personaType)[welcomeIndex];
    }

    /** `sendMessage` up to the fetch. A refusal by one of the guards
        changes nothing; otherwise the trimmed text is logged and saved as
        the user's, the request is built from the session as it now is, and
        the manager is busy until `FinishSend`. */
    method BeginSend(input: string, now: int) returns (start: SendStart)
      requires Valid()
      modifies this
      ensures Valid()
      ensures var refusal := Refusal(Trim(input), old(currentPersona), old(config.apiKey), old(isTyping));
        && (refusal.Some? ==> start == Rejected(refusal.value) && unchanged(this))
        && (refusal.None? ==> start.Started?)
      ensures start.Started? ==>
        && start.text == Trim(input)
        && isTyping
        && currentPersona == old(currentPersona)
        && messages == old(messages) + [Message(start.text, User, now)]
        && messageHistory == SaveToHistory(old(messageHistory), currentPersona.value.id, Message(start.text, User, now))
        && start.request == BuildRequest(config.Current(), currentPersona, messages, start.text)
    {
      var text := Trim(input);
      var refusal := Refusal(text, currentPersona, config.apiKey, isTyping);
      if refusal.Some? {
        return Rejected(refusal.value);
      }
      Accept(text, now);
      start := Started(text, BuildRequest(config.Current(), currentPersona, messages, text));
    }

    /** The accepted part of `BeginSend`: log and save the user's text and
        mark the manager busy. */
    method Accept(text: string, now: int)
      requires currentPersona.Some?
      modifies this
      ensures Valid() && isTyping
      ensures currentPersona == old(currentPersona)
      ensures messages == old(messages) + [Message(text, User, now)]
      ensures messageHistory == SaveToHistory(old(messageHistory), currentPersona.value.id, Message(text, User, now))
    {
      AddMessage(text, User, true, now);
      isTyping := true;
    }

    /** `sendMessage` after the fetch settled with `reply`. The manager is no
        longer busy. With a reply text, that text is logged and saved for the
        persona selected NOW, and that persona's counter goes up by one;
        otherwise the fallback picked by `fallbackIndex`, dressed up for the
        persona with template `frameIndex`, is logged and saved, and no
        counter changes. */
    method FinishSend(text: string, reply: Reply, fallbackIndex: nat, frameIndex: nat, now: int)
      returns (answered: bool)
      requires Valid() && registry.Valid()
      requires isTyping
      requires fallbackIndex < |Config.FallbackResponses| && frameIndex < 3
      modifies this, registry
      ensures Valid() && registry.Valid()
      ensures !isTyping && currentPersona == old(currentPersona)
      ensures answered <==> ReplyContent(reply).Some?
      ensures answered ==>
        && messages == old(messages) + [Message(ReplyContent(reply).value, Ai, now)]
        && messageHistory == SaveToHistory(old(messageHistory), currentPersona.value.id, Message(ReplyContent(reply).value, Ai, now))
      ensures !answered ==>
        var shown := PersonalizeFallback(currentPersona, Config.GetRandomFallback(fallbackIndex), text, frameIndex);
        && messages == old(messages) + [Message(shown, Ai, now)]
        && messageHistory == SaveToHistory(old(messageHistory), currentPersona.value.id, Message(shown, Ai, now))
      ensures answered && currentPersona.value.id in old(registry.personas) ==>
        registry.personas == Personas.CountedOnce(old(registry.personas), currentPersona.value.id)
      ensures answered && currentPersona.value.id !in old(registry.personas) ==>
        registry.personas == old(registry.personas)
      ensures registry.currentPersonaId == old(registry.currentPersonaId)
      ensures !answered ==> unchanged(registry) && registry.personas == old(registry.personas)
    {
      isTyping := false;
      var content := ReplyContent(reply);
      if content.Some? {
        AddAnswer(content.value, now);
        answered := true;
      } else {
        AddFallback(text, fallbackIndex, frameIndex, now);
        answered := false;
      }
    }

    /** The success path of `sendMessage`: the reply text is logged and
        saved, and the current persona's counter goes up by one. */
    method AddAnswer(content: string, now: int)
      requires Valid() && registry.Valid() && currentPersona.Some?
      modifies this, registry
      ensures Valid() && registry.Valid()
      ensures currentPersona == old(currentPersona) && isTyping == old(isTyping)
      ensures messages == old(messages) + [Message(content, Ai, now)]
      ensures messageHistory == SaveToHistory(old(messageHistory), currentPersona.value.id, Message(content, Ai, now))
      ensures currentPersona.value.id in old(registry.personas) ==>
        registry.personas == Personas.CountedOnce(old(registry.personas), currentPersona.value.id)
      ensures currentPersona.value.id !in old(registry.personas) ==> registry.personas == old(registry.personas)
      ensures registry.currentPersonaId == old(registry.currentPersonaId)
    {
      AddMessage(content, Ai, true, now);
      registry.IncrementMessageCount(currentPersona.value.id);
    }

    /** The failure path of `sendMessage`: the fallback sentence picked by
        `fallbackIndex`, dressed up for the current persona with template
        `frameIndex`, is logged and saved. */
    method AddFallback(text: string, fallbackIndex: nat, frameIndex: nat, now: int)
      requires Valid() && currentPersona.Some?
      requires fallbackIndex < |Config.FallbackResponses| && frameIndex < 3
      modifies this
      ensures Valid()
      ensures currentPersona == old(currentPersona) && isTyping == old(isTyping)
      ensures var shown := PersonalizeFallback(currentPersona, Config.GetRandomFallback(fallbackIndex), text, frameIndex);
        && messages == old(messages) + [Message(shown, Ai, now)]
        && messageHistory == SaveToHistory(old(messageHistory), currentPersona.value.id, Message(shown, Ai, now))
    {
      var shown := PersonalizeFallback(currentPersona, Config.GetRandomFallback(fallbackIndex), text, frameIndex);
      AddMessage(shown, Ai, true, now);
    }

    /** `clearChat`: refused without a persona or without messages, and
        when the user declines; otherwise the session list empties and only
        the current persona's stored history is dropped. */
    method ClearChat(confirmed: bool) returns (outcome: ClearOutcome)
      requires Valid()
      modifies this
      ensures Valid()
      ensures old(currentPersona).None? ==> outcome == NoPersonaSelected
      ensures old(currentPersona).Some? && old(messages) == [] ==> outcome == AlreadyEmpty
      ensures old(currentPersona).Some? && old(messages) != [] && !confirmed ==> outcome == Declined
      ensures old(currentPersona).Some? && old(messages) != [] && confirmed ==> outcome == Cleared
      ensures outcome != Cleared ==> unchanged(this)
      ensures outcome == Cleared ==>
        && currentPersona == old(currentPersona) && currentPersona.Some?
        && messages == []
        && messageHistory == old(messageHistory) - {currentPersona.value.id}
        && isTyping == old(isTyping)
    {
      if currentPersona.None? {
        return NoPersonaSelected;
      }
      if messages == [] {
        return AlreadyEmpty;
      }
      if !confirmed {
        return Declined;
      }
      messages := [];
      messageHistory := messageHistory - {currentPersona.value.id};
      outcome := Cleared;
    }
  }
}
