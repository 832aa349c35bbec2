/** The persona registry (`PersonaManager`): persona records by id, the
    current selection, and the store entry that remembers it. */
module Personas {
  import opened Base
  import Config

  /** One persona record, as kept under its id. Times are milliseconds. */
  datatype Persona = Persona(
    id: string,
    name: string,
    personaType: string,
    systemPrompt: string,
    skills: seq<string>,
    avatar: string,
    createdAt: int,
    lastUsed: int,
    messageCount: nat)

  /** The fields a new persona is made from: the form's, or a default's. */
  datatype PersonaFields = PersonaFields(name: string, personaType: string, systemPrompt: string, skills: seq<string>)

  const MikuChan := PersonaFields(
    "Miku-chan",
    "tsundere",
    "You are Miku-chan, a tsundere coder who acts tough but secretly cares "
      + "about helping with programming. You often say things like \"It's not "
      + "like I wanted to help you or anything, b-baka!\" but you always provide "
      + "excellent code and debugging help. You're knowledgeable in JavaScript, "
      + "Python, and web development.",
    ["JavaScript", "Python", "CSS", "Debugging"])

  const AriaSama := PersonaFields(
    "Aria-sama",
    "kuudere",
    "You are Aria-sama, a cool and composed kuudere programmer. You speak in "
      + "a calm, professional manner but occasionally show hints of caring. "
      + "You're an expert in system architecture and clean code principles. You "
      + "prefer efficiency and elegance in all solutions.",
    ["System Design", "JavaScript", "Database", "Architecture"])

  const YukiSan := PersonaFields(
    "Yuki-san",
    "dandere",
    "You are Yuki-san, a shy but incredibly skilled dandere programmer. You "
      + "speak softly and often hesitate, but your code suggestions are always "
      + "thoughtful and well-crafted. You love helping with algorithms and "
      + "problem-solving in a gentle way.",
    ["Algorithms", "Math", "Python", "Problem Solving"])

  const SakuraChan := PersonaFields(
    "Sakura-chan",
    "genki",
    "You are Sakura-chan, an energetic and enthusiastic genki programmer! "
      + "You're always excited about coding and use lots of exclamation marks "
      + "and cheerful expressions. You love teaching others and making "
      + "programming fun and accessible.",
    ["Frontend", "React", "UI/UX", "Teaching"])

  /** The four personas `createDefaultPersona` picks from. */
  const DefaultPersonas: seq<PersonaFields> := [MikuChan, AriaSama, YukiSan, SakuraChan]

  /** Every default persona has a name, a type and a prompt. */
  lemma DefaultsComplete(i: nat)
    requires i < |DefaultPersonas|
    ensures var d := DefaultPersonas[i]; !MissingField(d.name, d.personaType, d.systemPrompt)
  {
    if i == 0 {
      assert DefaultPersonas[i] == MikuChan;
    } else if i == 1 {
      assert DefaultPersonas[i] == AriaSama;
    } else if i == 2 {
      assert DefaultPersonas[i] == YukiSan;
    } else {
      assert DefaultPersonas[i] == SakuraChan;
    }
  }

  /** The form check of `createPersona`: the trimmed name, the type or the
      trimmed prompt is empty. */
  predicate MissingField(name: string, personaType: string, prompt: string)
  {
    name == "" || personaType == "" || prompt == ""
  }

  /** The fields a creation request ends up with: the trimmed form fields
      when none is blank, otherwise the default persona drawn by
      `defaultIndex` (the `Math.random` pick). Either way no required field of
      the result is empty. */
  function ResolveFields(rawName: string, personaType: string, rawPrompt: string, skills: seq<string>,
                         defaultIndex: nat): (f: PersonaFields)
    requires defaultIndex < |DefaultPersonas|
    ensures MissingField(Trim(rawName), personaType, Trim(rawPrompt)) ==> f in DefaultPersonas
    ensures !MissingField(Trim(rawName), personaType, Trim(rawPrompt)) ==>
      f == PersonaFields(Trim(rawName), personaType, Trim(rawPrompt), skills)
    ensures !MissingField(f.name, f.personaType, f.systemPrompt)
  {
    var name := Trim(rawName);
    var prompt := Trim(rawPrompt);
    if MissingField(name, personaType, prompt) then
      DefaultsComplete(defaultIndex);
      DefaultPersonas[defaultIndex]
    else PersonaFields(name, personaType, prompt, skills)
  }

  const TsundereAvatar :=
    "data:image/svg+xml;base64,PHN2ZyB3aWR0aD0iMTAwIiBoZWlnaHQ9IjEwMCIgdmlld0"
    + "JveD0iMCAwIDEwMCAxMDAiIGZpbGw9Im5vbmUiIHhtbG5zPSJodHRwOi8vd3d3LnczLm9yZy"
    + "8yMDAwL3N2ZyI+CjxyZWN0IHdpZHRoPSIxMDAiIGhlaWdodD0iMTAwIiByeD0iNTAiIGZpbG"
    + "w9IiNmZjZiOWQiLz4KPHN2ZyB4PSIyNSIgeT0iMjUiIHdpZHRoPSI1MCIgaGVpZ2h0PSI1MC"
    + "Igdmlld0JveD0iMCAwIDI0IDI0IiBmaWxsPSJ3aGl0ZSI+CjxwYXRoIGQ9Ik0xMiAyQzEzLj"
    + "EgMiAxNCAyLjkgMTQgNEMxNCA1LjEgMTMuMSA2IDEyIDZDMTAuOSA2IDEwIDUuMSAxMCA0Qz"
    + "EwIDIuOSAxMC45IDIgMTIgMlpNMjEgOVYyMkgxOVYxNkgxNlYyMkgxNFYxM0gxMFYyMkg4Vj"
    + "E2SDVWMjJIM1Y5SDIxWiIvPgo8L3N2Zz4KPC9zdmc+"

  const KuudereAvatar :=
    "data:image/svg+xml;base64,PHN2ZyB3aWR0aD0iMTAwIiBoZWlnaHQ9IjEwMCIgdmlld0"
    + "JveD0iMCAwIDEwMCAxMDAiIGZpbGw9Im5vbmUiIHhtbG5zPSJodHRwOi8vd3d3LnczLm9yZy"
    + "8yMDAwL3N2ZyI+CjxyZWN0IHdpZHRoPSIxMDAiIGhlaWdodD0iMTAwIiByeD0iNTAiIGZpbG"
    + "w9IiMwMGQ0ZmYiLz4KPHN2ZyB4PSIyNSIgeT0iMjUiIHdpZHRoPSI1MCIgaGVpZ2h0PSI1MC"
    + "Igdmlld0JveD0iMCAwIDI0IDI0IiBmaWxsPSJ3aGl0ZSI+CjxwYXRoIGQ9Ik0xMiAyQzEzLj"
    + "EgMiAxNCAyLjkgMTQgNEMxNCA1LjEgMTMuMSA2IDEyIDZDMTAuOSA2IDEwIDUuMSAxMCA0Qz"
    + "EwIDIuOSAxMC45IDIgMTIgMlpNMjEgOVYyMkgxOVYxNkgxNlYyMkgxNFYxM0gxMFYyMkg4Vj"
    + "E2SDVWMjJIM1Y5SDIxWiIvPgo8L3N2Zz4KPC9zdmc+"

  const DandereAvatar :=
    "data:image/svg+xml;base64,PHN2ZyB3aWR0aD0iMTAwIiBoZWlnaHQ9IjEwMCIgdmlld0"
    + "JveD0iMCAwIDEwMCAxMDAiIGZpbGw9Im5vbmUiIHhtbG5zPSJodHRwOi8vd3d3LnczLm9yZy"
    + "8yMDAwL3N2ZyI+CjxyZWN0IHdpZHRoPSIxMDAiIGhlaWdodD0iMTAwIiByeD0iNTAiIGZpbG"
    + "w9IiNjNzdkZmYiLz4KPHN2ZyB4PSIyNSIgeT0iMjUiIHdpZHRoPSI1MCIgaGVpZ2h0PSI1MC"
    + "Igdmlld0JveD0iMCAwIDI0IDI0IiBmaWxsPSJ3aGl0ZSI+CjxwYXRoIGQ9Ik0xMiAyQzEzLj"
    + "EgMiAxNCAyLjkgMTQgNEMxNCA1LjEgMTMuMSA2IDEyIDZDMTAuOSA2IDEwIDUuMSAxMCA0Qz"
    + "EwIDIuOSAxMC45IDIgMTIgMlpNMjEgOVYyMkgxOVYxNkgxNlYyMkgxNFYxM0gxMFYyMkg4Vj"
    + "E2SDVWMjJIM1Y5SDIxWiIvPgo8L3N2Zz4KPC9zdmc+"

  const YandereAvatar :=
    "data:image/svg+xml;base64,PHN2ZyB3aWR0aD0iMTAwIiBoZWlnaHQ9IjEwMCIgdmlld0"
    + "JveD0iMCAwIDEwMCAxMDAiIGZpbGw9Im5vbmUiIHhtbG5zPSJodHRwOi8vd3d3LnczLm9yZy"
    + "8yMDAwL3N2ZyI+CjxyZWN0IHdpZHRoPSIxMDAiIGhlaWdodD0iMTAwIiByeD0iNTAiIGZpbG"
    + "w9IiNmZjQ3NTciLz4KPHN2ZyB4PSIyNSIgeT0iMjUiIHdpZHRoPSI1MCIgaGVpZ2h0PSI1MC"
    + "Igdmlld0JveD0iMCAwIDI0IDI0IiBmaWxsPSJ3aGl0ZSI+CjxwYXRoIGQ9Ik0xMiAyQzEzLj"
    + "EgMiAxNCAyLjkgMTQgNEMxNCA1LjEgMTMuMSA2IDEyIDZDMTAuOSA2IDEwIDUuMSAxMCA0Qz"
    + "EwIDIuOSAxMC45IDIgMTIgMlpNMjEgOVYyMkgxOVYxNkgxNlYyMkgxNFYxM0gxMFYyMkg4Vj"
    + "E2SDVWMjJIM1Y5SDIxWiIvPgo8L3N2Zz4KPC9zdmc+"

  const GenkiAvatar :=
    "data:image/svg+xml;base64,PHN2ZyB3aWR0aD0iMTAwIiBoZWlnaHQ9IjEwMCIgdmlld0"
    + "JveD0iMCAwIDEwMCAxMDAiIGZpbGw9Im5vbmUiIHhtbG5zPSJodHRwOi8vd3d3LnczLm9yZy"
    + "8yMDAwL3N2ZyI+CjxyZWN0IHdpZHRoPSIxMDAiIGhlaWdodD0iMTAwIiByeD0iNTAiIGZpbG"
    + "w9IiMwMGZmODgiLz4KPHN2ZyB4PSIyNSIgeT0iMjUiIHdpZHRoPSI1MCIgaGVpZ2h0PSI1MC"
    + "Igdmlld0JveD0iMCAwIDI0IDI0IiBmaWxsPSJ3aGl0ZSI+CjxwYXRoIGQ9Ik0xMiAyQzEzLj"
    + "EgMiAxNCAyLjkgMTQgNEMxNCA1LjEgMTMuMSA2IDEyIDZDMTAuOSA2IDEwIDUuMSAxMCA0Qz"
    + "EwIDIuOSAxMC45IDIgMTIgMlpNMjEgOVYyMkgxOVYxNkgxNlYyMkgxNFYxM0gxMFYyMkg4Vj"
    + "E2SDVWMjJIM1Y5SDIxWiIvPgo8L3N2Zz4KPC9zdmc+"

  /** `defaultAvatars[t]` as an own-property lookup. */
  function AvatarEntry(t: string): (r: Option<string>)
    ensures r.Some? <==> t in Config.PersonaTypeNames
  {
    if t == "tsundere" then Some(TsundereAvatar)
    else if t == "kuudere" then Some(KuudereAvatar)
    else if t == "dandere" then Some(DandereAvatar)
    else if t == "yandere" then Some(YandereAvatar)
    else if t == "genki" then Some(GenkiAvatar)
    else None
  }

  /** The avatar of a built-in type; every other type gets the tsundere one. */
  function GetDefaultAvatar(t: string): (r: string)
    ensures t in Config.PersonaTypeNames ==> Some(r) == AvatarEntry(t)
    ensures t !in Config.PersonaTypeNames ==> r == TsundereAvatar
  {
    match AvatarEntry(t)
    case Some(a) => a
    case None => TsundereAvatar
  }

  /** The record `savePersonaData` stores: the picture read from the chosen
      file when there is one, otherwise the type's default avatar; created and
      last used now; no messages yet. */
  function NewPersona(id: string, f: PersonaFields, avatar: Option<string>, now: int): (r: Persona)
    ensures r.id == id && PersonaFields(r.name, r.personaType, r.systemPrompt, r.skills) == f
    ensures r.createdAt == now && r.lastUsed == now && r.messageCount == 0
    ensures avatar.Some? && avatar.value != "" ==> r.avatar == avatar.value
    ensures avatar.None? || avatar.value == "" ==> r.avatar == GetDefaultAvatar(f.personaType)
  {
    Persona(id, f.name, f.personaType, f.systemPrompt, f.skills,
            if avatar.Some? && avatar.value != "" then avatar.value else GetDefaultAvatar(f.personaType),
            now, now, 0)
  }

  /** `personas[id].messageCount++` on a map value. */
  function CountedOnce(personas: map<string, Persona>, id: string): map<string, Persona>
    requires id in personas
  {
    personas[id := personas[id].(messageCount := personas[id].messageCount + 1)]
  }

  /** The registry. `currentPersona` is the same object as the record under
      `currentPersonaId`, so an update of that record shows in both; here the
      field is kept equal to the map entry by every method. */
  class PersonaManager {
    var personas: map<string, Persona>
    var currentPersona: Option<Persona>
    var currentPersonaId: Option<string>
    /** The store's `current_persona_id` entry. */
    var storedPersonaId: Option<string>

    ghost predicate Valid()
      reads this
    {
      currentPersona.Some? ==>
        && currentPersonaId.Some?
        && currentPersonaId.value in personas
        && personas[currentPersonaId.value] == currentPersona.value
    }

    /** Restores the saved records and the stored id; the current persona is
        restored only when that id is non-empty and a key of the records. */
    constructor(saved: map<string, Persona>, storedId: Option<string>)
      ensures Valid()
      ensures personas == saved && currentPersonaId == storedId && storedPersonaId == storedId
      ensures currentPersona.Some? <==> storedId.Some? && storedId.value != "" && storedId.value in saved
      ensures currentPersona.Some? ==> currentPersona.value == saved[storedId.value]
    {
      personas := saved;
      currentPersona := None;
      currentPersonaId := storedId;
      storedPersonaId := storedId;
      if storedId.Some? && storedId.value != "" && storedId.value in saved {
        currentPersona := Some(saved[storedId.value]);
      }
    }

    /** Selects a known persona and refreshes its `lastUsed`; an unknown id
        changes nothing. Returns the selected record, which the source then
        announces to the chat (`notifyPersonaChange`). */
    method SelectPersona(id: string, now: int) returns (selected: Option<Persona>)
      requires Valid()
      modifies this
      ensures Valid()
      ensures id !in old(personas) ==> selected.None? && unchanged(this)
      ensures id in old(personas) ==>
        && personas == old(personas)[id := old(personas)[id].(lastUsed := now)]
        && currentPersonaId == Some(id)
        && storedPersonaId == Some(id)
        && currentPersona == Some(personas[id])
        && selected == currentPersona
    {
      if id !in personas {
        return None;
      }
      var persona := personas[id].(lastUsed := now);
      personas := personas[id := persona];
      currentPersona := Some(persona);
      currentPersonaId := Some(id);
      storedPersonaId := Some(id);
      selected := Some(persona);
    }

    /** Stores a new record under the freshly generated `id` and selects it:
        exactly one entry is added, the others stay as they were, and the new
        persona has no messages. */
    method SavePersonaData(id: string, f: PersonaFields, avatar: Option<string>, now: int) returns (created: Persona)
      requires Valid()
      requires id !in personas
      modifies this
      ensures Valid()
      ensures created == NewPersona(id, f, avatar, now)
      ensures personas == old(personas)[id := created]
      ensures |personas| == |old(personas)| + 1
      ensures forall k :: k in old(personas) ==> k in personas && personas[k] == old(personas)[k]
      ensures personas[id].messageCount == 0
      ensures currentPersonaId == Some(id) && storedPersonaId == Some(id)
      ensures currentPersona == Some(created)
    {
      created := NewPersona(id, f, avatar, now);
      assert created.(lastUsed := now) == created;
      personas := personas[id := created];
      var selected := SelectPersona(id, now);
    }

    /** `createPersona`: stores the form's persona, or a default one (without
        the chosen picture) when a required field is blank. `avatar` is what
        reading the chosen file produced (`None` without a file or when the
        read failed); `id` is the freshly generated id (`generateId`). */
    method CreatePersona(rawName: string, personaType: string, rawPrompt: string, skills: seq<string>,
                         avatar: Option<string>, id: string, now: int, defaultIndex: nat)
      returns (created: Persona)
      requires Valid()
      requires id !in personas
      requires defaultIndex < |DefaultPersonas|
      modifies this
      ensures Valid()
      ensures var missing := MissingField(Trim(rawName), personaType, Trim(rawPrompt));
        created == NewPersona(id, ResolveFields(rawName, personaType, rawPrompt, skills, defaultIndex),
                              if missing then None else avatar, now)
      ensures !MissingField(created.name, created.personaType, created.systemPrompt)
      ensures personas == old(personas)[id := created]
      ensures currentPersonaId == Some(id) && currentPersona == Some(created)
    {
      var f := ResolveFields(rawName, personaType, rawPrompt, skills, defaultIndex);
      if MissingField(Trim(rawName), personaType, Trim(rawPrompt)) {
        created := SavePersonaData(id, f, None, now);
      } else {
        created := SavePersonaData(id, f, avatar, now);
      }
    }

    /** Deletes a known persona once the user confirms. Only that key goes;
        the selection is cleared exactly when it was the deleted id. The
        chat's own copy of the persona and its message history are not
        touched. */
    method DeletePersona(id: string, confirmed: bool) returns (deleted: bool)
      requires Valid()
      modifies this
      ensures Valid()
      ensures deleted <==> id in old(personas) && confirmed
      ensures !deleted ==> unchanged(this)
      ensures deleted ==> personas == old(personas) - {id} && |personas| == |old(personas)| - 1
      ensures deleted && old(currentPersonaId) == Some(id) ==>
        currentPersona.None? && currentPersonaId.None? && storedPersonaId.None?
      ensures deleted && old(currentPersonaId) != Some(id) ==>
        && currentPersona == old(currentPersona)
        && currentPersonaId == old(currentPersonaId)
        && storedPersonaId == old(storedPersonaId)
    {
      if id !in personas || !confirmed {
        return false;
      }
      personas := personas - {id};
      if currentPersonaId == Some(id) {
        currentPersona := None;
        currentPersonaId := None;
        storedPersonaId := None;
      }
      deleted := true;
    }

    /** Adds one to a known persona's message count; an unknown id changes
        nothing. Nothing else changes, apart from the current persona, which
        is the same record. */
    method IncrementMessageCount(id: string)
      requires Valid()
      modifies this
      ensures Valid()
      ensures id in old(personas) ==> personas == CountedOnce(old(personas), id)
      ensures id !in old(personas) ==> personas == old(personas)
      ensures currentPersonaId == old(currentPersonaId) && storedPersonaId == old(storedPersonaId)
      ensures old(currentPersonaId) == Some(id) && old(currentPersona).Some? ==> currentPersona == Some(personas[id])
      ensures !(old(currentPersonaId) == Some(id) && old(currentPersona).Some?) ==> currentPersona == old(currentPersona)
    {
      if id in personas {
        personas := CountedOnce(personas, id);
        if currentPersonaId == Some(id) && currentPersona.Some? {
          currentPersona := Some(personas[id]);
        }
      }
    }
  }

  /** The display order: most recently used first. */
  predicate NewestFirst(ps: seq<Persona>)
  {
    forall i, j :: 0 <= i < j < |ps| ==> ps[i].lastUsed >= ps[j].lastUsed
  }

  /** Puts `p` into a newest-first list, ahead of any records used at the
      same time. */
  function InsertNewestFirst(p: Persona, ps: seq<Persona>): (r: seq<Persona>)
    requires NewestFirst(ps)
    ensures NewestFirst(r)
    ensures multiset(r) == multiset(ps) + multiset{p}
    ensures |r| == |ps| + 1
    ensures r[0] == p || (ps != [] && r[0] == ps[0])
  {
    if ps == [] || p.lastUsed >= ps[0].lastUsed then
      [p] + ps
    else
      var rest := InsertNewestFirst(p, ps[1..]);
      InsertBehind(p, ps, rest);
      [ps[0]] + rest
  }

  /** The recursive step of `InsertNewestFirst`: when `p` goes behind the head
      of `ps`, keeping the head in front of the insertion into the tail keeps
      the order and the records. */
  lemma InsertBehind(p: Persona, ps: seq<Persona>, rest: seq<Persona>)
    requires NewestFirst(ps) && ps != [] && p.lastUsed < ps[0].lastUsed
    requires NewestFirst(rest) && multiset(rest) == multiset(ps[1..]) + multiset{p}
    requires rest != [] && (rest[0] == p || (|ps| > 1 && rest[0] == ps[1]))
    ensures NewestFirst([ps[0]] + rest)
    ensures multiset([ps[0]] + rest) == multiset(ps) + multiset{p}
  {
    NewestFirstCons(ps[0], rest);
    assert ps == [ps[0]] + ps[1..];
  }

  /** A record used no earlier than the head of a newest-first list can go
      in front of it. */
  lemma NewestFirstCons(q: Persona, rest: seq<Persona>)
    requires NewestFirst(rest)
    requires rest == [] || q.lastUsed >= rest[0].lastUsed
    ensures NewestFirst([q] + rest)
  {
    var r := [q] + rest;
    forall i, j | 0 <= i < j < |r| ensures r[i].lastUsed >= r[j].lastUsed {
      if i == 0 && j > 1 {
        assert r[1] == rest[0] && r[j] == rest[j - 1];
      }
    }
  }

  /** The sort of `renderPersonas`: the same records, most recently used first. */
  function SortNewestFirst(ps: seq<Persona>): (r: seq<Persona>)
    ensures NewestFirst(r)
    ensures multiset(r) == multiset(ps)
  {
    if ps == [] then []
    else
      assert ps == [ps[0]] + ps[1..];
      InsertNewestFirst(ps[0], SortNewestFirst(ps[1..]))
  }
}
