/** The local repository of guided-story ("saga") templates and sessions.
    Each list lives in storage under its own key, as the whole list; every
    operation reads the list, changes it and writes it back. A missing item
    reads as the empty list. Fresh ids come from a generator whose n-th id is
    `Uuid(n)`; `drawn` counts the ids handed out so far. */
module Saga {
  import opened Wrappers
  import opened Lists

  datatype FieldKind = StringField | NumberField | BooleanField

  datatype SagaField = SagaField(name: string, fieldLabel: string, visible: bool, kind: FieldKind, listName: Option<string>)

  datatype SagaTemplate = SagaTemplate(
    id: string,
    name: string,
    byline: string,
    description: string,
    display: string,
    introduction: string,
    init: string,
    loop: string,
    history: string,
    imagePrompt: string,
    imagesEnabled: bool,
    fields: seq<SagaField>,
    manual: seq<string>,
    lists: Option<map<string, seq<string>>>)

  datatype CustomFormat = CustomFormat(user: string, assistant: string)

  datatype SagaResponse = SagaResponse(input: string, response: string)

  datatype SagaSession = SagaSession(
    id: string,
    format: string,
    customFormat: Option<CustomFormat>,
    gameId: string,
    presetId: Option<string>,
    init: Option<map<string, string>>,
    overrides: map<string, string>,
    responses: seq<SagaResponse>,
    updated: string)

  function TemplateId(t: SagaTemplate): string {
    t.id
  }

  function SessionId(s: SagaSession): string {
    s.id
  }

  /** The n-th id the generator hands out. */
  function Uuid(n: nat): (id: string)
    ensures id != [] && id != "new"
  {
    "uuid-" + seq(n, _ => '1')
  }

  /** Different draws give different ids. */
  lemma UuidInjective(m: nat, n: nat)
    requires m != n
    ensures Uuid(m) != Uuid(n)
  {
    assert |Uuid(m)| == m + 5 && |Uuid(n)| == n + 5;
  }

  /** What reading a storage item yields: the stored list, or the empty list
      when nothing is stored. */
  function Stored<T>(item: Option<seq<T>>): seq<T> {
    if item.Some? then item.value else []
  }

  // ---------------------------------------------------------------------------
  // Templates

  /** A template whose missing `lists` is filled in as empty. */
  function WithLists(t: SagaTemplate): (u: SagaTemplate)
    ensures u.lists.Some? && u.(lists := t.lists) == t
    ensures t.lists.Some? ==> u == t
    ensures t.lists.None? ==> u.lists == Some(map[])
  {
    if t.lists.None? then t.(lists := Some(map[])) else t
  }

  /** The stored templates as they are read: each with `lists` present, an
      existing `lists` kept as it was, nothing else changed. */
  function Loaded(ts: seq<SagaTemplate>): (r: seq<SagaTemplate>)
    ensures |r| == |ts|
    ensures forall i :: 0 <= i < |r| ==> r[i].lists.Some?
    ensures forall i :: 0 <= i < |r| && ts[i].lists.Some? ==> r[i] == ts[i]
    ensures forall i :: 0 <= i < |r| ==> r[i].(lists := ts[i].lists) == ts[i]
  {
    seq(|ts|, i requires 0 <= i < |ts| => WithLists(ts[i]))
  }

  /** Templates that all have `lists` read back unchanged. */
  lemma LoadedFixed(ts: seq<SagaTemplate>)
    requires forall i :: 0 <= i < |ts| ==> ts[i].lists.Some?
    ensures Loaded(ts) == ts
  {
  }

  /** Removing a template, then removing it again, changes nothing the second
      time: the list read back is the one written. */
  lemma RemoveTemplateTwice(ts: seq<SagaTemplate>, id: string)
    ensures var once := WithoutKey(Loaded(ts), TemplateId, id);
      WithoutKey(Loaded(once), TemplateId, id) == once
  {
    var loaded := Loaded(ts);
    var once := WithoutKey(loaded, TemplateId, id);
    forall i | 0 <= i < |once| ensures once[i].lists.Some? {
      assert once[i] in loaded;
    }
    LoadedFixed(once);
    WithoutKeyIdempotent(loaded, TemplateId, id);
  }

  /** Saving puts the template last and keeps every other template: a
      template with another id is kept exactly when it was stored. (That the
      kept ones stay in order is `WithoutKeyAppend`.) */
  lemma SavedTemplateLast(ts: seq<SagaTemplate>, old_id: string, saved: SagaTemplate)
    ensures var next := WithoutKey(ts, TemplateId, old_id) + [saved];
      && next[|next| - 1] == saved
      && (forall i :: 0 <= i < |next| - 1 ==> next[i] in ts && next[i].id != old_id)
      && (forall i :: 0 <= i < |ts| && ts[i].id != old_id ==> ts[i] in next)
  {
    var kept := WithoutKey(ts, TemplateId, old_id);
    var next := kept + [saved];
    forall i | 0 <= i < |ts| && ts[i].id != old_id ensures ts[i] in next {
      assert TemplateId(ts[i]) != old_id;
    }
    forall i | 0 <= i < |next| - 1 ensures next[i] in ts && next[i].id != old_id {
      assert next[i] == kept[i];
    }
  }

  // ---------------------------------------------------------------------------
  // Sessions

  /** An id that must be replaced by a fresh one. */
  predicate Unset(id: string) {
    id == [] || id == "new"
  }

  /** How many sessions have an unset id. */
  function UnsetCount(ss: seq<SagaSession>): nat {
    if ss == [] then 0
    else UnsetCount(ss[..|ss| - 1]) + (if Unset(ss[|ss| - 1].id) then 1 else 0)
  }

  lemma UnsetCountStep(ss: seq<SagaSession>, i: nat)
    requires i < |ss|
    ensures UnsetCount(ss[..i + 1]) == UnsetCount(ss[..i]) + (if Unset(ss[i].id) then 1 else 0)
  {
    assert ss[..i + 1][..i] == ss[..i];
  }

  /** Sessions counted up to `j` include every unset id before `j`. */
  lemma {:induction false} UnsetCountGrows(ss: seq<SagaSession>, i: nat, j: nat)
    requires i < j <= |ss| && Unset(ss[i].id)
    ensures UnsetCount(ss[..i]) < UnsetCount(ss[..j])
    decreases j
  {
    UnsetCountStep(ss, j - 1);
    if j - 1 > i {
      UnsetCountGrows(ss, i, j - 1);
    }
  }

  /** A session whose unset id is replaced by the `n`-th fresh id. */
  function Renumber(s: SagaSession, n: nat): (t: SagaSession)
    ensures !Unset(t.id) && t.(id := s.id) == s
    ensures Unset(s.id) ==> t.id == Uuid(n)
    ensures !Unset(s.id) ==> t == s
  {
    if Unset(s.id) then s.(id := Uuid(n)) else s
  }

  /** The stored sessions as they are read: every unset id, in order, gets the
      next fresh id starting at draw `next`; nothing else changes. */
  function Renumbered(ss: seq<SagaSession>, next: nat): (r: seq<SagaSession>)
    ensures |r| == |ss|
  {
    if ss == [] then []
    else
      var init := ss[..|ss| - 1];
      Renumbered(init, next) + [Renumber(ss[|ss| - 1], next + UnsetCount(init))]
  }

  /** The `i`-th session read gets the fresh id drawn after those given to
      the unset ids before it. */
  lemma {:induction false} RenumberedAt(ss: seq<SagaSession>, next: nat, i: nat)
    requires i < |ss|
    ensures Renumbered(ss, next)[i] == Renumber(ss[i], next + UnsetCount(ss[..i]))
    decreases |ss|
  {
    var n := |ss| - 1;
    if i < n {
      RenumberedAt(ss[..n], next, i);
      assert ss[..n][..i] == ss[..i];
    }
  }

  /** After reading, no session has an unset id; sessions that had an id keep
      it, and a session differs from what was stored in its id alone. */
  lemma RenumberedIds(ss: seq<SagaSession>, next: nat)
    ensures var r := Renumbered(ss, next);
      && (forall i :: 0 <= i < |r| ==> !Unset(r[i].id))
      && (forall i :: 0 <= i < |r| && !Unset(ss[i].id) ==> r[i] == ss[i])
      && (forall i :: 0 <= i < |r| ==> r[i].(id := ss[i].id) == ss[i])
  {
    var r := Renumbered(ss, next);
    forall i | 0 <= i < |r|
      ensures !Unset(r[i].id) && r[i].(id := ss[i].id) == ss[i]
      ensures !Unset(ss[i].id) ==> r[i] == ss[i]
    {
      RenumberedAt(ss, next, i);
    }
  }

  /** The fresh ids given while reading sessions are all different. */
  lemma RenumberedDistinct(ss: seq<SagaSession>, next: nat, i: nat, j: nat)
    requires i < j < |ss| && Unset(ss[i].id) && Unset(ss[j].id)
    ensures Renumbered(ss, next)[i].id != Renumbered(ss, next)[j].id
  {
    var r := Renumbered(ss, next);
    var m, n := next + UnsetCount(ss[..i]), next + UnsetCount(ss[..j]);
    RenumberedAt(ss, next, i);
    RenumberedAt(ss, next, j);
    UnsetCountGrows(ss, i, j);
    UuidInjective(m, n);
  }

  /** Sessions without unset ids are read back unchanged and draw nothing. */
  lemma {:induction false} RenumberedFixed(ss: seq<SagaSession>, next: nat)
    requires forall i :: 0 <= i < |ss| ==> !Unset(ss[i].id)
    ensures Renumbered(ss, next) == ss
    ensures UnsetCount(ss) == 0
    decreases |ss|
  {
    RenumberedIds(ss, next);
    if ss != [] {
      RenumberedFixed(ss[..|ss| - 1], next);
    }
  }

  /** Removing a session, then removing it again, changes nothing the second
      time and draws no ids. */
  lemma RemoveSessionTwice(ss: seq<SagaSession>, next: nat, later: nat, id: string)
    ensures var once := WithoutKey(Renumbered(ss, next), SessionId, id);
      && WithoutKey(Renumbered(once, later), SessionId, id) == once
      && UnsetCount(once) == 0
  {
    var read := Renumbered(ss, next);
    RenumberedIds(ss, next);
    var once := WithoutKey(read, SessionId, id);
    forall i | 0 <= i < |once| ensures !Unset(once[i].id) {
      assert once[i] in read;
    }
    RenumberedFixed(once, later);
    WithoutKeyIdempotent(read, SessionId, id);
  }

  /** The list `saveSession` writes is read back unchanged: reading it again
      draws no ids. */
  lemma SavedSessionsStable(ss: seq<SagaSession>, next: nat, later: nat, id: string, saved: SagaSession)
    requires !Unset(saved.id)
    ensures var written := WithoutKey(Renumbered(ss, next), SessionId, id) + [saved];
      Renumbered(written, later) == written && UnsetCount(written) == 0
  {
    var read := Renumbered(ss, next);
    RenumberedIds(ss, next);
    var kept := WithoutKey(read, SessionId, id);
    var written := kept + [saved];
    forall i | 0 <= i < |written| ensures !Unset(written[i].id) {
      if i < |kept| {
        assert written[i] == kept[i] && kept[i] in read;
      }
    }
    RenumberedFixed(written, later);
  }

  class SagaStore {
    /** The item stored under 'agnai-guided-templates'. */
    var templateItem: Option<seq<SagaTemplate>>
    /** The item stored under 'agnai-guided-sessions'. */
    var sessionItem: Option<seq<SagaSession>>
    /** How many fresh ids have been handed out. */
    var drawn: nat

    /** A repository over whatever storage already holds. */
    constructor (templates: Option<seq<SagaTemplate>>, sessions: Option<seq<SagaSession>>)
      ensures templateItem == templates && sessionItem == sessions && drawn == 0
    {
      templateItem := templates;
      sessionItem := sessions;
      drawn := 0;
    }

    /** Draws the next fresh id. */
    method NewId() returns (id: string)
      modifies this
      ensures id == Uuid(old(drawn)) && drawn == old(drawn) + 1
      ensures templateItem == old(templateItem) && sessionItem == old(sessionItem)
    {
      id := Uuid(drawn);
      drawn := drawn + 1;
    }

    /** Reads the stored templates, giving each one without `lists` an empty
        one. Storage is not written. */
    method GetTemplates() returns (templates: seq<SagaTemplate>)
      ensures templates == Loaded(Stored(templateItem))
    {
      var stored := Stored(templateItem);
      templates := stored;
      var i := 0;
      while i < |templates|
        invariant 0 <= i <= |templates| == |stored|
        invariant forall k :: 0 <= k < i ==> templates[k] == WithLists(stored[k])
        invariant forall k :: i <= k < |templates| ==> templates[k] == stored[k]
      {
        if templates[i].lists.None? {
          templates := templates[i := templates[i].(lists := Some(map[]))];
        }
        i := i + 1;
      }
    }

    /** Stores `template` last, in place of every stored template with its
        id; a template without an id gets a fresh one. The template is
        returned as it was given. */
    method SaveTemplate(template: SagaTemplate) returns (saved: SagaTemplate)
      modifies this
      ensures saved == template
      ensures drawn == old(drawn) + (if template.id == [] then 1 else 0)
      ensures var create := if template.id == [] then template.(id := Uuid(old(drawn))) else template;
        templateItem == Some(WithoutKey(Loaded(Stored(old(templateItem))), TemplateId, template.id) + [create])
      ensures sessionItem == old(sessionItem)
    {
      var create := template;
      if create.id == [] {
        var id := NewId();
        create := create.(id := id);
      }
      var templates := GetTemplates();
      var next := WithoutKey(templates, TemplateId, template.id) + [create];
      templateItem := Some(next);
      saved := template;
    }

    /** Stores a new template under a fresh id and returns it. */
    method CreateTemplate(template: SagaTemplate) returns (created: SagaTemplate)
      modifies this
      ensures created == template.(id := Uuid(old(drawn))) && drawn == old(drawn) + 1
      ensures templateItem == Some(WithoutKey(Loaded(Stored(old(templateItem))), TemplateId, created.id) + [created])
      ensures sessionItem == old(sessionItem)
    {
      var id := NewId();
      created := template.(id := id);
      var _ := SaveTemplate(created);
    }

    /** Reads the stored sessions, gives every unset id a fresh one, and writes
        the list back. */
    method GetSessions() returns (sessions: seq<SagaSession>)
      modifies this
      ensures sessions == Renumbered(Stored(old(sessionItem)), old(drawn))
      ensures drawn == old(drawn) + UnsetCount(Stored(old(sessionItem)))
      ensures sessionItem == Some(sessions) && templateItem == old(templateItem)
    {
      var stored := Stored(sessionItem);
      ghost var read := Renumbered(stored, drawn);
      sessions := stored;
      var i := 0;
      while i < |sessions|
        invariant 0 <= i <= |sessions| == |stored|
        invariant drawn == old(drawn) + UnsetCount(stored[..i])
        invariant forall k :: 0 <= k < i ==> sessions[k] == read[k]
        invariant forall k :: i <= k < |sessions| ==> sessions[k] == stored[k]
        invariant templateItem == old(templateItem) && sessionItem == old(sessionItem)
      {
        UnsetCountStep(stored, i);
        RenumberedAt(stored, old(drawn), i);
        var session := stored[i];
        if Unset(session.id) {
          var id := NewId();
          session := session.(id := id);
        }
        sessions := sessions[i := session];
        i := i + 1;
      }
      assert stored[..i] == stored;
      assert sessions == read;
      sessionItem := Some(sessions);
    }

    /** Stores `session` last, in place of every stored session with its id;
        an unset id is replaced by a fresh one first. */
    method SaveSession(session: SagaSession) returns (sessions: seq<SagaSession>, saved: SagaSession)
      modifies this
      ensures var extra := if Unset(session.id) then 1 else 0;
        && saved == Renumber(session, old(drawn))
        && sessions == WithoutKey(Renumbered(Stored(old(sessionItem)), old(drawn) + extra), SessionId, session.id)
                       + [saved]
        && drawn == old(drawn) + extra + UnsetCount(Stored(old(sessionItem)))
      ensures sessionItem == Some(sessions) && templateItem == old(templateItem)
    {
      saved := session;
      if Unset(saved.id) {
        var id := NewId();
        saved := saved.(id := id);
      }
      var read := GetSessions();
      sessions := WithoutKey(read, SessionId, session.id) + [saved];
      sessionItem := Some(sessions);
    }

    /** Appends a new, empty session for game `gameId`, stamped `now`. */
    method CreateSession(gameId: string, now: string) returns (session: SagaSession)
      modifies this
      ensures session == SagaSession(Uuid(old(drawn)), "Alpaca", None, gameId, None, None, map[], [], now)
      ensures sessionItem == Some(Renumbered(Stored(old(sessionItem)), old(drawn) + 1) + [session])
      ensures drawn == old(drawn) + 1 + UnsetCount(Stored(old(sessionItem)))
      ensures templateItem == old(templateItem)
    {
      var id := NewId();
      session := SagaSession(id, "Alpaca", None, gameId, None, None, map[], [], now);
      var read := GetSessions();
      sessionItem := Some(read + [session]);
    }

    /** Removes every template with id `id`. */
    method RemoveTemplate(id: string) returns (templates: seq<SagaTemplate>)
      modifies this
      ensures templates == WithoutKey(Loaded(Stored(old(templateItem))), TemplateId, id)
      ensures templateItem == Some(templates)
      ensures sessionItem == old(sessionItem) && drawn == old(drawn)
    {
      var read := GetTemplates();
      templates := WithoutKey(read, TemplateId, id);
      templateItem := Some(templates);
    }

    /** Removes every session with id `id`. */
    method RemoveSession(id: string) returns (sessions: seq<SagaSession>)
      modifies this
      ensures sessions == WithoutKey(Renumbered(Stored(old(sessionItem)), old(drawn)), SessionId, id)
      ensures drawn == old(drawn) + UnsetCount(Stored(old(sessionItem)))
      ensures sessionItem == Some(sessions) && templateItem == old(templateItem)
    {
      var read := GetSessions();
      sessions := WithoutKey(read, SessionId, id);
      sessionItem := Some(sessions);
    }
  }
}
