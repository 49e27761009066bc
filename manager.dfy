/**
 * The chat store (ChatManager): an ordered list of session objects, a
 * reference to the current session, the API configuration, and the two
 * files it writes through to. UUIDs and wall-clock readings are supplied
 * as numbered streams, `UuidAt(uuid, n)` and `ClockAt(clock, n)`, so every
 * call that would draw one advances a counter.
 */
module Manager {
  import opened Wrappers
  import opened Json
  import opened Entities
  import opened Codec
  import opened Sessions

  /** What a file holds: nothing, text that is not JSON, or a JSON document. */
  datatype StoredFile = Missing | Corrupt | Stored(doc: Json)

  /** The sessions loadData reads from sessions.json; None when the file is absent or not a JSON array. */
  function SessionsOnDisk(f: StoredFile): Option<Decoded<SessionData>> {
    if f.Stored? && f.doc.JArr? then Some(DecodePrefix(f.doc.items, DecodeSession)) else None
  }

  /** Whether the sessions half of loadData throws, which also skips the config half. */
  predicate SessionsLoadThrows(f: StoredFile) {
    f.Corrupt? || (f.Stored? && (!f.doc.JArr? || !DecodePrefix(f.doc.items, DecodeSession).complete))
  }

  /** The config loadData installs, or None when it keeps the one it has. */
  function ConfigOnDisk(sessionsFile: StoredFile, configFile: StoredFile): Option<ApiConfig> {
    if !SessionsLoadThrows(sessionsFile) && configFile.Stored? && configFile.doc.JObj?
    then Some(DecodeConfig(configFile.doc.fields))
    else None
  }

  /** A sessions file written by saveData loads back every session, so the config file is read too. */
  lemma SavedSessionsLoad(ss: seq<SessionData>, c: ApiConfig)
    ensures SessionsOnDisk(Stored(JArr(EncodeSessions(ss)))) == Some(Decoded(ss, true))
    ensures ConfigOnDisk(Stored(JArr(EncodeSessions(ss))), Stored(EncodeConfig(c))) == Some(c)
  {
    SessionsRoundTrip(ss);
  }

  /** One corrupt session in sessions.json keeps a well-formed config.json from being loaded. */
  lemma CorruptSessionSkipsConfig(good: seq<SessionData>, c: ApiConfig)
    ensures var f := Stored(JArr(EncodeSessions(good) + [JNull]));
      SessionsOnDisk(f).value == Decoded(good, false) && ConfigOnDisk(f, Stored(EncodeConfig(c))).None?
  {
    var items := EncodeSessions(good) + [JNull];
    assert forall k :: 0 <= k < |good| ==> items[k] == EncodeSession(good[k]);
    DecodedPrefix(items, DecodeSession, good);
  }

  class ChatManager {
    var sessions: seq<Session>
    var current: Session?
    var apiConfig: ApiConfig
    var sessionsFile: StoredFile
    var configFile: StoredFile
    const uuid: UuidSource
    const clock: ClockSource
    var uuidDraws: nat
    var clockReads: nat

    /** The current session, when there is one, is one of the stored sessions. */
    predicate CurrentInList()
      reads this
    {
      current == null || current in sessions
    }

    /** The store as `init { loadData() }` leaves it, starting from no sessions and the default config. */
    constructor (sessionsFile: StoredFile, configFile: StoredFile, uuid: UuidSource, clock: ClockSource)
      ensures this.sessionsFile == sessionsFile && this.configFile == configFile
      ensures this.uuid == uuid && this.clock == clock && uuidDraws == 0 && clockReads == 0
      ensures SessionsOnDisk(sessionsFile).None? ==> sessions == [] && current == null
      ensures SessionsOnDisk(sessionsFile).Some? ==>
        && DataOf(sessions) == SessionsOnDisk(sessionsFile).value.values
        && current == (if SessionsOnDisk(sessionsFile).value.complete && sessions != [] then sessions[0] else null)
      ensures apiConfig == ConfigOnDisk(sessionsFile, configFile).GetOr(DefaultConfig)
      ensures CurrentInList()
    {
      sessions := [];
      current := null;
      apiConfig := DefaultConfig;
      this.sessionsFile := sessionsFile;
      this.configFile := configFile;
      this.uuid := uuid;
      this.clock := clock;
      uuidDraws := 0;
      clockReads := 0;
      new;
      LoadData();
    }

    /** UUID.randomUUID() */
    method RandomUuid() returns (id: string)
      modifies this`uuidDraws
      ensures id == UuidAt(uuid, old(uuidDraws)) && uuidDraws == old(uuidDraws) + 1
    {
      id := UuidAt(uuid, uuidDraws);
      uuidDraws := uuidDraws + 1;
    }

    /** System.currentTimeMillis() */
    method CurrentTimeMillis() returns (now: int)
      modifies this`clockReads
      ensures now == ClockAt(clock, old(clockReads)) && clockReads == old(clockReads) + 1
    {
      now := ClockAt(clock, clockReads);
      clockReads := clockReads + 1;
    }

    // -------------------------------------------------------------------------
    // Session management

    /** A new empty session with the placeholder title goes to the front of the list and becomes current. */
    method CreateNewSession() returns (session: Session)
      modifies this`sessions, this`current, this`uuidDraws, this`clockReads, this`sessionsFile
      ensures fresh(session)
      ensures session.Data() == SessionData(UuidAt(uuid, old(uuidDraws)), DefaultTitle, [], ClockAt(clock, old(clockReads)))
      ensures sessions == [session] + old(sessions) && current == session
      ensures DataOf(sessions) == [session.Data()] + old(DataOf(sessions))
      ensures uuidDraws == old(uuidDraws) + 1 && clockReads == old(clockReads) + 1
      ensures sessionsFile == Stored(JArr(EncodeSessions(DataOf(sessions))))
      ensures CurrentInList()
    {
      var id := RandomUuid();
      var now := CurrentTimeMillis();
      session := new Session(id, DefaultTitle, now);
      PushFront(session);
    }

    /** The part of createNewSession after the session is built: it goes first, becomes current, and is saved. */
    method PushFront(session: Session)
      modifies this`sessions, this`current, this`sessionsFile
      ensures sessions == [session] + old(sessions) && current == session
      ensures DataOf(sessions) == [session.Data()] + old(DataOf(sessions))
      ensures sessionsFile == Stored(JArr(EncodeSessions(DataOf(sessions))))
      ensures CurrentInList()
    {
      DataOfCons(session, sessions);
      sessions := [session] + sessions;
      current := session;
      SaveData();
    }

    /** The first stored session with that id becomes current; with none, there is no current session. */
    method SetCurrentSession(id: string)
      modifies this`current
      ensures FindById(sessions, id).Some? ==> current == sessions[FindById(sessions, id).value]
      ensures FindById(sessions, id).None? ==> current == null
      ensures CurrentInList()
    {
      var k := FindById(sessions, id);
      current := if k.Some? then sessions[k.value] else null;
    }

    /** All sessions, most recently updated first, ties in stored order; the stored list is untouched. */
    method GetAllSessions() returns (r: seq<Session>)
      ensures multiset(r) == multiset(sessions)
      ensures forall i, j :: 0 <= i < j < |r| ==> r[i].updatedAt >= r[j].updatedAt
      ensures forall t :: WithUpdatedAt(r, t) == WithUpdatedAt(sessions, t)
    {
      r := SortByRecency(sessions);
      SortPermutes(sessions);
      SortedSorted(sessions);
      forall t ensures WithUpdatedAt(r, t) == WithUpdatedAt(sessions, t) {
        SortStable(sessions, t);
      }
    }

    /** Every session with that id is removed; a deleted current session is replaced by the first one left. */
    method DeleteSession(id: string)
      modifies this`sessions, this`current, this`sessionsFile
      ensures sessions == WithoutId(old(sessions), id)
      ensures old(current) != null && old(current).id == id ==>
        current == (if sessions == [] then null else sessions[0])
      ensures !(old(current) != null && old(current).id == id) ==> current == old(current)
      ensures old(CurrentInList()) ==> CurrentInList()
      ensures sessionsFile == Stored(JArr(EncodeSessions(DataOf(sessions))))
    {
      sessions := WithoutId(sessions, id);
      if current != null && current.id == id {
        current := if sessions == [] then null else sessions[0];
      }
      SaveData();
    }

    // -------------------------------------------------------------------------
    // Message management

    /**
     * Appends a message to the current session, creating one first when
     * there is none; stamps updatedAt, applies the title rule and saves.
     */
    method AddMessage(role: string, content: string) returns (message: Message)
      modifies this`sessions, this`current, this`uuidDraws, this`clockReads, this`sessionsFile, current
      ensures current != null
      ensures old(current) == null ==>
        && fresh(current) && sessions == [current] + old(sessions)
        && current.id == UuidAt(uuid, old(uuidDraws))
      ensures old(current) != null ==> current == old(current) && sessions == old(sessions)
      ensures var created := if old(current) == null then 1 else 0;
        && message == Message(UuidAt(uuid, old(uuidDraws) + created), role, content, ClockAt(clock, old(clockReads) + created))
        && current.updatedAt == ClockAt(clock, old(clockReads) + created + 1)
        && uuidDraws == old(uuidDraws) + created + 1
        && clockReads == old(clockReads) + created + 2
      ensures current.messages == (if old(current) == null then [] else old(current.messages)) + [message]
      ensures current.title == TitleAfter(if old(current) == null then DefaultTitle else old(current.title), role, content)
      ensures sessionsFile == Stored(JArr(EncodeSessions(DataOf(sessions))))
      ensures old(CurrentInList()) ==> CurrentInList()
    {
      if current == null {
        var session := CreateNewSession();
      }
      message := AppendToCurrent(role, content);
    }

    /** The part of addMessage after the session is found or created: the message goes to the current session. */
    method AppendToCurrent(role: string, content: string) returns (message: Message)
      requires current != null
      modifies this`uuidDraws, this`clockReads, this`sessionsFile, current
      ensures message == Message(UuidAt(uuid, old(uuidDraws)), role, content, ClockAt(clock, old(clockReads)))
      ensures current.messages == old(current.messages) + [message]
      ensures current.updatedAt == ClockAt(clock, old(clockReads) + 1)
      ensures current.title == TitleAfter(old(current.title), role, content)
      ensures uuidDraws == old(uuidDraws) + 1 && clockReads == old(clockReads) + 2
      ensures sessionsFile == Stored(JArr(EncodeSessions(DataOf(sessions))))
    {
      var session := current;
      var id := RandomUuid();
      var timestamp := CurrentTimeMillis();
      message := Message(id, role, content, timestamp);
      session.messages := session.messages + [message];
      var now := CurrentTimeMillis();
      session.updatedAt := now;
      session.title := TitleAfter(session.title, role, content);
      SaveData();
    }

    /**
     * Replaces the content of the current session's last message, at the
     * position indexOf finds for it; nothing is saved.
     */
    method UpdateLastMessage(content: string)
      modifies current
      ensures old(current) != null ==> current.title == old(current.title) && current.updatedAt == old(current.updatedAt)
      ensures old(current) != null && old(current.messages) != [] ==>
        current.messages == ReplaceLastContent(old(current.messages), content)
      ensures old(current) != null && old(current.messages) == [] ==> current.messages == []
    {
      if current != null && current.messages != [] {
        var last := current.messages[|current.messages| - 1];
        var index := IndexOf(current.messages, last);
        current.messages := current.messages[index := last.(content := content)];
      }
    }

    /** Empties the current session and restores the placeholder title; id, updatedAt and list position stay. */
    method ClearCurrentSession()
      modifies current, this`sessionsFile
      ensures old(current) != null ==> current.messages == [] && current.title == DefaultTitle
      ensures old(current) != null ==> current.updatedAt == old(current.updatedAt)
      ensures sessionsFile == Stored(JArr(EncodeSessions(DataOf(sessions))))
    {
      if current != null {
        current.messages := [];
        current.title := DefaultTitle;
      }
      SaveData();
    }

    // -------------------------------------------------------------------------
    // API configuration

    /** Installs the config and writes it to config.json. */
    method SetApiConfig(config: ApiConfig)
      modifies this`apiConfig, this`configFile
      ensures apiConfig == config && configFile == Stored(EncodeConfig(config))
    {
      apiConfig := config;
      SaveConfig();
    }

    method SaveConfig()
      modifies this`configFile
      ensures configFile == Stored(EncodeConfig(apiConfig))
    {
      configFile := Stored(EncodeConfig(apiConfig));
    }

    // -------------------------------------------------------------------------
    // Persistence

    /** Writes every session, in stored order, to sessions.json. */
    method SaveData()
      modifies this`sessionsFile
      ensures sessionsFile == Stored(JArr(EncodeSessions(DataOf(sessions))))
      ensures DataOf(sessions) == old(DataOf(sessions))
    {
      var json: seq<Json> := [];
      var i := 0;
      while i < |sessions|
        invariant 0 <= i <= |sessions|
        invariant |json| == i && forall k :: 0 <= k < i ==> json[k] == EncodeSession(sessions[k].Data())
      {
        json := json + [EncodeSession(sessions[i].Data())];
        i := i + 1;
      }
      assert json == EncodeSessions(DataOf(sessions));
      sessionsFile := Stored(JArr(json));
    }

    /**
     * Reads sessions.json, then config.json, in one try block: a failure in
     * the sessions half leaves the sessions read so far and skips the rest.
     */
    method LoadData()
      modifies this`sessions, this`current, this`apiConfig
      ensures SessionsOnDisk(sessionsFile).None? ==> sessions == old(sessions) && current == old(current)
      ensures SessionsOnDisk(sessionsFile).Some? ==>
        var d := SessionsOnDisk(sessionsFile).value;
        && DataOf(sessions) == d.values
        && (forall k :: 0 <= k < |sessions| ==> fresh(sessions[k]))
        && current == (if !d.complete then old(current) else if sessions == [] then null else sessions[0])
      ensures apiConfig == ConfigOnDisk(sessionsFile, configFile).GetOr(old(apiConfig))
      ensures old(current) == null ==> CurrentInList()
    {
      if sessionsFile.Corrupt? || (sessionsFile.Stored? && !sessionsFile.doc.JArr?) {
        return;
      }
      if sessionsFile.Stored? {
        var loaded, complete := ReadSessions(sessionsFile.doc.items);
        sessions := loaded;
        if !complete {
          return;
        }
        current := if sessions == [] then null else sessions[0];
      }
      if configFile.Stored? && configFile.doc.JObj? {
        apiConfig := DecodeConfig(configFile.doc.fields);
      }
    }

    /**
     * The loop of loadData over the sessions array: a new session object per
     * element, stopping at the first element that cannot be read.
     */
    method ReadSessions(items: seq<Json>) returns (loaded: seq<Session>, complete: bool)
      ensures DataOf(loaded) == DecodePrefix(items, DecodeSession).values
      ensures complete == DecodePrefix(items, DecodeSession).complete
      ensures forall k :: 0 <= k < |loaded| ==> fresh(loaded[k])
    {
      loaded := [];
      var i := 0;
      while i < |items|
        invariant 0 <= i <= |items|
        invariant |loaded| == i
        invariant forall k :: 0 <= k < i ==> DecodeSession(items[k]) == Some(loaded[k].Data())
        invariant forall k :: 0 <= k < i ==> fresh(loaded[k])
      {
        var decoded := DecodeSession(items[i]);
        if decoded.None? {
          DecodedPrefix(items, DecodeSession, DataOf(loaded));
          return loaded, false;
        }
        var session := NewSession(decoded.value);
        loaded := loaded + [session];
        i := i + 1;
      }
      DecodedPrefix(items, DecodeSession, DataOf(loaded));
      complete := true;
    }

    // -------------------------------------------------------------------------
    // Export / import

    /** The export document: sessions without updatedAt or message ids, and the config without its secrets. */
    method ExportData() returns (doc: Json)
      ensures doc == ExportDoc(DataOf(sessions), apiConfig)
    {
      var exported: seq<Json> := [];
      var i := 0;
      while i < |sessions|
        invariant 0 <= i <= |sessions|
        invariant |exported| == i && forall k :: 0 <= k < i ==> exported[k] == ExportSession(sessions[k].Data())
      {
        exported := exported + [ExportSession(sessions[i].Data())];
        i := i + 1;
      }
      assert exported == ExportSessions(DataOf(sessions));
      doc := JObj(map["sessions" := JArr(exported), "config" := ExportConfig(apiConfig)]);
    }

    /**
     * One element of an imported messages array (lines 230-235): role and
     * content, then the clock for the fallback timestamp, then a UUID for
     * the id; None when the element cannot be read.
     */
    method ReadImportedMessage(j: Json) returns (message: Option<Message>)
      modifies this`uuidDraws, this`clockReads
      ensures var s := MessageStep(j, old(uuidDraws), old(clockReads), uuid, clock);
        message == s.value && uuidDraws == old(uuidDraws) + s.uuids && clockReads == old(clockReads) + s.clocks
    {
      if !j.JObj? {
        return None;
      }
      var role := GetString(j.fields, "role");
      var content := GetString(j.fields, "content");
      if role.None? || content.None? {
        return None;
      }
      var fallback := CurrentTimeMillis();
      var timestamp := OptLong(j.fields, "timestamp", fallback);
      var messageId := RandomUuid();
      message := Some(Message(messageId, role.value, content.value, timestamp));
    }

    /** The inner loop of importData (lines 229-236): None at the first element that cannot be read. */
    method ReadImportedMessages(items: seq<Json>) returns (ms: Option<seq<Message>>)
      modifies this`uuidDraws, this`clockReads
      ensures var r := MessagesRun(items, old(uuidDraws), old(clockReads), uuid, clock);
        && ms == (if r.complete then Some(r.values) else None)
        && uuidDraws == old(uuidDraws) + r.uuids && clockReads == old(clockReads) + r.clocks
    {
      ghost var u0, c0 := uuidDraws, clockReads;
      ghost var read := MessageReader(uuid, clock);
      ghost var target := LoopOf(items, 0, [], u0, c0, read);
      var messages: seq<Message> := [];
      var k := 0;
      while k < |items|
        invariant 0 <= k <= |items|
        invariant target == LoopOf(items, k, messages, uuidDraws, clockReads, read)
      {
        ghost var u1, c1 := uuidDraws, clockReads;
        var message := ReadImportedMessage(items[k]);
        if message.None? {
          LoopOfRunFromStart(items, u0, c0, read);
          return None;
        }
        LoopOfNext(items, k, messages, u1, c1, read, message.value, uuidDraws, clockReads);
        messages := messages + [message.value];
        k := k + 1;
      }
      LoopOfRunFromStart(items, u0, c0, read);
      ms := Some(messages);
    }

    /**
     * One element of the imported sessions array (lines 223-236): id and
     * title, a fresh updatedAt, then the messages with fresh ids; None when
     * the element cannot be read, which makes importData throw.
     */
    method ReadImportedSession(j: Json) returns (session: Option<SessionData>)
      modifies this`uuidDraws, this`clockReads
      ensures var s := SessionReader(uuid, clock)(j, old(uuidDraws), old(clockReads));
        && session == s.value
        && uuidDraws == old(uuidDraws) + s.uuids && clockReads == old(clockReads) + s.clocks
    {
      if !j.JObj? {
        return None;
      }
      var id := GetString(j.fields, "id");
      var title := GetString(j.fields, "title");
      if id.None? || title.None? {
        return None;
      }
      var now := CurrentTimeMillis();
      var found := GetArray(j.fields, "messages");
      if found.None? {
        return None;
      }
      var messages := ReadImportedMessages(found.value);
      if messages.None? {
        return None;
      }
      session := Some(SessionData(id.value, title.value, messages.value, now));
    }

    /**
     * The outer loop of importData (lines 222-238): the sessions read, in
     * order, up to the first element that cannot be read.
     */
    method ReadImportedSessions(items: seq<Json>) returns (read: seq<SessionData>, complete: bool)
      modifies this`uuidDraws, this`clockReads
      ensures var r := SessionsRun(items, old(uuidDraws), old(clockReads), uuid, clock);
        && read == r.values && complete == r.complete
        && uuidDraws == old(uuidDraws) + r.uuids && clockReads == old(clockReads) + r.clocks
    {
      ghost var u0, c0 := uuidDraws, clockReads;
      ghost var reader := SessionReader(uuid, clock);
      ghost var target := LoopOf(items, 0, [], u0, c0, reader);
      read := [];
      var i := 0;
      while i < |items|
        invariant 0 <= i <= |items|
        invariant target == LoopOf(items, i, read, uuidDraws, clockReads, reader)
      {
        ghost var u1, c1 := uuidDraws, clockReads;
        var session := ReadImportedSession(items[i]);
        if session.None? {
          LoopOfRunFromStart(items, u0, c0, reader);
          return read, false;
        }
        LoopOfNext(items, i, read, u1, c1, reader, session.value, uuidDraws, clockReads);
        read := read + [session.value];
        i := i + 1;
      }
      LoopOfRunFromStart(items, u0, c0, reader);
      complete := true;
    }

    /** A new session object for each session read, in order (the ChatSession constructions of lines 224-227). */
    method NewSessions(ds: seq<SessionData>) returns (created: seq<Session>)
      ensures DataOf(created) == ds
      ensures forall k :: 0 <= k < |created| ==> fresh(created[k])
    {
      created := [];
      var i := 0;
      while i < |ds|
        invariant 0 <= i <= |ds| && |created| == i
        invariant forall k :: 0 <= k < i ==> fresh(created[k]) && created[k].Data() == ds[k]
      {
        var session := NewSession(ds[i]);
        created := created + [session];
        i := i + 1;
      }
    }

    /**
     * Replaces the stored sessions with those of an export document. The
     * list is cleared before the sessions array is read, so a document that
     * fails part-way leaves the sessions read so far, and leaves the current
     * session as it was, possibly no longer in the list.
     */
    method ImportData(doc: Option<Json>)
      modifies this`sessions, this`current, this`uuidDraws, this`clockReads, this`sessionsFile
      ensures doc.None? || !doc.value.JObj? ==>
        && sessions == old(sessions) && current == old(current) && sessionsFile == old(sessionsFile)
        && uuidDraws == old(uuidDraws) && clockReads == old(clockReads)
      ensures doc.Some? && doc.value.JObj? && GetArray(doc.value.fields, "sessions").None? ==>
        && sessions == [] && current == old(current) && sessionsFile == old(sessionsFile)
        && uuidDraws == old(uuidDraws) && clockReads == old(clockReads)
      ensures doc.Some? && doc.value.JObj? && GetArray(doc.value.fields, "sessions").Some? ==>
        var r := SessionsRun(GetArray(doc.value.fields, "sessions").value, old(uuidDraws), old(clockReads), uuid, clock);
        && DataOf(sessions) == r.values
        && (forall k :: 0 <= k < |sessions| ==> fresh(sessions[k]))
        && uuidDraws == old(uuidDraws) + r.uuids && clockReads == old(clockReads) + r.clocks
        && (r.complete ==>
              && current == (if sessions == [] then null else sessions[0])
              && sessionsFile == Stored(JArr(EncodeSessions(DataOf(sessions)))))
        && (!r.complete ==> current == old(current) && sessionsFile == old(sessionsFile))
    {
      if doc.None? || !doc.value.JObj? {
        return;
      }
      sessions := [];
      var found := GetArray(doc.value.fields, "sessions");
      if found.None? {
        return;
      }
      var read, complete := ReadImportedSessions(found.value);
      InstallImported(read, complete);
    }

    /**
     * The part of importData after the sessions array is read: the sessions
     * read replace the list; only a complete read also moves the current
     * session to the first of them and saves.
     */
    method InstallImported(read: seq<SessionData>, complete: bool)
      modifies this`sessions, this`current, this`sessionsFile
      ensures DataOf(sessions) == read
      ensures forall k :: 0 <= k < |sessions| ==> fresh(sessions[k])
      ensures complete ==>
        && current == (if sessions == [] then null else sessions[0])
        && sessionsFile == Stored(JArr(EncodeSessions(DataOf(sessions))))
      ensures !complete ==> current == old(current) && sessionsFile == old(sessionsFile)
    {
      sessions := NewSessions(read);
      if !complete {
        return;
      }
      current := if sessions == [] then null else sessions[0];
      SaveData();
    }

    /**
     * Importing this store's own export: the same session ids and titles in
     * the same order, each message with the same role, content and
     * timestamp; message ids and updatedAt are drawn afresh, and the first
     * session becomes current.
     */
    method ReimportExport()
      modifies this`sessions, this`current, this`uuidDraws, this`clockReads, this`sessionsFile
      ensures |sessions| == old(|sessions|)
      ensures forall k :: 0 <= k < |sessions| ==> Exported(sessions[k].Data()) == old(Exported(sessions[k].Data()))
      ensures forall k :: 0 <= k < |sessions| ==> fresh(sessions[k])
      ensures current == (if sessions == [] then null else sessions[0])
      ensures sessionsFile == Stored(JArr(EncodeSessions(DataOf(sessions))))
    {
      ghost var before := DataOf(sessions);
      var doc := ExportData();
      ExportImportDoc(before, apiConfig);
      SessionsRunDecodes(ExportSessions(before), uuidDraws, clockReads, uuid, clock);
      MaterializeExported(before, uuidDraws, clockReads, uuid, clock);
      ImportData(Some(doc));
    }
  }

  /**
   * An import whose document lacks the "sessions" array empties the list
   * and keeps the current session, which is then in no list at all.
   */
  method ImportWithoutSessionsArray(uuid: UuidSource, clock: ClockSource) returns (m: ChatManager)
    ensures m.current != null && m.current !in m.sessions
  {
    m := new ChatManager(Missing, Missing, uuid, clock);
    var s := m.CreateNewSession();
    m.ImportData(Some(JObj(map[])));
  }
}
