/**
 * The JSON documents the chat store writes and reads: the sessions file, the
 * config file, and the export document. Encoders are what saveData,
 * saveConfig and exportData put into their JSON objects; decoders follow the
 * get/opt calls of loadData and importData, where a `get` that throws is None.
 */
module Codec {
  import opened Wrappers
  import opened Json
  import opened Entities

  // ---------------------------------------------------------------------------
  // Reading arrays element by element

  /** A decoded list: the values read before the first element that failed, and whether none failed. */
  datatype Decoded<T> = Decoded(values: seq<T>, complete: bool)

  /** A loop that reads every element and throws at the first it cannot read: all values, or None. */
  function DecodeAll<T>(items: seq<Json>, decode: Json -> Option<T>): (r: Option<seq<T>>)
    ensures r.Some? ==> |r.value| == |items|
  {
    if items == [] then Some([])
    else match (decode(items[0]), DecodeAll(items[1..], decode))
      case (Some(v), Some(vs)) => Some([v] + vs)
      case _ => None
  }

  /** DecodeAll succeeds exactly when every element decodes, and then holds each element's value in order. */
  lemma {:induction false} DecodeAllReads<T>(items: seq<Json>, decode: Json -> Option<T>)
    ensures var r := DecodeAll(items, decode);
      && (r.Some? <==> forall k :: 0 <= k < |items| ==> decode(items[k]).Some?)
      && (r.Some? ==> forall k :: 0 <= k < |items| ==> decode(items[k]) == Some(r.value[k]))
  {
    if items != [] {
      DecodeAllReads(items[1..], decode);
      forall k | 0 <= k < |items| - 1 ensures items[1..][k] == items[k + 1] { }
      var r := DecodeAll(items, decode);
      if r.Some? {
        assert r.value == [r.value[0]] + DecodeAll(items[1..], decode).value;
      }
      if forall k :: 0 <= k < |items| ==> decode(items[k]).Some? {
        assert forall k :: 0 <= k < |items| - 1 ==> decode(items[1..][k]).Some?;
      }
    }
  }

  /** A loop that keeps what it has read when it throws: the values before the first failure. */
  function DecodePrefix<T>(items: seq<Json>, decode: Json -> Option<T>): (r: Decoded<T>)
    ensures |r.values| <= |items|
    ensures r.complete <==> |r.values| == |items|
  {
    if items == [] then Decoded([], true)
    else match decode(items[0])
      case None => Decoded([], false)
      case Some(v) =>
        var rest := DecodePrefix(items[1..], decode);
        Decoded([v] + rest.values, rest.complete)
  }

  /**
   * DecodePrefix keeps a prefix of the elements, each decoded, and stops
   * either at the end (complete) or at the first element that does not decode.
   */
  lemma {:induction false} DecodePrefixReads<T>(items: seq<Json>, decode: Json -> Option<T>)
    ensures var r := DecodePrefix(items, decode);
      && (forall k :: 0 <= k < |r.values| ==> decode(items[k]) == Some(r.values[k]))
      && (!r.complete ==> decode(items[|r.values|]).None?)
  {
    if items != [] && decode(items[0]).Some? {
      DecodePrefixReads(items[1..], decode);
      var rest := DecodePrefix(items[1..], decode);
      forall k | 0 <= k < |rest.values| ensures decode(items[k + 1]) == Some(rest.values[k]) {
        assert items[1..][k] == items[k + 1];
      }
      if !rest.complete {
        assert items[1..][|rest.values|] == items[|rest.values| + 1];
      }
    }
  }

  /** A loop that read exactly the first |vs| elements, and failed on the next if any, agrees with DecodePrefix. */
  lemma {:induction false} DecodedPrefix<T>(items: seq<Json>, decode: Json -> Option<T>, vs: seq<T>)
    requires |vs| <= |items|
    requires forall k :: 0 <= k < |vs| ==> decode(items[k]) == Some(vs[k])
    requires |vs| < |items| ==> decode(items[|vs|]).None?
    ensures DecodePrefix(items, decode) == Decoded(vs, |vs| == |items|)
  {
    if vs != [] {
      forall k | 0 <= k < |vs[1..]| ensures decode(items[1..][k]) == Some(vs[1..][k]) {
        assert items[1..][k] == items[k + 1];
      }
      if |vs| < |items| {
        assert items[1..][|vs[1..]|] == items[|vs|];
      }
      DecodedPrefix(items[1..], decode, vs[1..]);
      assert vs == [vs[0]] + vs[1..];
    }
  }

  // ---------------------------------------------------------------------------
  // sessions.json (saveData / loadData)

  /** One element of a session's "messages" array, read back by loadData (lines 141-147). */
  function DecodeMessage(j: Json): Option<Message> {
    if !j.JObj? then None
    else
      var o := j.fields;
      match (GetString(o, "id"), GetString(o, "role"), GetString(o, "content"), GetLong(o, "timestamp"))
      case (Some(id), Some(role), Some(content), Some(ts)) => Some(Message(id, role, content, ts))
      case _ => None
  }

  /** One session object of sessions.json (loadData, lines 133-148): it fails when any of its messages fails. */
  function DecodeSession(j: Json): Option<SessionData> {
    if !j.JObj? then None
    else
      var o := j.fields;
      match (GetString(o, "id"), GetString(o, "title"), GetLong(o, "updatedAt"), GetArray(o, "messages"))
      case (Some(id), Some(title), Some(at), Some(items)) =>
        (match DecodeAll(items, DecodeMessage)
         case Some(ms) => Some(SessionData(id, title, ms, at))
         case None => None)
      case _ => None
  }

  function EncodeMessage(m: Message): (j: Json)
    ensures DecodeMessage(j) == Some(m)
  {
    JObj(map["id" := JStr(m.id), "role" := JStr(m.role), "content" := JStr(m.content),
             "timestamp" := JInt(m.timestamp)])
  }

  function EncodeMessages(ms: seq<Message>): (r: seq<Json>)
    ensures |r| == |ms| && forall k :: 0 <= k < |ms| ==> r[k] == EncodeMessage(ms[k])
  {
    seq(|ms|, k requires 0 <= k < |ms| => EncodeMessage(ms[k]))
  }

  /** Every message saveData writes, loadData reads back. */
  lemma MessagesRoundTrip(ms: seq<Message>)
    ensures DecodeAll(EncodeMessages(ms), DecodeMessage) == Some(ms)
  {
    DecodeAllReads(EncodeMessages(ms), DecodeMessage);
    var r := DecodeAll(EncodeMessages(ms), DecodeMessage);
    assert r.value == ms;
  }

  /** One element of the array saveData writes (lines 104-118). */
  function EncodeSession(s: SessionData): (j: Json)
    ensures DecodeSession(j) == Some(s)
  {
    MessagesRoundTrip(s.messages);
    JObj(map["id" := JStr(s.id), "title" := JStr(s.title), "updatedAt" := JInt(s.updatedAt),
             "messages" := JArr(EncodeMessages(s.messages))])
  }

  /** The array written to sessions.json, one object per session in stored order. */
  function EncodeSessions(ss: seq<SessionData>): (r: seq<Json>)
    ensures |r| == |ss| && forall k :: 0 <= k < |ss| ==> r[k] == EncodeSession(ss[k])
  {
    seq(|ss|, k requires 0 <= k < |ss| => EncodeSession(ss[k]))
  }

  /** What saveData writes, loadData reads back: the same sessions, in the same order, all of them. */
  lemma SessionsRoundTrip(ss: seq<SessionData>)
    ensures DecodePrefix(EncodeSessions(ss), DecodeSession) == Decoded(ss, true)
  {
    DecodedPrefix(EncodeSessions(ss), DecodeSession, ss);
  }

  // ---------------------------------------------------------------------------
  // config.json (saveConfig / loadData)

  /** The config loadData builds from a config object (lines 156-163): every field falls back to its default. */
  function DecodeConfig(o: Fields): (c: ApiConfig)
    ensures o == map[] ==> c == DefaultConfig
    ensures c.endpoint == (if "endpoint" in o && o["endpoint"].JStr? then o["endpoint"].s else DefaultEndpoint)
    ensures c.apiKey == (if "apiKey" in o && o["apiKey"].JStr? then o["apiKey"].s else "")
    ensures c.model == (if "model" in o && o["model"].JStr? then o["model"].s else DefaultModel)
    ensures c.temperature == (if "temperature" in o && o["temperature"].JNum? then o["temperature"].r
                              else if "temperature" in o && o["temperature"].JInt? then o["temperature"].i as real
                              else DefaultTemperature)
    ensures c.maxTokens == (if "maxTokens" in o && o["maxTokens"].JInt? then WrapInt32(o["maxTokens"].i) else DefaultMaxTokens)
    ensures c.systemPrompt == (if "systemPrompt" in o && o["systemPrompt"].JStr? then o["systemPrompt"].s else "")
  {
    ApiConfig(
      OptString(o, "endpoint", DefaultEndpoint),
      OptString(o, "apiKey", ""),
      OptString(o, "model", DefaultModel),
      OptDouble(o, "temperature", DefaultTemperature),
      OptInt(o, "maxTokens", DefaultMaxTokens),
      OptString(o, "systemPrompt", ""))
  }

  /** The object saveConfig writes (lines 172-179), secret key and system prompt included; loadData reads it back unchanged. */
  function EncodeConfig(c: ApiConfig): (j: Json)
    ensures j.JObj? && DecodeConfig(j.fields) == c
  {
    JObj(map["endpoint" := JStr(c.endpoint), "apiKey" := JStr(c.apiKey), "model" := JStr(c.model),
             "temperature" := JNum(c.temperature), "maxTokens" := JInt(c.maxTokens as int),
             "systemPrompt" := JStr(c.systemPrompt)])
  }

  /** A config file written before the system prompt existed loads every other field, and an empty prompt. */
  lemma ConfigWithoutSystemPrompt(c: ApiConfig)
    ensures DecodeConfig(EncodeConfig(c).fields - {"systemPrompt"}) == c.(systemPrompt := "")
  {
    var o := EncodeConfig(c).fields - {"systemPrompt"};
    assert "systemPrompt" !in o;
    assert o["endpoint"] == JStr(c.endpoint) && o["apiKey"] == JStr(c.apiKey) && o["model"] == JStr(c.model);
    assert o["temperature"] == JNum(c.temperature) && o["maxTokens"] == JInt(c.maxTokens as int);
  }

  // ---------------------------------------------------------------------------
  // Export document (exportData / importData)

  /** A message as importData reads it: the timestamp may be absent (optLong). */
  datatype ImportedMessage = ImportedMessage(role: string, content: string, timestamp: Option<int>)

  /** A session as importData reads it: no updatedAt, no message ids. */
  datatype ImportedSession = ImportedSession(id: string, title: string, messages: seq<ImportedMessage>)

  /** One element of an imported "messages" array (lines 230-235). */
  function ImportMessage(j: Json): Option<ImportedMessage> {
    if !j.JObj? then None
    else
      var o := j.fields;
      match (GetString(o, "role"), GetString(o, "content"))
      case (Some(role), Some(content)) =>
        Some(ImportedMessage(role, content, if "timestamp" in o && o["timestamp"].JInt? then Some(o["timestamp"].i) else None))
      case _ => None
  }

  /** One element of the imported "sessions" array (lines 223-236): it fails when any of its messages fails. */
  function ImportSession(j: Json): Option<ImportedSession> {
    if !j.JObj? then None
    else
      var o := j.fields;
      match (GetString(o, "id"), GetString(o, "title"), GetArray(o, "messages"))
      case (Some(id), Some(title), Some(items)) =>
        (match DecodeAll(items, ImportMessage)
         case Some(ms) => Some(ImportedSession(id, title, ms))
         case None => None)
      case _ => None
  }

  /** What the export keeps of a session: id, title, and each message's role, content and timestamp. */
  function Exported(s: SessionData): ImportedSession {
    ImportedSession(s.id, s.title,
      seq(|s.messages|, k requires 0 <= k < |s.messages| =>
        ImportedMessage(s.messages[k].role, s.messages[k].content, Some(s.messages[k].timestamp))))
  }

  /** One message of the export (lines 196-200): no id. */
  function ExportMessage(m: Message): (j: Json)
    ensures j.JObj? && j.fields.Keys == {"role", "content", "timestamp"}
    ensures ImportMessage(j) == Some(ImportedMessage(m.role, m.content, Some(m.timestamp)))
  {
    JObj(map["role" := JStr(m.role), "content" := JStr(m.content), "timestamp" := JInt(m.timestamp)])
  }

  function ExportMessages(ms: seq<Message>): (r: seq<Json>)
    ensures |r| == |ms| && forall k :: 0 <= k < |ms| ==> r[k] == ExportMessage(ms[k])
  {
    seq(|ms|, k requires 0 <= k < |ms| => ExportMessage(ms[k]))
  }

  /** One session of the export (lines 191-203): no updatedAt; importData reads back what it kept. */
  function ExportSession(s: SessionData): (j: Json)
    ensures j.JObj? && j.fields.Keys == {"id", "title", "messages"}
    ensures ImportSession(j) == Some(Exported(s))
  {
    var items := ExportMessages(s.messages);
    DecodeAllReads(items, ImportMessage);
    assert DecodeAll(items, ImportMessage).value == Exported(s).messages;
    JObj(map["id" := JStr(s.id), "title" := JStr(s.title), "messages" := JArr(items)])
  }

  function ExportSessions(ss: seq<SessionData>): (r: seq<Json>)
    ensures |r| == |ss| && forall k :: 0 <= k < |ss| ==> r[k] == ExportSession(ss[k])
  {
    seq(|ss|, k requires 0 <= k < |ss| => ExportSession(ss[k]))
  }

  /** The reduced config view of the export: no API key and no system prompt (lines 206-211). */
  function ExportConfig(c: ApiConfig): (r: Json)
    ensures r.JObj? && r.fields.Keys == {"endpoint", "model", "temperature", "maxTokens"}
    ensures "apiKey" !in r.fields && "systemPrompt" !in r.fields
    ensures r.fields["endpoint"] == JStr(c.endpoint) && r.fields["model"] == JStr(c.model)
    ensures r.fields["temperature"] == JNum(c.temperature) && r.fields["maxTokens"] == JInt(c.maxTokens as int)
  {
    JObj(map["endpoint" := JStr(c.endpoint), "model" := JStr(c.model),
             "temperature" := JNum(c.temperature), "maxTokens" := JInt(c.maxTokens as int)])
  }

  /** The document exportData renders as text (lines 188-212). */
  function ExportDoc(ss: seq<SessionData>, c: ApiConfig): Json {
    JObj(map["sessions" := JArr(ExportSessions(ss)), "config" := ExportConfig(c)])
  }

  /** Importing an export reads back every session, with everything the export kept. */
  lemma ExportImportDoc(ss: seq<SessionData>, c: ApiConfig)
    ensures ExportDoc(ss, c).JObj? && GetArray(ExportDoc(ss, c).fields, "sessions") == Some(ExportSessions(ss))
    ensures DecodePrefix(ExportSessions(ss), ImportSession) ==
            Decoded(seq(|ss|, k requires 0 <= k < |ss| => Exported(ss[k])), true)
  {
    DecodedPrefix(ExportSessions(ss), ImportSession, seq(|ss|, k requires 0 <= k < |ss| => Exported(ss[k])));
  }

  // ---------------------------------------------------------------------------
  // Fresh values given to imported sessions and messages

  /**
   * The messages importData creates for one imported session: message j draws
   * UUID number `u + j` for its id and reads clock number `c + j`, which it
   * uses as the timestamp only when the document has none.
   */
  function MaterializeMessages(ms: seq<ImportedMessage>, u: nat, c: nat,
                               uuid: UuidSource, clock: ClockSource): seq<Message> {
    seq(|ms|, j requires 0 <= j < |ms| =>
      Message(UuidAt(uuid, u + j), ms[j].role, ms[j].content, ms[j].timestamp.GetOr(ClockAt(clock, c + j))))
  }

  /** One imported session: its updatedAt reads the clock at c, its messages draw from u and read from c + 1. */
  function MaterializeOne(s: ImportedSession, u: nat, c: nat, uuid: UuidSource, clock: ClockSource): SessionData {
    SessionData(s.id, s.title, MaterializeMessages(s.messages, u, c + 1, uuid, clock), ClockAt(clock, c))
  }

  /** How an imported session is built from the counters reached before it. */
  function SessionMaker(uuid: UuidSource, clock: ClockSource): (ImportedSession, nat, nat) -> SessionData {
    (s: ImportedSession, u: nat, c: nat) => MaterializeOne(s, u, c, uuid, clock)
  }

  /** The UUIDs an imported session draws: one per message. */
  function SessionUuids(): ImportedSession -> nat {
    (s: ImportedSession) => |s.messages|
  }

  /** The clock readings an imported session takes: one for updatedAt, one per message. */
  function SessionClocks(): ImportedSession -> nat {
    (s: ImportedSession) => 1 + |s.messages|
  }

  /**
   * The sessions importData creates, in order: each session reads the clock
   * once for its updatedAt, then once per message; each message draws one UUID.
   */
  function Materialize(ss: seq<ImportedSession>, u: nat, c: nat, uuid: UuidSource, clock: ClockSource): seq<SessionData> {
    MapSteps(ss, u, c, SessionMaker(uuid, clock), SessionUuids(), SessionClocks()).values
  }

  /** The number of messages in a list of imported sessions. */
  function MessageCount(ss: seq<ImportedSession>): nat {
    Total(ss, SessionUuids())
  }

  /** A list of imported sessions reads the clock once per session and once per message. */
  lemma {:induction false} ClockCount(ss: seq<ImportedSession>)
    ensures Total(ss, SessionClocks()) == |ss| + MessageCount(ss)
  {
    if ss != [] {
      ClockCount(ss[1..]);
      assert SessionClocks()(ss[0]) == 1 + SessionUuids()(ss[0]);
    }
  }

  /** The k-th imported session draws after the k sessions before it and all their messages. */
  lemma MaterializeAt(ss: seq<ImportedSession>, k: nat, u: nat, c: nat, uuid: UuidSource, clock: ClockSource)
    requires k < |ss|
    ensures |Materialize(ss, u, c, uuid, clock)| == |ss|
    ensures var n := MessageCount(ss[..k]);
      Materialize(ss, u, c, uuid, clock)[k] == MaterializeOne(ss[k], u + n, c + k + n, uuid, clock)
  {
    ClockCount(ss[..k]);
    MapStepsCounted(ss, k, u, c, SessionMaker(uuid, clock), SessionUuids(), SessionClocks(), MessageCount(ss[..k]));
  }

  /** The import reads every session it is given, drawing one UUID per message and one clock reading per session and per message. */
  lemma MaterializeSteps(ss: seq<ImportedSession>, u: nat, c: nat, uuid: UuidSource, clock: ClockSource)
    ensures MapSteps(ss, u, c, SessionMaker(uuid, clock), SessionUuids(), SessionClocks())
         == Run(Materialize(ss, u, c, uuid, clock), true, MessageCount(ss), |ss| + MessageCount(ss))
  {
    MapStepsTotals(ss, u, c, SessionMaker(uuid, clock), SessionUuids(), SessionClocks());
    ClockCount(ss);
  }

  /** One exported session, materialized, exports as it was. */
  lemma MaterializeOneExported(s: SessionData, u: nat, c: nat, uuid: UuidSource, clock: ClockSource)
    ensures Exported(MaterializeOne(Exported(s), u, c, uuid, clock)) == Exported(s)
  {
    var r := MaterializeOne(Exported(s), u, c, uuid, clock);
    assert Exported(r).messages == Exported(s).messages;
  }

  /**
   * Materializing an export gives back the exported sessions' ids, titles and
   * messages (role, content, timestamp), whatever ids and clock values are drawn.
   */
  lemma MaterializeExported(ss: seq<SessionData>, u: nat, c: nat, uuid: UuidSource, clock: ClockSource)
    ensures var r := Materialize(seq(|ss|, k requires 0 <= k < |ss| => Exported(ss[k])), u, c, uuid, clock);
            |r| == |ss| && forall k :: 0 <= k < |ss| ==> Exported(r[k]) == Exported(ss[k])
  {
    var ex := seq(|ss|, k requires 0 <= k < |ss| => Exported(ss[k]));
    MapStepsTotals(ex, u, c, SessionMaker(uuid, clock), SessionUuids(), SessionClocks());
    forall k | 0 <= k < |ss| ensures Exported(Materialize(ex, u, c, uuid, clock)[k]) == Exported(ss[k]) {
      MaterializeAt(ex, k, u, c, uuid, clock);
      var n := MessageCount(ex[..k]);
      assert ex[k] == Exported(ss[k]);
      MaterializeOneExported(ss[k], u + n, c + k + n, uuid, clock);
    }
  }

  // ---------------------------------------------------------------------------
  // importData step by step, with the UUIDs and clock readings it consumes

  /** What one step of the import produced, and how many UUIDs and clock readings it drew. */
  datatype Step<T> = Step(value: Option<T>, uuids: nat, clocks: nat)

  /**
   * What a loop produced before it stopped, whether it read every element,
   * and its UUID and clock figures: what it drew (RunOf, MapSteps) or the
   * counters it reached (LoopOf).
   */
  datatype Run<T> = Run(values: seq<T>, complete: bool, uuids: nat, clocks: nat)

  /** Reads one array element, given the UUID and clock counters before it. */
  type Reader<T> = (Json, nat, nat) -> Step<T>

  /** A loop that reads each element in turn and stops at the first the reader cannot read. */
  function RunOf<T>(items: seq<Json>, u: nat, c: nat, read: Reader<T>): Run<T> {
    if items == [] then Run([], true, 0, 0)
    else
      var s := read(items[0], u, c);
      match s.value
      case None => Run([], false, s.uuids, s.clocks)
      case Some(v) =>
        var r := RunOf(items[1..], u + s.uuids, c + s.clocks, read);
        Run([v] + r.values, r.complete, s.uuids + r.uuids, s.clocks + r.clocks)
  }

  /**
   * Turning already decoded elements into values one after another: make
   * builds each from the counters reached so far, after which it has drawn
   * du UUIDs and dc clock readings.
   */
  function MapSteps<D, T>(ds: seq<D>, u: nat, c: nat, make: (D, nat, nat) -> T, du: D -> nat, dc: D -> nat): Run<T> {
    if ds == [] then Run([], true, 0, 0)
    else
      var r := MapSteps(ds[1..], u + du(ds[0]), c + dc(ds[0]), make, du, dc);
      Run([make(ds[0], u, c)] + r.values, true, du(ds[0]) + r.uuids, dc(ds[0]) + r.clocks)
  }

  /** The first element built, then the rest from the counters after it. */
  lemma MapStepsCons<D, T>(ds: seq<D>, u: nat, c: nat, make: (D, nat, nat) -> T, du: D -> nat, dc: D -> nat, u': nat, c': nat)
    requires ds != [] && u' == u + du(ds[0]) && c' == c + dc(ds[0])
    ensures var r := MapSteps(ds[1..], u', c', make, du, dc);
      MapSteps(ds, u, c, make, du, dc) == Run([make(ds[0], u, c)] + r.values, true, du(ds[0]) + r.uuids, dc(ds[0]) + r.clocks)
  {
  }

  /** The sum of f over a list. */
  function Total<D>(ds: seq<D>, f: D -> nat): nat {
    if ds == [] then 0 else f(ds[0]) + Total(ds[1..], f)
  }

  /** Building never stops early: one value per element, drawing the totals of du and dc. */
  lemma {:induction false} MapStepsTotals<D, T>(ds: seq<D>, u: nat, c: nat, make: (D, nat, nat) -> T, du: D -> nat, dc: D -> nat)
    ensures var r := MapSteps(ds, u, c, make, du, dc);
      r.complete && |r.values| == |ds| && r.uuids == Total(ds, du) && r.clocks == Total(ds, dc)
  {
    if ds != [] {
      MapStepsTotals(ds[1..], u + du(ds[0]), c + dc(ds[0]), make, du, dc);
    }
  }

  /** Element k is built from the counters the elements before it leave. */
  lemma {:induction false} MapStepsAt<D, T>(ds: seq<D>, k: nat, u: nat, c: nat, make: (D, nat, nat) -> T, du: D -> nat, dc: D -> nat)
    requires k < |ds|
    ensures var r := MapSteps(ds, u, c, make, du, dc);
      k < |r.values| && r.values[k] == make(ds[k], u + Total(ds[..k], du), c + Total(ds[..k], dc))
  {
    var u', c' := u + du(ds[0]), c + dc(ds[0]);
    MapStepsCons(ds, u, c, make, du, dc, u', c');
    if k == 0 {
      assert ds[..0] == [];
    } else {
      MapStepsAt(ds[1..], k - 1, u', c', make, du, dc);
      assert ds[..k][0] == ds[0] && ds[..k][1..] == ds[1..][..k - 1];
      assert ds[1..][k - 1] == ds[k];
    }
  }

  /** Element k, when the elements before it drew n UUIDs and k + n clock readings. */
  lemma MapStepsCounted<D, T>(ds: seq<D>, k: nat, u: nat, c: nat, make: (D, nat, nat) -> T, du: D -> nat, dc: D -> nat, n: nat)
    requires k < |ds| && Total(ds[..k], du) == n && Total(ds[..k], dc) == |ds[..k]| + n
    ensures var r := MapSteps(ds, u, c, make, du, dc);
      |r.values| == |ds| && r.values[k] == make(ds[k], u + n, c + k + n)
  {
    MapStepsTotals(ds, u, c, make, du, dc);
    MapStepsAt(ds, k, u, c, make, du, dc);
  }

  /** A loop whose first element reads goes on from the counters after it. */
  lemma RunOfCons<T>(items: seq<Json>, u: nat, c: nat, read: Reader<T>, v: T, du: nat, dc: nat)
    requires items != [] && read(items[0], u, c) == Step(Some(v), du, dc)
    ensures var r := RunOf(items[1..], u + du, c + dc, read);
      RunOf(items, u, c, read) == Run([v] + r.values, r.complete, du + r.uuids, dc + r.clocks)
  {
  }

  /**
   * A loop whose every step reads exactly what decode decodes, and builds
   * it with make, keeps the decoded prefix, built in order, and stops where
   * DecodePrefix stops.
   */
  lemma {:induction false} RunOfDecodes<D, T>(items: seq<Json>, u: nat, c: nat, read: Reader<T>, decode: Json -> Option<D>,
                                              make: (D, nat, nat) -> T, du: D -> nat, dc: D -> nat)
    requires forall j, u', c' :: decode(j).Some? ==>
      read(j, u', c') == Step(Some(make(decode(j).value, u', c')), du(decode(j).value), dc(decode(j).value))
    requires forall j, u', c' :: decode(j).None? ==> read(j, u', c').value.None?
    ensures var r := RunOf(items, u, c, read);
      var d := DecodePrefix(items, decode);
      var m := MapSteps(d.values, u, c, make, du, dc);
      && r.values == m.values && r.complete == d.complete
      && (r.complete ==> r.uuids == m.uuids && r.clocks == m.clocks)
  {
    if items != [] {
      match decode(items[0])
      case None =>
        assert read(items[0], u, c).value.None?;
      case Some(v) =>
        var rest := DecodePrefix(items[1..], decode);
        assert DecodePrefix(items, decode).values == [v] + rest.values;
        assert ([v] + rest.values)[0] == v && ([v] + rest.values)[1..] == rest.values;
        assert read(items[0], u, c) == Step(Some(make(v, u, c)), du(v), dc(v));
        RunOfDecodes(items[1..], u + du(v), c + dc(v), read, decode, make, du, dc);
    }
  }

  /**
   * The same loop from element k on, as a program runs it: acc holds what
   * was read so far, u and c are the counters.
   */
  function LoopOf<T>(items: seq<Json>, k: nat, acc: seq<T>, u: nat, c: nat, read: Reader<T>): Run<T>
    requires k <= |items|
    decreases |items| - k
  {
    if k == |items| then Run(acc, true, u, c)
    else
      var s := read(items[k], u, c);
      match s.value
      case None => Run(acc, false, u + s.uuids, c + s.clocks)
      case Some(v) => LoopOf(items, k + 1, acc + [v], u + s.uuids, c + s.clocks, read)
  }

  /** One turn of the loop: element k reads, so the loop goes on after it with that value appended. */
  lemma LoopOfNext<T>(items: seq<Json>, k: nat, acc: seq<T>, u: nat, c: nat, read: Reader<T>, v: T, u': nat, c': nat)
    requires k < |items|
    requires var s := read(items[k], u, c); s.value == Some(v) && u' == u + s.uuids && c' == c + s.clocks
    ensures LoopOf(items, k, acc, u, c, read) == LoopOf(items, k + 1, acc + [v], u', c', read)
  {
  }

  /** The loop from element k on appends what RunOf reads from element k on, and draws what it draws. */
  lemma {:induction false} LoopOfRun<T>(items: seq<Json>, k: nat, acc: seq<T>, u: nat, c: nat, read: Reader<T>)
    requires k <= |items|
    ensures var r := RunOf(items[k..], u, c, read);
      LoopOf(items, k, acc, u, c, read) == Run(acc + r.values, r.complete, u + r.uuids, c + r.clocks)
    decreases |items| - k
  {
    if k == |items| {
      assert items[k..] == [] && acc + [] == acc;
    } else {
      assert items[k..][0] == items[k] && items[k..][1..] == items[k + 1..];
      var s := read(items[k], u, c);
      if s.value.Some? {
        LoopOfRun(items, k + 1, acc + [s.value.value], u + s.uuids, c + s.clocks, read);
        var r := RunOf(items[k + 1..], u + s.uuids, c + s.clocks, read);
        assert acc + ([s.value.value] + r.values) == (acc + [s.value.value]) + r.values;
      } else {
        assert acc + [] == acc;
      }
    }
  }

  /** From the start, the loop produces and draws what RunOf does. */
  lemma LoopOfRunFromStart<T>(items: seq<Json>, u: nat, c: nat, read: Reader<T>)
    ensures var r := RunOf(items, u, c, read);
      LoopOf(items, 0, [], u, c, read) == Run(r.values, r.complete, u + r.uuids, c + r.clocks)
  {
    LoopOfRun(items, 0, [], u, c, read);
    assert items[0..] == items && [] + RunOf(items, u, c, read).values == RunOf(items, u, c, read).values;
  }

  /**
   * One element of an imported messages array (lines 230-235): role and
   * content first (a failure there draws nothing), then the clock for the
   * optLong fallback, then a UUID for the message id.
   */
  function MessageStep(j: Json, u: nat, c: nat, uuid: UuidSource, clock: ClockSource): Step<Message> {
    match ImportMessage(j)
    case None => Step(None, 0, 0)
    case Some(m) => Step(Some(Message(UuidAt(uuid, u), m.role, m.content, m.timestamp.GetOr(ClockAt(clock, c)))), 1, 1)
  }

  function MessageReader(uuid: UuidSource, clock: ClockSource): Reader<Message> {
    (j: Json, u: nat, c: nat) => MessageStep(j, u, c, uuid, clock)
  }

  /** The inner loop of importData (lines 229-236): the messages read before the first that fails. */
  function MessagesRun(items: seq<Json>, u: nat, c: nat, uuid: UuidSource, clock: ClockSource): Run<Message> {
    RunOf(items, u, c, MessageReader(uuid, clock))
  }

  /**
   * One element of the sessions array (lines 223-237): id and title, then a
   * clock reading for updatedAt, then the messages array and its messages.
   */
  function SessionStep(j: Json, u: nat, c: nat, uuid: UuidSource, clock: ClockSource): Step<SessionData> {
    if !j.JObj? then Step(None, 0, 0)
    else match (GetString(j.fields, "id"), GetString(j.fields, "title"))
      case (Some(id), Some(title)) =>
        (match GetArray(j.fields, "messages")
         case None => Step(None, 0, 1)
         case Some(items) =>
           var r := MessagesRun(items, u, c + 1, uuid, clock);
           Step(if r.complete then Some(SessionData(id, title, r.values, ClockAt(clock, c))) else None, r.uuids, 1 + r.clocks))
      case _ => Step(None, 0, 0)
  }

  function SessionReader(uuid: UuidSource, clock: ClockSource): Reader<SessionData> {
    (j: Json, u: nat, c: nat) => SessionStep(j, u, c, uuid, clock)
  }

  /** The outer loop of importData (lines 222-238): the sessions read before the first that fails. */
  function SessionsRun(items: seq<Json>, u: nat, c: nat, uuid: UuidSource, clock: ClockSource): Run<SessionData> {
    RunOf(items, u, c, SessionReader(uuid, clock))
  }

  /** The inner loop reads every message exactly when each can be read, and then creates what MaterializeMessages describes. */
  lemma {:induction false} MessagesRunDecodes(items: seq<Json>, u: nat, c: nat, uuid: UuidSource, clock: ClockSource)
    ensures var r := MessagesRun(items, u, c, uuid, clock);
      && (r.complete <==> DecodeAll(items, ImportMessage).Some?)
      && (r.complete ==>
            && r.values == MaterializeMessages(DecodeAll(items, ImportMessage).value, u, c, uuid, clock)
            && r.uuids == |items| && r.clocks == |items|)
  {
    if items != [] {
      var m := ImportMessage(items[0]);
      if m.Some? {
        var v := Message(UuidAt(uuid, u), m.value.role, m.value.content, m.value.timestamp.GetOr(ClockAt(clock, c)));
        var read := MessageReader(uuid, clock);
        assert read(items[0], u, c) == Step(Some(v), 1, 1);
        RunOfCons(items, u, c, read, v, 1, 1);
        MessagesRunDecodes(items[1..], u + 1, c + 1, uuid, clock);
        var r1 := MessagesRun(items[1..], u + 1, c + 1, uuid, clock);
        var d1 := DecodeAll(items[1..], ImportMessage);
        if r1.complete {
          var ms := [m.value] + d1.value;
          assert DecodeAll(items, ImportMessage) == Some(ms);
          MaterializeMessagesCons(ms, u, c, uuid, clock);
          assert ms[1..] == d1.value;
        } else {
          assert DecodeAll(items, ImportMessage).None?;
        }
      } else {
        assert MessageStep(items[0], u, c, uuid, clock).value.None?;
      }
    }
  }

  /** The first imported message draws first; the others draw from the counters after it. */
  lemma MaterializeMessagesCons(ms: seq<ImportedMessage>, u: nat, c: nat, uuid: UuidSource, clock: ClockSource)
    requires ms != []
    ensures MaterializeMessages(ms, u, c, uuid, clock)
         == [Message(UuidAt(uuid, u), ms[0].role, ms[0].content, ms[0].timestamp.GetOr(ClockAt(clock, c)))]
            + MaterializeMessages(ms[1..], u + 1, c + 1, uuid, clock)
  {
    var r := MaterializeMessages(ms, u, c, uuid, clock);
    var rest := MaterializeMessages(ms[1..], u + 1, c + 1, uuid, clock);
    forall j | 1 <= j < |ms| ensures r[j] == rest[j - 1] {
      assert ms[1..][j - 1] == ms[j];
    }
  }

  /** One step reads a session exactly when ImportSession can, and then creates what MaterializeOne describes. */
  lemma SessionStepDecodes(j: Json, u: nat, c: nat, uuid: UuidSource, clock: ClockSource)
    ensures var s := SessionStep(j, u, c, uuid, clock);
      && (s.value.Some? <==> ImportSession(j).Some?)
      && (s.value.Some? ==>
            && s.value.value == MaterializeOne(ImportSession(j).value, u, c, uuid, clock)
            && s.uuids == |ImportSession(j).value.messages|
            && s.clocks == 1 + |ImportSession(j).value.messages|)
  {
    if j.JObj? && GetArray(j.fields, "messages").Some? {
      MessagesRunDecodes(GetArray(j.fields, "messages").value, u, c + 1, uuid, clock);
    }
  }

  /**
   * The step-by-step import agrees with the declarative one: the sessions it
   * keeps are those DecodePrefix reads, materialized; it reads them all
   * exactly when DecodePrefix does, and then it draws one UUID per message
   * and one clock reading per session and per message.
   */
  lemma SessionsRunDecodes(items: seq<Json>, u: nat, c: nat, uuid: UuidSource, clock: ClockSource)
    ensures var r := SessionsRun(items, u, c, uuid, clock);
      var d := DecodePrefix(items, ImportSession);
      && r.values == Materialize(d.values, u, c, uuid, clock)
      && r.complete == d.complete
      && (r.complete ==> r.uuids == MessageCount(d.values) && r.clocks == |d.values| + MessageCount(d.values))
  {
    var read := SessionReader(uuid, clock);
    var make, du, dc := SessionMaker(uuid, clock), SessionUuids(), SessionClocks();
    forall j: Json, u: nat, c: nat
      ensures ImportSession(j).Some? ==>
        read(j, u, c) == Step(Some(make(ImportSession(j).value, u, c)), du(ImportSession(j).value), dc(ImportSession(j).value))
      ensures ImportSession(j).None? ==> read(j, u, c).value.None?
    {
      SessionStepDecodes(j, u, c, uuid, clock);
    }
    RunOfDecodes(items, u, c, read, ImportSession, make, du, dc);
    MaterializeSteps(DecodePrefix(items, ImportSession).values, u, c, uuid, clock);
  }
}
