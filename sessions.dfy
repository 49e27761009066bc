/**
 * Chat sessions as mutable objects, and the pure functions over lists of
 * them that the chat store uses: lookup by id, removal by id, the title
 * rule, the list position a message replacement writes to, and the ordering
 * of getAllSessions.
 */
module Sessions {
  import opened Wrappers
  import opened Entities

  /** A chat session: its id is fixed, its title, messages and updatedAt change in place. */
  class Session {
    const id: string
    var title: string
    var messages: seq<Message>
    var updatedAt: int

    constructor (id: string, title: string, updatedAt: int)
      ensures this.id == id && this.title == title && this.updatedAt == updatedAt
      ensures messages == []
    {
      this.id := id;
      this.title := title;
      this.updatedAt := updatedAt;
      messages := [];
    }

    /** The session's current value. */
    function Data(): SessionData
      reads this
    {
      SessionData(id, title, messages, updatedAt)
    }
  }

  /** A new session object holding the given value. */
  method NewSession(d: SessionData) returns (s: Session)
    ensures fresh(s) && s.Data() == d
  {
    s := new Session(d.id, d.title, d.updatedAt);
    s.messages := d.messages;
  }

  /** The values of a list of sessions, in list order. */
  function DataOf(ss: seq<Session>): (r: seq<SessionData>)
    reads ss
    ensures |r| == |ss| && forall k :: 0 <= k < |ss| ==> r[k] == ss[k].Data()
  {
    seq(|ss|, k reads ss requires 0 <= k < |ss| => ss[k].Data())
  }

  lemma DataOfCons(s: Session, ss: seq<Session>)
    ensures DataOf([s] + ss) == [s.Data()] + DataOf(ss)
  {
    assert forall k :: 1 <= k < |ss| + 1 ==> ([s] + ss)[k] == ss[k - 1];
  }

  // ---------------------------------------------------------------------------
  // Lookup and removal by id

  /** The position of the first session with the given id (the list's `find`). */
  function FindById(ss: seq<Session>, id: string): (r: Option<nat>)
    ensures r.Some? ==> r.value < |ss| && ss[r.value].id == id
    ensures r.Some? ==> forall k :: 0 <= k < r.value ==> ss[k].id != id
    ensures r.None? ==> forall k :: 0 <= k < |ss| ==> ss[k].id != id
  {
    if ss == [] then None
    else if ss[0].id == id then Some(0)
    else match FindById(ss[1..], id)
      case None => None
      case Some(k) => Some(k + 1)
  }

  /** The list without every session that has the given id (the list's `removeAll`). */
  function WithoutId(ss: seq<Session>, id: string): (r: seq<Session>)
    ensures |r| <= |ss|
    ensures forall k :: 0 <= k < |r| ==> r[k] in ss && r[k].id != id
    ensures forall k :: 0 <= k < |ss| && ss[k].id != id ==> ss[k] in r
  {
    if ss == [] then []
    else (if ss[0].id == id then [] else [ss[0]]) + WithoutId(ss[1..], id)
  }

  /** Removal distributes over concatenation: what survives keeps its relative order. */
  lemma {:induction false} WithoutIdAppend(a: seq<Session>, b: seq<Session>, id: string)
    ensures WithoutId(a + b, id) == WithoutId(a, id) + WithoutId(b, id)
  {
    if a == [] {
      assert a + b == b;
    } else {
      assert (a + b)[0] == a[0];
      assert (a + b)[1..] == a[1..] + b;
      WithoutIdAppend(a[1..], b, id);
    }
  }

  /** A list with no session of that id is left exactly as it was. */
  lemma {:induction false} WithoutAbsentId(ss: seq<Session>, id: string)
    requires forall k :: 0 <= k < |ss| ==> ss[k].id != id
    ensures WithoutId(ss, id) == ss
  {
    if ss != [] {
      WithoutAbsentId(ss[1..], id);
    }
  }

  // ---------------------------------------------------------------------------
  // Title rule of addMessage

  function Min(a: int, b: int): int { if a <= b then a else b }

  /**
   * The title after a message is added: a session still titled with the
   * placeholder takes its title from the first user message, cut to 30
   * characters and marked with "..." when it was longer: the `if` around
   * `content.take(30)` in addMessage. Its properties are lemma TitleRule.
   */
  function TitleAfter(title: string, role: string, content: string): string
  {
    if title == DefaultTitle && role == "user" then
      content[..Min(|content|, 30)] + (if |content| > 30 then "..." else "")
    else title
  }

  /**
   * Only a placeholder title meeting a user message changes; the new title
   * starts with the content's first 30 characters and ends in "..." exactly
   * when the content was longer.
   */
  lemma TitleRule(title: string, role: string, content: string)
    ensures var t := TitleAfter(title, role, content);
      && (!(title == DefaultTitle && role == "user") ==> t == title)
      && (title == DefaultTitle && role == "user" ==>
        && |t| == (if |content| > 30 then 33 else |content|)
        && t[..Min(|content|, 30)] == content[..Min(|content|, 30)]
        && (|content| > 30 ==> t[30..] == "..."))
  {
  }

  /** A derived title is at most 33 characters, and is the content itself when that fits. */
  lemma DerivedTitleBounds(content: string)
    ensures |TitleAfter(DefaultTitle, "user", content)| <= 33
    ensures |content| <= 30 ==> TitleAfter(DefaultTitle, "user", content) == content
  {
    TitleRule(DefaultTitle, "user", content);
  }

  // ---------------------------------------------------------------------------
  // Position written by updateLastMessage

  /** The first position holding a message equal to m, or -1 (the list's `indexOf`). */
  function IndexOf(ms: seq<Message>, m: Message): (r: int)
    ensures -1 <= r < |ms|
    ensures r >= 0 ==> ms[r] == m && forall k :: 0 <= k < r ==> ms[k] != m
    ensures r == -1 <==> m !in ms
  {
    if ms == [] then -1
    else if ms[0] == m then 0
    else
      var k := IndexOf(ms[1..], m);
      if k == -1 then -1 else k + 1
  }

  /** The list after the content of its last message is replaced, written where indexOf finds that message. */
  function ReplaceLastContent(ms: seq<Message>, content: string): (r: seq<Message>)
    requires ms != []
    ensures |r| == |ms|
    ensures var i := IndexOf(ms, ms[|ms| - 1]);
      0 <= i && r[i] == ms[|ms| - 1].(content := content) &&
      forall k :: 0 <= k < |ms| && k != i ==> r[k] == ms[k]
  {
    var last := ms[|ms| - 1];
    ms[IndexOf(ms, last) := last.(content := content)]
  }

  /** When the last message occurs only once, the replacement hits exactly the last message. */
  lemma {:induction false} ReplaceLastWhenUnique(ms: seq<Message>, content: string)
    requires ms != []
    requires forall k :: 0 <= k < |ms| - 1 ==> ms[k] != ms[|ms| - 1]
    ensures ReplaceLastContent(ms, content) == ms[..|ms| - 1] + [ms[|ms| - 1].(content := content)]
  {
    var i := IndexOf(ms, ms[|ms| - 1]);
    assert i == |ms| - 1;
  }

  /**
   * When a message equal to the last one comes earlier, the replacement
   * lands on the first such copy, at or before it, and the last message is
   * left as it was.
   */
  lemma ReplaceLastWithDuplicate(ms: seq<Message>, k: nat, content: string)
    requires k < |ms| - 1 && ms[k] == ms[|ms| - 1]
    ensures var i := IndexOf(ms, ms[|ms| - 1]);
      && i <= k
      && ReplaceLastContent(ms, content)[i] == ms[|ms| - 1].(content := content)
      && ReplaceLastContent(ms, content)[|ms| - 1] == ms[|ms| - 1]
  {
  }

  // ---------------------------------------------------------------------------
  // Ordering of getAllSessions (`sortedByDescending { it.updatedAt }`, a stable sort)

  /** Most recently updated first. */
  ghost predicate SortedByRecency(ss: seq<Session>)
    reads ss
  {
    forall i, j :: 0 <= i < j < |ss| ==> ss[i].updatedAt >= ss[j].updatedAt
  }

  /** The sessions with updatedAt equal to t, in list order. */
  function WithUpdatedAt(ss: seq<Session>, t: int): (r: seq<Session>)
    reads ss
  {
    if ss == [] then []
    else (if ss[0].updatedAt == t then [ss[0]] else []) + WithUpdatedAt(ss[1..], t)
  }

  /** Insert x before the first session not more recent than x. */
  function InsertByRecency(x: Session, ss: seq<Session>): (r: seq<Session>)
    reads x, ss
    ensures forall k :: 0 <= k < |r| ==> r[k] == x || r[k] in ss
  {
    if ss == [] || ss[0].updatedAt <= x.updatedAt then [x] + ss
    else [ss[0]] + InsertByRecency(x, ss[1..])
  }

  /** One insertion step of the sort adds exactly x. */
  lemma {:induction false} InsertPermutes(x: Session, ss: seq<Session>)
    ensures multiset(InsertByRecency(x, ss)) == multiset(ss) + multiset{x}
  {
    if ss != [] && ss[0].updatedAt > x.updatedAt {
      InsertPermutes(x, ss[1..]);
      assert ss == [ss[0]] + ss[1..];
    }
  }

  /** Inserting into a sorted list keeps it sorted. */
  lemma {:induction false} InsertSorted(x: Session, ss: seq<Session>)
    requires SortedByRecency(ss)
    ensures SortedByRecency(InsertByRecency(x, ss))
  {
    if ss != [] && ss[0].updatedAt > x.updatedAt {
      InsertSorted(x, ss[1..]);
      var rest := InsertByRecency(x, ss[1..]);
      forall k | 0 <= k < |rest| ensures ss[0].updatedAt >= rest[k].updatedAt {
        if rest[k] != x {
          var i :| 0 <= i < |ss[1..]| && ss[1..][i] == rest[k];
          assert ss[1..][i] == ss[i + 1];
        }
      }
    }
  }

  /** The sessions with updatedAt t in a list with a head: the head when it qualifies, then those of the rest. */
  lemma WithUpdatedAtCons(s: Session, ss: seq<Session>, t: int)
    ensures WithUpdatedAt([s] + ss, t) == (if s.updatedAt == t then [s] else []) + WithUpdatedAt(ss, t)
  {
    assert ([s] + ss)[0] == s && ([s] + ss)[1..] == ss;
  }

  /** Inserting x puts it ahead of every session with the same updatedAt and leaves the others' order. */
  lemma {:induction false} InsertStable(x: Session, ss: seq<Session>, t: int)
    ensures WithUpdatedAt(InsertByRecency(x, ss), t) ==
            (if x.updatedAt == t then [x] + WithUpdatedAt(ss, t) else WithUpdatedAt(ss, t))
  {
    if ss == [] || ss[0].updatedAt <= x.updatedAt {
      assert InsertByRecency(x, ss) == [x] + ss;
      WithUpdatedAtCons(x, ss, t);
    } else {
      var rest := InsertByRecency(x, ss[1..]);
      assert InsertByRecency(x, ss) == [ss[0]] + rest;
      InsertStable(x, ss[1..], t);
      assert ss == [ss[0]] + ss[1..];
      InsertStableStep(x, ss[0], ss[1..], rest, t);
    }
  }

  /** The step of InsertStable past a head s strictly more recent than x. */
  lemma InsertStableStep(x: Session, s: Session, tail: seq<Session>, rest: seq<Session>, t: int)
    requires s.updatedAt > x.updatedAt
    requires WithUpdatedAt(rest, t) == (if x.updatedAt == t then [x] + WithUpdatedAt(tail, t) else WithUpdatedAt(tail, t))
    ensures WithUpdatedAt([s] + rest, t) ==
            (if x.updatedAt == t then [x] + WithUpdatedAt([s] + tail, t) else WithUpdatedAt([s] + tail, t))
  {
    WithUpdatedAtCons(s, rest, t);
    WithUpdatedAtCons(s, tail, t);
    if x.updatedAt == t {
      // s is strictly more recent than x, so it is not among them
      assert WithUpdatedAt([s] + rest, t) == [] + ([x] + WithUpdatedAt(tail, t));
      assert WithUpdatedAt([s] + tail, t) == [] + WithUpdatedAt(tail, t);
    }
  }

  /** A stable sort by updatedAt, most recent first. */
  function SortByRecency(ss: seq<Session>): (r: seq<Session>)
    reads ss
    ensures forall k :: 0 <= k < |r| ==> r[k] in ss
  {
    if ss == [] then [] else InsertByRecency(ss[0], SortByRecency(ss[1..]))
  }

  /** getAllSessions returns a permutation of the stored sessions. */
  lemma {:induction false} SortPermutes(ss: seq<Session>)
    ensures multiset(SortByRecency(ss)) == multiset(ss)
  {
    if ss != [] {
      var rest := SortByRecency(ss[1..]);
      assert SortByRecency(ss) == InsertByRecency(ss[0], rest);
      SortPermutes(ss[1..]);
      InsertPermutes(ss[0], rest);
      assert multiset(ss) == multiset(ss[1..]) + multiset{ss[0]} by {
        assert ss == [ss[0]] + ss[1..];
      }
    }
  }

  /** getAllSessions lists the sessions most recently updated first. */
  lemma {:induction false} SortedSorted(ss: seq<Session>)
    ensures SortedByRecency(SortByRecency(ss))
  {
    if ss != [] {
      SortedSorted(ss[1..]);
      InsertSorted(ss[0], SortByRecency(ss[1..]));
    }
  }

  /** Sessions with equal updatedAt keep their stored relative order. */
  lemma {:induction false} SortStable(ss: seq<Session>, t: int)
    ensures WithUpdatedAt(SortByRecency(ss), t) == WithUpdatedAt(ss, t)
  {
    if ss != [] {
      SortStable(ss[1..], t);
      InsertStable(ss[0], SortByRecency(ss[1..]), t);
    }
  }
}
