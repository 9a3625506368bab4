/**
 * The live conversation buffer, the transcript it is rebuilt from after a restart, and clearing a chat. Clock readings
 * inside one call are taken to agree; a transcript row is stamped with the time of the call that wrote it.
 */
module ConversationMemory {
  import opened Prelude
  import opened Turns

  type UserId = string
  type Key = string

  datatype Row = Row(user: UserId, thread: Option<int>, role: Role, content: string, createdAt: int, id: nat)

  const BUFFER_CLIP: nat := 1000
  const TRANSCRIPT_CLIP: nat := 8000
  const RESTORE_LIMIT: nat := 500
  const CONTEXT_MS := 6 * 3600 * 1000

  /**
   * `buffer` and `clearedAt` live in memory, `transcript` and `chatClears` in the database. `said` counts the turns so
   * far and `clearedTurn` remembers that count at each persisted clear; both are bookkeeping for the claims.
   */
  datatype State = State(
    now: int,
    buffer: map<Key, seq<Turn>>,
    clearedAt: map<UserId, int>,
    transcript: seq<Row>,
    chatClears: map<UserId, int>,
    said: nat,
    clearedTurn: map<UserId, nat>)

  datatype Event =
    | Tick(elapsed: nat)
    | Store(user: UserId, thread: Option<int>, userText: string, agentText: string)
    | AddContext(user: UserId, thread: Option<int>, role: Role, text: string)
    | Clear(user: UserId, persisted: bool)
    | Restart(clearsRead: bool)

  /** conversationKey for a user id that is already a non-empty string. */
  function ConversationKey(user: UserId, thread: Option<int>): Key {
    if thread.Some? && thread.value > 0 then user + "#" + Dec(thread.value) else user
  }

  function TurnsAt(buffer: map<Key, seq<Turn>>, key: Key): seq<Turn> {
    if key in buffer then buffer[key] else []
  }

  function ClearTime(clears: map<UserId, int>, user: UserId): int {
    if user in clears then clears[user] else 0
  }

  predicate Dropped(key: Key, user: UserId) {
    key == user || user + "#" <= key
  }

  function TurnOf(r: Row): Turn {
    Turn(r.role, Clip(r.content, BUFFER_CLIP), r.createdAt, r.id)
  }

  /** One side of an exchange, as a transcript row and as a buffered turn; an empty side leaves neither. */
  function RowIf(user: UserId, thread: Option<int>, role: Role, text: string, now: int, id: nat): seq<Row> {
    if text == "" then [] else [Row(user, thread, role, Clip(text, TRANSCRIPT_CLIP), now, id)]
  }

  function TurnIf(role: Role, text: string, now: int, id: nat): seq<Turn> {
    if text == "" then [] else [Turn(role, Clip(text, BUFFER_CLIP), now, id)]
  }

  function AnswerId(said: nat, userText: string): nat {
    if userText == "" then said else said + 1
  }

  function NewRows(s: State, user: UserId, thread: Option<int>, userText: string, agentText: string): seq<Row> {
    RowIf(user, thread, User, userText, s.now, s.said)
    + RowIf(user, thread, Assistant, agentText, s.now, AnswerId(s.said, userText))
  }

  function NewTurns(s: State, userText: string, agentText: string): seq<Turn> {
    TurnIf(User, userText, s.now, s.said) + TurnIf(Assistant, agentText, s.now, AnswerId(s.said, userText))
  }

  /** What the restart's replay does with rows, oldest first. */
  function Replay(buffer: map<Key, seq<Turn>>, clears: map<UserId, int>, rows: seq<Row>): map<Key, seq<Turn>> {
    if rows == [] then buffer else
      var r := rows[|rows| - 1];
      var before := Replay(buffer, clears, rows[..|rows| - 1]);
      if r.createdAt <= ClearTime(clears, r.user) then before else
        var key := ConversationKey(r.user, r.thread);
        before[key := LastN(TurnsAt(before, key) + [TurnOf(r)], MAX_TURNS)]
  }

  /** The rows not older than a time, in insertion order: the query without its limit. */
  function RowsSince(rows: seq<Row>, since: int): seq<Row> {
    if rows == [] then [] else
      var r := rows[|rows| - 1];
      RowsSince(rows[..|rows| - 1], since) + (if r.createdAt >= since then [r] else [])
  }

  /** Push, drop what is older than the window, keep the last ten. */
  function Written(buffer: map<Key, seq<Turn>>, key: Key, added: seq<Turn>, now: int): map<Key, seq<Turn>> {
    buffer[key := LastN(After(TurnsAt(buffer, key) + added, now - WINDOW_MS), MAX_TURNS)]
  }

  function Apply(s: State, e: Event): State {
    match e
    case Tick(d) => s.(now := s.now + d)
    case Store(user, thread, userText, agentText) =>
      var added := NewTurns(s, userText, agentText);
      s.(buffer := Written(s.buffer, ConversationKey(user, thread), added, s.now),
         transcript := s.transcript + NewRows(s, user, thread, userText, agentText),
         said := s.said + |added|)
    case AddContext(user, thread, role, text) =>
      var key := ConversationKey(user, thread);
      var turn := Turn(role, Clip(text, BUFFER_CLIP), s.now, s.said);
      s.(buffer := s.buffer[key := LastN(After(TurnsAt(s.buffer, key), s.now - WINDOW_MS) + [turn], MAX_TURNS)],
         said := s.said + 1)
    case Clear(user, persisted) =>
      var t := s.(
        buffer := map key | key in s.buffer && !Dropped(key, user) :: s.buffer[key],
        clearedAt := s.clearedAt[user := s.now]);
      if persisted
      then t.(chatClears := s.chatClears[user := s.now], clearedTurn := s.clearedTurn[user := s.said])
      else t
    case Restart(clearsRead) =>
      var clears := if clearsRead then s.chatClears else map[];
      var recent := LastN(RowsSince(s.transcript, s.now - WINDOW_MS), RESTORE_LIMIT);
      s.(clearedAt := clears, buffer := Replay(map[], clears, recent))
  }

  function Run(s: State, es: seq<Event>): State
    decreases |es|
  {
    if es == [] then s else Run(Apply(s, es[0]), es[1..])
  }

  ghost predicate Start(s: State) {
    s.now > 0 && s.buffer == map[] && s.clearedAt == map[] && s.transcript == [] && s.chatClears == map[]
    && s.said == 0 && s.clearedTurn == map[]
  }

  // ---------------------------------------------------------------- conversation keys

  /** The id of one user spells out a topic of another. */
  ghost predicate IsTopicOf(v: UserId, u: UserId) {
    exists n: nat :: n > 0 && v == u + "#" + Dec(n)
  }

  /** No two users share a conversation key. */
  ghost predicate KeysApart(ids: set<UserId>) {
    forall u, v :: u in ids && v in ids ==> !IsTopicOf(v, u)
  }

  /** No user's clear reaches another user's conversations. */
  ghost predicate ClearsApart(ids: set<UserId>) {
    forall u, v :: u in ids && v in ids ==> !(u + "#" <= v)
  }

  /**
   * Clearing user u drops a conversation of user v exactly when v is u, or v's id extends u's with a '#', or u's id
   * spells out that very topic.
   */
  lemma ClearDropsExactly(u: UserId, v: UserId, thread: Option<int>)
    ensures Dropped(ConversationKey(v, thread), u) <==>
      || v == u
      || u + "#" <= v
      || (thread.Some? && thread.value > 0 && u == v + "#" + Dec(thread.value))
  {
    var key := ConversationKey(v, thread);
    if thread.Some? && thread.value > 0 {
      DecDigits(thread.value);
      assert key[..|v|] == v && key[|v|] == '#';
      if u + "#" <= key {
        assert key[|u|] == '#';
        assert |u| <= |v| by {
          assert forall i :: |v| < i < |key| ==> key[i] == Dec(thread.value)[i - |v| - 1] && IsDigit(key[i]);
        }
        assert u == key[..|u|];
        if |u| < |v| {
          assert v[|u|] == '#' && v[..|u|] == u;
          assert u + "#" <= v;
        }
      }
      if u + "#" <= v {
        assert v[..|u| + 1] == u + "#" && key[..|u| + 1] == v[..|u| + 1];
      }
    }
  }

  lemma TopicExtends(u: UserId, n: nat)
    ensures u + "#" <= u + "#" + Dec(n)
  {
  }

  lemma ApartClears(ids: set<UserId>)
    requires ClearsApart(ids)
    ensures KeysApart(ids)
  {
    forall u, n: nat ensures u + "#" <= u + "#" + Dec(n) {
      TopicExtends(u, n);
    }
  }

  /** Among users kept apart, a clear drops the user's own conversations and no others. */
  lemma ClearDropsOwn(ids: set<UserId>, u: UserId, v: UserId, thread: Option<int>)
    requires ClearsApart(ids) && u in ids && v in ids
    ensures Dropped(ConversationKey(v, thread), u) <==> v == u
  {
    ClearDropsExactly(u, v, thread);
    if thread.Some? && thread.value > 0 {
      TopicExtends(v, thread.value);
    }
  }

  /** Two topics with one key are topics of one user: what follows the last '#' is digits. */
  lemma TopicKeyNamesUser(u: UserId, n: nat, v: UserId, m: nat)
    requires u + "#" + Dec(n) == v + "#" + Dec(m) && |u| <= |v|
    ensures u == v
  {
    var key := u + "#" + Dec(n);
    DecDigits(n);
    assert forall i :: |u| < i < |key| ==> key[i] == Dec(n)[i - |u| - 1] && IsDigit(key[i]);
    assert (v + "#" + Dec(m))[|v|] == '#' && (v + "#" + Dec(m))[..|v|] == v && key[..|u|] == u;
  }

  lemma NotTopicOf(v: UserId, u: UserId, n: nat)
    requires n > 0 && !IsTopicOf(v, u)
    ensures v != u + "#" + Dec(n)
  {
  }

  lemma KeyNamesUser(ids: set<UserId>, u: UserId, t: Option<int>, v: UserId, w: Option<int>)
    requires KeysApart(ids) && u in ids && v in ids && ConversationKey(u, t) == ConversationKey(v, w)
    ensures u == v
  {
    if t.Some? && t.value > 0 {
      NotTopicOf(v, u, t.value);
    }
    if w.Some? && w.value > 0 {
      NotTopicOf(u, v, w.value);
    }
    if t.Some? && t.value > 0 && w.Some? && w.value > 0 {
      if |u| <= |v| {
        TopicKeyNamesUser(u, t.value, v, w.value);
      } else {
        TopicKeyNamesUser(v, w.value, u, t.value);
      }
    }
  }

  /** Every user an event names is among these, and a restart can read the saved clears. */
  ghost predicate Usual(ids: set<UserId>, e: Event) {
    && ((e.Store? || e.AddContext? || e.Clear?) ==> e.user in ids)
    && (e.Restart? ==> e.clearsRead)
  }

  // ---------------------------------------------------------------- the buffer is a window of the whole history

  /** The simple form: every turn since the last clear of its conversation, and when it was last written. */
  datatype Reference = Reference(history: map<Key, seq<Turn>>, lastWrite: map<Key, int>)

  function Said(r: Reference, key: Key, turns: seq<Turn>, now: int): Reference {
    Reference(r.history[key := TurnsAt(r.history, key) + turns], r.lastWrite[key := now])
  }

  function Note(r: Reference, s: State, e: Event): Reference {
    match e
    case Store(user, thread, userText, agentText) =>
      Said(r, ConversationKey(user, thread), NewTurns(s, userText, agentText), s.now)
    case AddContext(user, thread, role, text) =>
      Said(r, ConversationKey(user, thread), [Turn(role, Clip(text, BUFFER_CLIP), s.now, s.said)], s.now)
    case Clear(user, _) =>
      Reference(
        map key | key in r.history && !Dropped(key, user) :: r.history[key],
        map key | key in r.lastWrite && !Dropped(key, user) :: r.lastWrite[key])
    case _ => r
  }

  function NoteAll(r: Reference, s: State, es: seq<Event>): Reference
    decreases |es|
  {
    if es == [] then r else NoteAll(Note(r, s, es[0]), Apply(s, es[0]), es[1..])
  }

  ghost predicate RefinesAt(buffer: map<Key, seq<Turn>>, r: Reference, now: int, k: Key) {
    && (k in buffer <==> k in r.history)
    && (k in r.history <==> k in r.lastWrite)
    && (k in r.history ==>
          && r.lastWrite[k] <= now
          && Ordered(r.history[k], now)
          && buffer[k] == Window(r.history[k], r.lastWrite[k]))
  }

  ghost predicate Refines(buffer: map<Key, seq<Turn>>, r: Reference, now: int) {
    forall k :: RefinesAt(buffer, r, now, k)
  }

  lemma AppendNow(history: seq<Turn>, added: seq<Turn>, now: int)
    requires Ordered(history, now) && forall m :: m in added ==> m.ts == now
    ensures Ordered(history + added, now)
  {
  }

  lemma WriteWindow(held: seq<Turn>, history: seq<Turn>, w: int, added: seq<Turn>, now: int)
    requires held == Window(history, w) && w <= now && Ordered(history, now)
    requires forall m :: m in added ==> m.ts == now
    ensures LastN(After(held + added, now - WINDOW_MS), MAX_TURNS) == Window(history + added, now)
    ensures Ordered(history + added, now)
  {
    AppendNow(history, added, now);
    WindowIncrement(history, w, added, now);
  }

  lemma WriteRefines(buffer: map<Key, seq<Turn>>, r: Reference, key: Key, added: seq<Turn>, now: int)
    requires Refines(buffer, r, now) && forall m :: m in added ==> m.ts == now
    ensures Refines(Written(buffer, key, added, now), Said(r, key, added, now), now)
  {
    assert RefinesAt(buffer, r, now, key);
    var w := if key in r.history then r.lastWrite[key] else now;
    WriteWindow(TurnsAt(buffer, key), TurnsAt(r.history, key), w, added, now);
    forall k ensures RefinesAt(Written(buffer, key, added, now), Said(r, key, added, now), now, k) {
      assert RefinesAt(buffer, r, now, k);
    }
  }

  lemma NewTurnsNow(s: State, userText: string, agentText: string)
    ensures forall m :: m in NewTurns(s, userText, agentText) ==> m.ts == s.now
  {
  }

  lemma ClearRefines(s: State, r: Reference, e: Event)
    requires Refines(s.buffer, r, s.now) && e.Clear?
    ensures Refines(Apply(s, e).buffer, Note(r, s, e), s.now)
  {
    forall k ensures RefinesAt(Apply(s, e).buffer, Note(r, s, e), s.now, k) {
      assert RefinesAt(s.buffer, r, s.now, k);
    }
  }

  lemma ContextRefines(s: State, r: Reference, e: Event)
    requires Refines(s.buffer, r, s.now) && e.AddContext?
    ensures Refines(Apply(s, e).buffer, Note(r, s, e), s.now)
  {
    var key := ConversationKey(e.user, e.thread);
    var turn := Turn(e.role, Clip(e.text, BUFFER_CLIP), s.now, s.said);
    WriteRefines(s.buffer, r, key, [turn], s.now);
    WrittenOne(s.buffer, key, turn, s.now);
    assert Note(r, s, e) == Said(r, key, [turn], s.now);
    assert Apply(s, e).buffer == Written(s.buffer, key, [turn], s.now);
  }

  lemma RefinesStep(s: State, r: Reference, e: Event)
    requires Refines(s.buffer, r, s.now) && !e.Restart?
    ensures Refines(Apply(s, e).buffer, Note(r, s, e), Apply(s, e).now)
  {
    match e
    case Tick(d) =>
      var later := s.now + d;
      forall k ensures RefinesAt(s.buffer, r, later, k) {
        assert RefinesAt(s.buffer, r, s.now, k);
      }
    case Store(user, thread, userText, agentText) =>
      NewTurnsNow(s, userText, agentText);
      WriteRefines(s.buffer, r, ConversationKey(user, thread), NewTurns(s, userText, agentText), s.now);
    case AddContext(_, _, _, _) => ContextRefines(s, r, e);
    case Clear(_, _) => ClearRefines(s, r, e);
  }

  /** Trimming before or after appending a turn said now makes no difference. */
  lemma WrittenOne(buffer: map<Key, seq<Turn>>, key: Key, turn: Turn, now: int)
    requires turn.ts == now
    ensures Written(buffer, key, [turn], now) ==
      buffer[key := LastN(After(TurnsAt(buffer, key), now - WINDOW_MS) + [turn], MAX_TURNS)]
  {
    AfterAppend(TurnsAt(buffer, key), [turn], now - WINDOW_MS);
    Single(turn, now - WINDOW_MS);
  }

  lemma {:induction false} RefinesRun(s: State, r: Reference, es: seq<Event>)
    requires Refines(s.buffer, r, s.now) && forall i :: 0 <= i < |es| ==> !es[i].Restart?
    ensures Refines(Run(s, es).buffer, NoteAll(r, s, es), Run(s, es).now)
    decreases |es|
  {
    if es != [] {
      RefinesStep(s, r, es[0]);
      RefinesRun(Apply(s, es[0]), Note(r, s, es[0]), es[1..]);
    }
  }

  /**
   * For every sequence of exchanges, context turns and clears, each conversation's incrementally trimmed buffer is the
   * last 10 of the turns younger than 30 minutes of its full history since its last clear, as of its last write.
   */
  lemma {:induction false} BufferIsWindow(s: State, es: seq<Event>, key: Key)
    requires Start(s) && forall i :: 0 <= i < |es| ==> !es[i].Restart?
    ensures var t := Run(s, es);
      var r := NoteAll(Reference(map[], map[]), s, es);
      && (key in t.buffer <==> key in r.history)
      && (key in r.history ==> key in r.lastWrite && t.buffer[key] == Window(r.history[key], r.lastWrite[key]))
  {
    RefinesRun(s, Reference(map[], map[]), es);
    var t := Run(s, es);
    assert RefinesAt(t.buffer, NoteAll(Reference(map[], map[]), s, es), t.now, key);
  }

  // ---------------------------------------------------------------- crash recovery

  /** Whether a row belongs to the conversation with the given key. */
  ghost function Of(key: Key): Row -> bool {
    (r: Row) => ConversationKey(r.user, r.thread) == key
  }

  /** The turns in the transcript whose rows satisfy `mine`. */
  ghost function Spoken(rows: seq<Row>, mine: Row -> bool): seq<Turn> {
    if rows == [] then [] else
      var r := rows[|rows| - 1];
      Spoken(rows[..|rows| - 1], mine) + (if mine(r) then [TurnOf(r)] else [])
  }

  lemma {:induction false} SpokenAppend(rows: seq<Row>, more: seq<Row>, mine: Row -> bool)
    ensures Spoken(rows + more, mine) == Spoken(rows, mine) + Spoken(more, mine)
  {
    if more == [] {
      assert rows + more == rows;
    } else {
      SpokenAppend(rows, more[..|more| - 1], mine);
      assert (rows + more)[..|rows + more| - 1] == rows + more[..|more| - 1];
    }
  }

  lemma {:induction false} SpokenOrdered(rows: seq<Row>, mine: Row -> bool, now: int)
    requires RowsOrdered(rows, now)
    ensures Ordered(Spoken(rows, mine), now)
    ensures forall t :: t in Spoken(rows, mine) ==> rows != [] && t.ts <= rows[|rows| - 1].createdAt
  {
    if rows != [] {
      var r := rows[|rows| - 1];
      var init := rows[..|rows| - 1];
      SpokenOrdered(init, mine, now);
      var before := Spoken(init, mine);
      forall i | 0 <= i < |before| ensures before[i].ts <= r.createdAt {
        assert before[i] in before;
        assert init[|init| - 1] == rows[|init| - 1];
      }
    }
  }

  ghost predicate RowsOrdered(rows: seq<Row>, now: int) {
    && (forall i, j :: 0 <= i <= j < |rows| ==> rows[i].createdAt <= rows[j].createdAt)
    && (forall i :: 0 <= i < |rows| ==> rows[i].createdAt <= now)
  }

  ghost predicate RowsAmong(ids: set<UserId>, rows: seq<Row>) {
    forall i :: 0 <= i < |rows| ==> rows[i].user in ids
  }

  lemma SpokenOne(r: Row, mine: Row -> bool)
    ensures Spoken([r], mine) == if mine(r) then [TurnOf(r)] else []
  {
    assert [r][..0] == [];
    assert Spoken([], mine) == [];
  }

  lemma ReadBackOne(user: UserId, thread: Option<int>, role: Role, text: string, now: int, id: nat, mine: Row -> bool)
    requires forall r: Row :: r.user == user && r.thread == thread ==> mine(r)
    ensures Spoken(RowIf(user, thread, role, text, now, id), mine) == TurnIf(role, text, now, id)
  {
    if text != "" {
      ClipClip(text);
      SpokenOne(Row(user, thread, role, Clip(text, TRANSCRIPT_CLIP), now, id), mine);
    }
  }

  lemma ReadBackNone(user: UserId, thread: Option<int>, role: Role, text: string, now: int, id: nat, mine: Row -> bool)
    requires forall r: Row :: r.user == user && r.thread == thread ==> !mine(r)
    ensures Spoken(RowIf(user, thread, role, text, now, id), mine) == []
  {
    if text != "" {
      SpokenOne(Row(user, thread, role, Clip(text, TRANSCRIPT_CLIP), now, id), mine);
    }
  }

  /** What one exchange adds to the transcript reads back as what it added to the buffer. */
  lemma NewRowsReadBack(s: State, user: UserId, thread: Option<int>, userText: string, agentText: string, key: Key)
    ensures Spoken(NewRows(s, user, thread, userText, agentText), Of(key)) ==
      if ConversationKey(user, thread) == key then NewTurns(s, userText, agentText) else []
  {
    var id := AnswerId(s.said, userText);
    SpokenAppend(RowIf(user, thread, User, userText, s.now, s.said),
      RowIf(user, thread, Assistant, agentText, s.now, id), Of(key));
    if ConversationKey(user, thread) == key {
      ReadBackOne(user, thread, User, userText, s.now, s.said, Of(key));
      ReadBackOne(user, thread, Assistant, agentText, s.now, id, Of(key));
    } else {
      ReadBackNone(user, thread, User, userText, s.now, s.said, Of(key));
      ReadBackNone(user, thread, Assistant, agentText, s.now, id, Of(key));
    }
  }

  lemma ClipClip(text: string)
    ensures Clip(Clip(text, TRANSCRIPT_CLIP), BUFFER_CLIP) == Clip(text, BUFFER_CLIP)
  {
  }

  /** The last 10 turns of a conversation that the transcript would give back, said after time c. */
  ghost function Recovered(rows: seq<Row>, key: Key, c: int): seq<Turn> {
    LastN(After(Spoken(rows, Of(key)), c), MAX_TURNS)
  }

  /** Beyond time c, the buffer holds for the conversation what the transcript would give back. */
  ghost predicate Agree(buffer: map<Key, seq<Turn>>, rows: seq<Row>, key: Key, c: int) {
    After(TurnsAt(buffer, key), c) == Recovered(rows, key, c)
  }

  ghost predicate InStep(s: State, user: UserId, thread: Option<int>, c: int) {
    s.now - WINDOW_MS <= c && ClearTime(s.clearedAt, user) <= c ==>
      Agree(s.buffer, s.transcript, ConversationKey(user, thread), c)
  }

  /** Buffer and transcript agree on every conversation, beyond the window's start and the user's last clear. */
  ghost predicate Mirrored(ids: set<UserId>, s: State) {
    && ClearsApart(ids) && s.now > 0
    && RowsOrdered(s.transcript, s.now) && RowsAmong(ids, s.transcript)
    && (forall k :: k in s.buffer ==> Ordered(s.buffer[k], s.now))
    && (forall u, t, c :: u in ids ==> InStep(s, u, t, c))
  }

  /** The events of a run in which the transcript is the whole story, and restarts do not overflow the restore limit. */
  ghost predicate Recoverable(ids: set<UserId>, s: State, e: Event) {
    && Usual(ids, e) && !e.AddContext?
    && (e.Restart? ==> |RowsSince(s.transcript, s.now - WINDOW_MS)| <= RESTORE_LIMIT)
  }

  ghost predicate RecoverableRun(ids: set<UserId>, s: State, es: seq<Event>)
    decreases |es|
  {
    es != [] ==> Recoverable(ids, s, es[0]) && RecoverableRun(ids, Apply(s, es[0]), es[1..])
  }

  lemma StoreAgree(buffer: map<Key, seq<Turn>>, rows: seq<Row>, more: seq<Row>, at: Key, added: seq<Turn>,
                   now: int, key: Key, c: int)
    requires Ordered(TurnsAt(buffer, key), now) && now - WINDOW_MS <= c && Agree(buffer, rows, key, c)
    requires forall m :: m in added ==> m.ts == now
    requires Spoken(more, Of(key)) == if at == key then added else []
    ensures Agree(Written(buffer, at, added, now), rows + more, key, c)
  {
    SpokenAppend(rows, more, Of(key));
    if at == key {
      StoredAfter(TurnsAt(buffer, key), Spoken(rows, Of(key)), added, now, c);
    } else {
      assert Spoken(rows, Of(key)) + [] == Spoken(rows, Of(key));
    }
  }

  lemma StoreInStep(ids: set<UserId>, s: State, e: Event, user: UserId, thread: Option<int>, c: int)
    requires Mirrored(ids, s) && e.Store? && user in ids
    ensures InStep(Apply(s, e), user, thread, c)
  {
    var key := ConversationKey(user, thread);
    assert InStep(s, user, thread, c);
    if s.now - WINDOW_MS <= c && ClearTime(s.clearedAt, user) <= c {
      NewRowsReadBack(s, e.user, e.thread, e.userText, e.agentText, key);
      NewTurnsNow(s, e.userText, e.agentText);
      StoreAgree(s.buffer, s.transcript, NewRows(s, e.user, e.thread, e.userText, e.agentText),
        ConversationKey(e.user, e.thread), NewTurns(s, e.userText, e.agentText), s.now, key, c);
    }
  }

  lemma StoredAfter(held: seq<Turn>, spoken: seq<Turn>, added: seq<Turn>, now: int, c: int)
    requires Ordered(held, now) && (forall m :: m in added ==> m.ts == now)
    requires now - WINDOW_MS <= c && After(held, c) == LastN(After(spoken, c), MAX_TURNS)
    ensures After(LastN(After(held + added, now - WINDOW_MS), MAX_TURNS), c) == LastN(After(spoken + added, c), MAX_TURNS)
  {
    assert Ordered(held + added, now);
    AfterOrdered(held + added, now - WINDOW_MS, now);
    AfterLastN(After(held + added, now - WINDOW_MS), MAX_TURNS, c, now);
    AfterAfter(held + added, now - WINDOW_MS, c);
    AfterAppend(held, added, c);
    AfterAppend(spoken, added, c);
    LastNAppend(After(spoken, c), After(added, c), MAX_TURNS);
  }

  lemma ClearInStep(ids: set<UserId>, s: State, e: Event, user: UserId, thread: Option<int>, c: int)
    requires Mirrored(ids, s) && e.Clear? && e.user in ids && user in ids
    ensures InStep(Apply(s, e), user, thread, c)
  {
    var key := ConversationKey(user, thread);
    ClearDropsOwn(ids, e.user, user, thread);
    assert InStep(s, user, thread, c);
    if user == e.user && s.now <= c {
      SpokenOrdered(s.transcript, Of(key), s.now);
      NothingAfter(Spoken(s.transcript, Of(key)), c);
    }
  }

  // The replay of a restart, conversation by conversation.

  lemma {:induction false} ReplayOf(ids: set<UserId>, rows: seq<Row>, clears: map<UserId, int>, user: UserId, thread: Option<int>, now: int)
    requires KeysApart(ids) && user in ids && RowsAmong(ids, rows) && RowsOrdered(rows, now)
    ensures var key := ConversationKey(user, thread);
      TurnsAt(Replay(map[], clears, rows), key) == Recovered(rows, key, ClearTime(clears, user))
  {
    if rows != [] {
      var n := |rows| - 1;
      var r := rows[n];
      var key := ConversationKey(user, thread);
      ReplayOf(ids, rows[..n], clears, user, thread, now);
      ReplaySnoc(Spoken(rows[..n], Of(key)), TurnOf(r), ClearTime(clears, user));
      if ConversationKey(r.user, r.thread) == key {
        KeyNamesUser(ids, r.user, r.thread, user, thread);
      } else {
        assert Spoken(rows[..n], Of(key)) + [] == Spoken(rows[..n], Of(key));
      }
    }
  }

  lemma ReplaySnoc(spoken: seq<Turn>, turn: Turn, c: int)
    ensures turn.ts > c ==> LastN(LastN(After(spoken, c), MAX_TURNS) + [turn], MAX_TURNS) == LastN(After(spoken + [turn], c), MAX_TURNS)
    ensures turn.ts <= c ==> After(spoken + [turn], c) == After(spoken, c)
  {
    AfterAppend(spoken, [turn], c);
    Single(turn, c);
    LastNAppend(After(spoken, c), [turn], MAX_TURNS);
  }

  lemma {:induction false} SpokenSince(rows: seq<Row>, mine: Row -> bool, since: int)
    ensures Spoken(RowsSince(rows, since), mine) == After(Spoken(rows, mine), since - 1)
  {
    if rows != [] {
      var n := |rows| - 1;
      var r := rows[n];
      var kept, spoken := RowsSince(rows[..n], since), Spoken(rows[..n], mine);
      var turn := if mine(r) then [TurnOf(r)] else [];
      SpokenSince(rows[..n], mine, since);
      AfterAppend(spoken, turn, since - 1);
      Single(TurnOf(r), since - 1);
      SpokenOne(r, mine);
      if r.createdAt >= since {
        SpokenAppend(kept, [r], mine);
      } else {
        assert kept + [] == kept;
      }
    }
  }

  lemma {:induction false} RowsSinceOrdered(ids: set<UserId>, rows: seq<Row>, since: int, now: int)
    requires RowsOrdered(rows, now) && RowsAmong(ids, rows)
    ensures var kept := RowsSince(rows, since); RowsOrdered(kept, now) && RowsAmong(ids, kept)
    ensures forall r :: r in RowsSince(rows, since) ==> r in rows
  {
    if rows != [] {
      var n := |rows| - 1;
      RowsSinceOrdered(ids, rows[..n], since, now);
      var kept := RowsSince(rows[..n], since);
      forall i | 0 <= i < |kept| ensures kept[i].createdAt <= rows[n].createdAt {
        assert kept[i] in rows[..n];
      }
    }
  }

  /**
   * The buffer after a restart, for one conversation: the last 10 of its turns in the window and after its user's clear,
   * as far as that could be read.
   */
  lemma {:induction false} RestartGives(ids: set<UserId>, s: State, clearsRead: bool, user: UserId, thread: Option<int>)
    requires KeysApart(ids) && user in ids && RowsOrdered(s.transcript, s.now) && RowsAmong(ids, s.transcript)
    requires |RowsSince(s.transcript, s.now - WINDOW_MS)| <= RESTORE_LIMIT
    ensures var key := ConversationKey(user, thread);
      var c := if clearsRead then ClearTime(s.chatClears, user) else 0;
      TurnsAt(Apply(s, Restart(clearsRead)).buffer, key) ==
        LastN(After(After(Spoken(s.transcript, Of(key)), s.now - WINDOW_MS - 1), c), MAX_TURNS)
  {
    var since := s.now - WINDOW_MS;
    var rows := RowsSince(s.transcript, since);
    var clears := if clearsRead then s.chatClears else map[];
    assert LastN(rows, RESTORE_LIMIT) == rows;
    assert Apply(s, Restart(clearsRead)).buffer == Replay(map[], clears, rows);
    RowsSinceOrdered(ids, s.transcript, since, s.now);
    ReplayOf(ids, rows, clears, user, thread, s.now);
    SpokenSince(s.transcript, Of(ConversationKey(user, thread)), since);
  }

  /** The row of the transcript at which a restart begins to read: 500 from the end, or where the window starts. */
  ghost predicate ReadsFrom(s: State, k: nat) {
    && k <= |s.transcript| && |s.transcript| - k <= 500
    && (forall i :: k <= i < |s.transcript| ==> s.now - s.transcript[i].createdAt <= 1_800_000)
    && (k > 0 ==> |s.transcript| - k == 500 || s.now - s.transcript[k - 1].createdAt > 1_800_000)
  }

  lemma {:induction false} NoRowsSince(rows: seq<Row>, since: int)
    requires forall i :: 0 <= i < |rows| ==> rows[i].createdAt < since
    ensures RowsSince(rows, since) == []
  {
    if rows != [] {
      NoRowsSince(rows[..|rows| - 1], since);
    }
  }

  lemma {:induction false} RowsSinceSuffix(rows: seq<Row>, since: int, k: nat)
    requires k <= |rows|
    requires forall i :: 0 <= i < k ==> rows[i].createdAt < since
    requires forall i :: k <= i < |rows| ==> rows[i].createdAt >= since
    ensures RowsSince(rows, since) == rows[k..]
  {
    if k == |rows| {
      NoRowsSince(rows, since);
    } else {
      var n := |rows| - 1;
      RowsSinceSuffix(rows[..n], since, k);
      assert rows[k..] == rows[..n][k..] + [rows[n]];
    }
  }

  lemma WindowRows(rows: seq<Row>, since: int, now: int) returns (k: nat)
    requires RowsOrdered(rows, now)
    ensures k <= |rows| && RowsSince(rows, since) == rows[k..]
    ensures forall i :: 0 <= i < |rows| ==> (rows[i].createdAt >= since <==> k <= i)
  {
    k := 0;
    while k < |rows| && rows[k].createdAt < since
      invariant k <= |rows| && forall i :: 0 <= i < k ==> rows[i].createdAt < since
    {
      k := k + 1;
    }
    RowsSinceSuffix(rows, since, k);
  }

  lemma NewestRows(s: State) returns (k: nat)
    requires RowsOrdered(s.transcript, s.now)
    ensures ReadsFrom(s, k)
    ensures LastN(RowsSince(s.transcript, s.now - WINDOW_MS), RESTORE_LIMIT) == s.transcript[k..]
  {
    var from := WindowRows(s.transcript, s.now - WINDOW_MS, s.now);
    k := if |s.transcript| - from <= RESTORE_LIMIT then from else |s.transcript| - RESTORE_LIMIT;
    assert s.transcript[from..][k - from..] == s.transcript[k..];
  }

  lemma TailOrdered(ids: set<UserId>, rows: seq<Row>, k: nat, now: int)
    requires k <= |rows| && RowsOrdered(rows, now) && RowsAmong(ids, rows)
    ensures RowsOrdered(rows[k..], now) && RowsAmong(ids, rows[k..])
  {
  }

  /**
   * However many rows there are: a restart replays the newest 500 of the window, and gives each conversation the last 10
   * turns those rows hold of it after its user's clear, as far as that could be read.
   */
  lemma RestartReadsNewest(ids: set<UserId>, s: State, clearsRead: bool, user: UserId, thread: Option<int>) returns (k: nat)
    requires KeysApart(ids) && user in ids && RowsOrdered(s.transcript, s.now) && RowsAmong(ids, s.transcript)
    ensures ReadsFrom(s, k)
    ensures var key := ConversationKey(user, thread);
      TurnsAt(Apply(s, Restart(clearsRead)).buffer, key)
      == Recovered(s.transcript[k..], key, if clearsRead then ClearTime(s.chatClears, user) else 0)
  {
    k := NewestRows(s);
    TailOrdered(ids, s.transcript, k, s.now);
    ReplayGives(ids, s, clearsRead, s.transcript[k..], user, thread);
  }

  lemma ReplayGives(ids: set<UserId>, s: State, clearsRead: bool, recent: seq<Row>, user: UserId, thread: Option<int>)
    requires KeysApart(ids) && user in ids && RowsOrdered(recent, s.now) && RowsAmong(ids, recent)
    requires recent == LastN(RowsSince(s.transcript, s.now - WINDOW_MS), RESTORE_LIMIT)
    ensures var key := ConversationKey(user, thread);
      TurnsAt(Apply(s, Restart(clearsRead)).buffer, key)
      == Recovered(recent, key, if clearsRead then ClearTime(s.chatClears, user) else 0)
  {
    var clears := if clearsRead then s.chatClears else map[];
    assert Apply(s, Restart(clearsRead)).buffer == Replay(map[], clears, recent);
    ReplayOf(ids, recent, clears, user, thread, s.now);
  }

  lemma RestartInStep(ids: set<UserId>, s: State, user: UserId, thread: Option<int>, c: int)
    requires Mirrored(ids, s) && user in ids && Recoverable(ids, s, Restart(true))
    ensures InStep(Apply(s, Restart(true)), user, thread, c)
  {
    var key := ConversationKey(user, thread);
    var from, clear := s.now - WINDOW_MS - 1, ClearTime(s.chatClears, user);
    if s.now - WINDOW_MS <= c && clear <= c {
      ApartClears(ids);
      RestartGives(ids, s, true, user, thread);
      var spoken := Spoken(s.transcript, Of(key));
      SpokenOrdered(s.transcript, Of(key), s.now);
      AfterOrdered(spoken, from, s.now);
      AfterOrdered(After(spoken, from), clear, s.now);
      AfterLastN(After(After(spoken, from), clear), MAX_TURNS, c, s.now);
      AfterAfter(After(spoken, from), clear, c);
      AfterAfter(spoken, from, c);
    }
  }

  lemma {:induction false} ReplayOrdered(rows: seq<Row>, clears: map<UserId, int>, now: int, key: Key)
    requires RowsOrdered(rows, now)
    ensures Ordered(TurnsAt(Replay(map[], clears, rows), key), if rows == [] then now else rows[|rows| - 1].createdAt)
  {
    if rows != [] {
      var n := |rows| - 1;
      ReplayOrdered(rows[..n], clears, now, key);
      if n > 0 {
        assert rows[..n][n - 1] == rows[n - 1];
      } else {
        assert Replay(map[], clears, rows[..n]) == map[];
      }
      ReplayPush(TurnsAt(Replay(map[], clears, rows[..n]), key), TurnOf(rows[n]));
    }
  }

  lemma OrderedLater(turns: seq<Turn>, earlier: int, now: int)
    requires Ordered(turns, earlier) && earlier <= now
    ensures Ordered(turns, now)
  {
  }

  lemma ReplayPush(held: seq<Turn>, turn: Turn)
    requires Ordered(held, turn.ts)
    ensures Ordered(LastN(held + [turn], MAX_TURNS), turn.ts)
  {
    AppendNow(held, [turn], turn.ts);
    AfterLastN(held + [turn], MAX_TURNS, 0, turn.ts);
  }

  lemma StoredOrdered(held: seq<Turn>, added: seq<Turn>, now: int)
    requires Ordered(held, now) && forall m :: m in added ==> m.ts == now
    ensures Ordered(LastN(After(held + added, now - WINDOW_MS), MAX_TURNS), now)
  {
    AppendNow(held, added, now);
    AfterOrdered(held + added, now - WINDOW_MS, now);
    AfterLastN(After(held + added, now - WINDOW_MS), MAX_TURNS, 0, now);
  }

  lemma ReplayOrderedNow(rows: seq<Row>, clears: map<UserId, int>, now: int, key: Key)
    requires RowsOrdered(rows, now)
    ensures Ordered(TurnsAt(Replay(map[], clears, rows), key), now)
  {
    ReplayOrdered(rows, clears, now, key);
    if rows != [] {
      OrderedLater(TurnsAt(Replay(map[], clears, rows), key), rows[|rows| - 1].createdAt, now);
    }
  }

  lemma RestartOrdered(ids: set<UserId>, s: State, k: Key)
    requires RowsOrdered(s.transcript, s.now) && RowsAmong(ids, s.transcript) && Recoverable(ids, s, Restart(true))
    ensures Ordered(TurnsAt(Apply(s, Restart(true)).buffer, k), s.now)
  {
    var rows := RowsSince(s.transcript, s.now - WINDOW_MS);
    assert LastN(rows, RESTORE_LIMIT) == rows;
    assert Apply(s, Restart(true)).buffer == Replay(map[], s.chatClears, rows);
    RowsSinceOrdered(ids, s.transcript, s.now - WINDOW_MS, s.now);
    ReplayOrderedNow(rows, s.chatClears, s.now, k);
  }

  lemma WrittenOrdered(buffer: map<Key, seq<Turn>>, at: Key, added: seq<Turn>, now: int, key: Key)
    requires Ordered(TurnsAt(buffer, key), now) && forall m :: m in added ==> m.ts == now
    ensures Ordered(TurnsAt(Written(buffer, at, added, now), key), now)
  {
    if at == key {
      StoredOrdered(TurnsAt(buffer, key), added, now);
    }
  }

  lemma StoreKeepsOrdered(s: State, e: Event, k: Key)
    requires e.Store? && Ordered(TurnsAt(s.buffer, k), s.now)
    ensures Ordered(TurnsAt(Apply(s, e).buffer, k), s.now)
  {
    var added := NewTurns(s, e.userText, e.agentText);
    NewTurnsNow(s, e.userText, e.agentText);
    WrittenOrdered(s.buffer, ConversationKey(e.user, e.thread), added, s.now, k);
    assert Apply(s, e).buffer == Written(s.buffer, ConversationKey(e.user, e.thread), added, s.now);
  }

  lemma MirroredBuffers(ids: set<UserId>, s: State, e: Event, k: Key)
    requires RowsOrdered(s.transcript, s.now) && RowsAmong(ids, s.transcript) && Recoverable(ids, s, e)
    requires Ordered(TurnsAt(s.buffer, k), s.now) && k in Apply(s, e).buffer
    ensures Ordered(Apply(s, e).buffer[k], Apply(s, e).now)
  {
    match e
    case Store(_, _, _, _) => StoreKeepsOrdered(s, e, k);
    case Restart(_) => RestartOrdered(ids, s, k);
    case Tick(d) => OrderedLater(TurnsAt(s.buffer, k), s.now, s.now + d);
    case Clear(_, _) =>
  }

  lemma RowsAppend(ids: set<UserId>, rows: seq<Row>, more: seq<Row>, now: int)
    requires RowsOrdered(rows, now) && RowsAmong(ids, rows)
    requires forall r :: r in more ==> r.createdAt == now && r.user in ids
    ensures RowsOrdered(rows + more, now) && RowsAmong(ids, rows + more)
  {
  }

  lemma RowsStep(ids: set<UserId>, s: State, e: Event)
    requires RowsOrdered(s.transcript, s.now) && RowsAmong(ids, s.transcript) && Usual(ids, e)
    ensures RowsOrdered(Apply(s, e).transcript, Apply(s, e).now) && RowsAmong(ids, Apply(s, e).transcript)
  {
    if e.Store? {
      RowsAppend(ids, s.transcript, NewRows(s, e.user, e.thread, e.userText, e.agentText), s.now);
    }
  }

  lemma InStepStep(ids: set<UserId>, s: State, e: Event, u: UserId, t: Option<int>, c: int)
    requires Mirrored(ids, s) && Recoverable(ids, s, e) && u in ids
    ensures InStep(Apply(s, e), u, t, c)
  {
    match e
    case Tick(_) => assert InStep(s, u, t, c);
    case Store(_, _, _, _) => StoreInStep(ids, s, e, u, t, c);
    case Clear(_, _) => ClearInStep(ids, s, e, u, t, c);
    case Restart(_) => RestartInStep(ids, s, u, t, c);
  }

  lemma MirroredStep(ids: set<UserId>, s: State, e: Event)
    requires Mirrored(ids, s) && Recoverable(ids, s, e)
    ensures Mirrored(ids, Apply(s, e))
  {
    RowsStep(ids, s, e);
    forall k | k in Apply(s, e).buffer ensures Ordered(Apply(s, e).buffer[k], Apply(s, e).now) {
      MirroredBuffers(ids, s, e, k);
    }
    forall u, t, c | u in ids ensures InStep(Apply(s, e), u, t, c) {
      InStepStep(ids, s, e, u, t, c);
    }
  }

  lemma {:induction false} MirroredRun(ids: set<UserId>, s: State, es: seq<Event>)
    requires Mirrored(ids, s) && RecoverableRun(ids, s, es)
    ensures Mirrored(ids, Run(s, es))
    decreases |es|
  {
    if es != [] {
      MirroredStep(ids, s, es[0]);
      MirroredRun(ids, Apply(s, es[0]), es[1..]);
    }
  }

  lemma StartMirrored(ids: set<UserId>, s: State)
    requires Start(s) && ClearsApart(ids)
    ensures Mirrored(ids, s)
  {
    forall u, t, c | u in ids ensures InStep(s, u, t, c) {
      assert Spoken(s.transcript, Of(ConversationKey(u, t))) == [];
    }
  }

  /** What the database holds of a user's clears is never ahead of the memory, nor either of the clock. */
  ghost predicate ClearTimes(s: State, user: UserId) {
    ClearTime(s.chatClears, user) <= ClearTime(s.clearedAt, user) <= s.now && s.now > 0
  }

  lemma {:induction false} ClearTimesRun(ids: set<UserId>, s: State, es: seq<Event>, user: UserId)
    requires ClearTimes(s, user) && RecoverableRun(ids, s, es)
    ensures ClearTimes(Run(s, es), user)
    decreases |es|
  {
    if es != [] {
      assert ClearTimes(Apply(s, es[0]), user);
      ClearTimesRun(ids, Apply(s, es[0]), es[1..], user);
    }
  }

  /** Trimmed to turns said after `from`, the restored buffer is the live one without what the clear reaches. */
  ghost predicate TrimmedAlike(live: seq<Turn>, restored: seq<Turn>, from: int, clear: int) {
    && After(restored, from) == After(After(live, from), clear)
    && (After(restored, from) == After(live, from) <==> forall m :: m in After(live, from) ==> m.ts > clear)
    && (forall m :: m in restored ==> m.ts >= from && m.ts > clear)
  }

  /** What was said in the window after the last clear is as it was. */
  ghost predicate RecentRestored(t: State, user: UserId, thread: Option<int>) {
    var key := ConversationKey(user, thread);
    var from, clear := t.now - WINDOW_MS, ClearTime(t.clearedAt, user);
    var both := if clear <= from then from else clear;
    After(TurnsAt(Apply(t, Restart(true)).buffer, key), both) == After(TurnsAt(t.buffer, key), both)
  }

  /** Nothing else is there, and the two are equal iff no live turn bears the very millisecond of the clear. */
  ghost predicate NothingElseRestored(t: State, user: UserId, thread: Option<int>) {
    var key := ConversationKey(user, thread);
    TrimmedAlike(TurnsAt(t.buffer, key), TurnsAt(Apply(t, Restart(true)).buffer, key), t.now - WINDOW_MS, ClearTime(t.clearedAt, user))
  }

  /** A restart rebuilds the conversation, as far as the user's last clear is in the database. */
  ghost predicate RestoredLikeLive(t: State, user: UserId, thread: Option<int>) {
    && RecentRestored(t, user, thread)
    && (ClearTime(t.chatClears, user) == ClearTime(t.clearedAt, user) ==> NothingElseRestored(t, user, thread))
  }

  lemma RestoresRecent(ids: set<UserId>, t: State, user: UserId, thread: Option<int>)
    requires Mirrored(ids, t) && Recoverable(ids, t, Restart(true)) && user in ids
    requires ClearTime(t.chatClears, user) <= ClearTime(t.clearedAt, user)
    ensures RecentRestored(t, user, thread)
  {
    var from, clear := t.now - WINDOW_MS, ClearTime(t.clearedAt, user);
    BothAgree(ids, t, user, thread, if clear <= from then from else clear);
  }

  lemma RestoresLikeLive(ids: set<UserId>, t: State, user: UserId, thread: Option<int>)
    requires Mirrored(ids, t) && Recoverable(ids, t, Restart(true)) && user in ids
    requires ClearTime(t.chatClears, user) <= ClearTime(t.clearedAt, user)
    ensures RestoredLikeLive(t, user, thread)
  {
    RestoresRecent(ids, t, user, thread);
    if ClearTime(t.chatClears, user) == ClearTime(t.clearedAt, user) {
      RestoredAgainstLive(ids, t, user, thread);
    }
  }

  lemma MirroredFromStart(ids: set<UserId>, s: State, es: seq<Event>)
    requires Start(s) && ClearsApart(ids) && RecoverableRun(ids, s, es)
    ensures Mirrored(ids, Run(s, es))
  {
    StartMirrored(ids, s);
    MirroredRun(ids, s, es);
  }

  /**
   * After any run without context turns, a restart with at most 500 rows in the window rebuilds every conversation of
   * every user, for users none of whose clears reaches another one.
   */
  lemma RestartRestoresLiveBuffer(ids: set<UserId>, s: State, es: seq<Event>, user: UserId, thread: Option<int>)
    requires Start(s) && ClearsApart(ids) && user in ids
    requires RecoverableRun(ids, s, es) && Recoverable(ids, Run(s, es), Restart(true))
    ensures RestoredLikeLive(Run(s, es), user, thread)
  {
    MirroredFromStart(ids, s, es);
    ClearTimesRun(ids, s, es, user);
    RestoresLikeLive(ids, Run(s, es), user, thread);
  }

  lemma RestoredAgainstLive(ids: set<UserId>, t: State, user: UserId, thread: Option<int>)
    requires Mirrored(ids, t) && Recoverable(ids, t, Restart(true)) && user in ids
    requires ClearTime(t.clearedAt, user) == ClearTime(t.chatClears, user)
    ensures TrimmedAlike(TurnsAt(t.buffer, ConversationKey(user, thread)),
              TurnsAt(Apply(t, Restart(true)).buffer, ConversationKey(user, thread)),
              t.now - WINDOW_MS, ClearTime(t.clearedAt, user))
  {
    var key := ConversationKey(user, thread);
    var clear, from := ClearTime(t.clearedAt, user), t.now - WINDOW_MS;
    BothAgree(ids, t, user, thread, if clear <= from then from else clear);
    ApartClears(ids);
    RestartGives(ids, t, true, user, thread);
    RestoredAfter(ids, Spoken(t.transcript, Of(key)), from - 1, clear, t, key);
    TrimAlike(TurnsAt(t.buffer, key), TurnsAt(Apply(t, Restart(true)).buffer, key), from, clear);
  }

  lemma BothAgree(ids: set<UserId>, t: State, user: UserId, thread: Option<int>, c: int)
    requires Mirrored(ids, t) && Recoverable(ids, t, Restart(true)) && user in ids
    requires t.now - WINDOW_MS <= c && ClearTime(t.clearedAt, user) <= c && ClearTime(t.chatClears, user) <= c
    ensures var key := ConversationKey(user, thread);
      After(TurnsAt(Apply(t, Restart(true)).buffer, key), c) == After(TurnsAt(t.buffer, key), c)
  {
    RestartInStep(ids, t, user, thread, c);
    assert InStep(t, user, thread, c);
  }

  lemma TrimAlike(held: seq<Turn>, restored: seq<Turn>, from: int, clear: int)
    requires forall m :: m in restored ==> m.ts >= from && m.ts > clear
    requires var c := if clear <= from then from else clear; After(restored, c) == After(held, c)
    ensures TrimmedAlike(held, restored, from, clear)
  {
    AfterIsAll(restored, clear);
    AfterIsAll(After(held, from), clear);
    if clear <= from {
      AfterAfter(held, clear, from);
    } else {
      AfterAfter(held, from, clear);
      AfterAfter(restored, from, clear);
    }
  }

  lemma RestoredAfter(ids: set<UserId>, spoken: seq<Turn>, from: int, clear: int, s: State, key: Key)
    requires Mirrored(ids, s) && spoken == Spoken(s.transcript, Of(key))
    ensures forall m :: m in LastN(After(After(spoken, from), clear), MAX_TURNS) ==> m.ts > from && m.ts > clear
  {
    SpokenOrdered(s.transcript, Of(key), s.now);
    AfterOrdered(spoken, from, s.now);
    AfterOrdered(After(spoken, from), clear, s.now);
  }

  lemma LoneTurn(s: State, user: UserId, text: string)
    requires text != "" && |text| <= BUFFER_CLIP && user !in s.buffer
    ensures TurnsAt(Apply(s, Store(user, None, text, "")).buffer, user) == [Turn(User, text, s.now, s.said)]
  {
    var turn := Turn(User, text, s.now, s.said);
    assert NewTurns(s, text, "") == [turn];
    LoneWritten(s.buffer, user, turn, s.now);
    assert Apply(s, Store(user, None, text, "")).buffer == Written(s.buffer, user, [turn], s.now);
  }

  lemma LoneWritten(buffer: map<Key, seq<Turn>>, key: Key, turn: Turn, now: int)
    requires key !in buffer && turn.ts == now
    ensures TurnsAt(Written(buffer, key, [turn], now), key) == [turn]
  {
    assert TurnsAt(buffer, key) + [turn] == [turn];
    Single(turn, now - WINDOW_MS);
  }

  lemma OneSideOneRow(s: State, user: UserId, text: string)
    requires text != "" && |text| <= BUFFER_CLIP && s.transcript == []
    ensures Apply(s, Store(user, None, text, "")).transcript == [Row(user, None, User, text, s.now, s.said)]
  {
    assert RowIf(user, None, User, text, s.now, s.said) == [Row(user, None, User, text, s.now, s.said)];
    assert RowIf(user, None, Assistant, "", s.now, AnswerId(s.said, text)) == [];
  }

  /** A restart with a single row in the transcript: its turn comes back iff the row is after its user's saved clear. */
  lemma OneRowRestart(t: State, r: Row, clearsRead: bool)
    requires t.transcript == [r] && r.createdAt >= t.now - WINDOW_MS
    ensures TurnsAt(Apply(t, Restart(clearsRead)).buffer, ConversationKey(r.user, r.thread)) ==
      if r.createdAt > (if clearsRead then ClearTime(t.chatClears, r.user) else 0) then [TurnOf(r)] else []
  {
    var key := ConversationKey(r.user, r.thread);
    assert [r][..0] == [];
    assert RowsSince([r], t.now - WINDOW_MS) == [r];
    assert LastN([r], RESTORE_LIMIT) == [r];
    var clears := if clearsRead then t.chatClears else map[];
    assert Apply(t, Restart(clearsRead)).buffer == Replay(map[], clears, [r]);
    assert Replay(map[], clears, [r][..0]) == map[];
    assert LastN([TurnOf(r)], MAX_TURNS) == [TurnOf(r)] == TurnsAt(map[], key) + [TurnOf(r)];
  }

  /** Said in the same millisecond as the clear before it, a turn is live but a restart drops it. */
  lemma SameMillisecondAsClear(s: State)
    requires Start(s)
    ensures var t := Apply(Apply(s, Clear("ada", true)), Store("ada", None, "hi", ""));
      TurnsAt(t.buffer, "ada") == [Turn(User, "hi", s.now, 0)] && TurnsAt(Apply(t, Restart(true)).buffer, "ada") == []
  {
    var cleared := Apply(s, Clear("ada", true));
    ClearedEmpty(s, "ada");
    LoneTurn(cleared, "ada", "hi");
    OneSideOneRow(cleared, "ada", "hi");
    var t, r := Apply(cleared, Store("ada", None, "hi", "")), Row("ada", None, User, "hi", s.now, 0);
    assert t.transcript == [r] && t.chatClears == cleared.chatClears && t.now == s.now;
    OneRowRestart(t, r, true);
  }

  lemma ClearedEmpty(s: State, user: UserId)
    requires Start(s)
    ensures var cleared := Apply(s, Clear(user, true));
      && cleared.buffer == map[] && cleared.transcript == [] && cleared.now == s.now && cleared.said == 0
      && ClearTime(cleared.chatClears, user) == s.now
  {
  }

  /** One exchange of user v, then a clear of user u: what is left, and what a restart gives. */
  function SaidThenCleared(s: State, v: UserId, u: UserId, saved: bool): State {
    Apply(Apply(s, Store(v, None, "hi", "")), Clear(u, saved))
  }

  lemma SaidThenClearedGives(s: State, v: UserId, u: UserId, saved: bool)
    requires Start(s)
    ensures var t := SaidThenCleared(s, v, u, saved);
      && (Dropped(v, u) ==> TurnsAt(t.buffer, v) == [])
      && (u != v || !saved ==> TurnsAt(Apply(t, Restart(true)).buffer, v) == [Turn(User, "hi", s.now, 0)])
      && TurnsAt(Apply(t, Restart(false)).buffer, v) == [Turn(User, "hi", s.now, 0)]
  {
    var r := Row(v, None, User, "hi", s.now, 0);
    OneSideOneRow(s, v, "hi");
    OneRowRestart(SaidThenCleared(s, v, u, saved), r, true);
    OneRowRestart(SaidThenCleared(s, v, u, saved), r, false);
  }

  /** A clear that could not be saved is forgotten by the next restart. */
  lemma UnsavedClearForgotten(s: State)
    requires Start(s)
    ensures var t := SaidThenCleared(s, "ada", "ada", false);
      TurnsAt(t.buffer, "ada") == [] && TurnsAt(Apply(t, Restart(true)).buffer, "ada") == [Turn(User, "hi", s.now, 0)]
  {
    SaidThenClearedGives(s, "ada", "ada", false);
  }

  /** A user whose id begins with another user's and a '#': that one's clear drops the conversation of this one. */
  lemma ClearDropsNamesake(s: State)
    requires Start(s)
    ensures var t := SaidThenCleared(s, "ada#work", "ada", true);
      TurnsAt(t.buffer, "ada#work") == [] && TurnsAt(Apply(t, Restart(true)).buffer, "ada#work") == [Turn(User, "hi", s.now, 0)]
  {
    assert "ada" + "#" <= "ada#work";
    SaidThenClearedGives(s, "ada#work", "ada", true);
  }

  /** The runs of these users in which a restart promises the live buffer. */
  ghost predicate Promised(ids: set<UserId>, s: State, es: seq<Event>) {
    RecoverableRun(ids, s, es) && Recoverable(ids, Run(s, es), Restart(true))
  }

  lemma OtherClearBreaksRestart(ids: set<UserId>, s: State, u: UserId, v: UserId)
    requires Start(s) && u in ids && v in ids && u + "#" <= v
    ensures var es := [Store(v, None, "hi", ""), Clear(u, true)];
      Promised(ids, s, es) && !RestoredLikeLive(Run(s, es), v, None)
  {
    var es := [Store(v, None, "hi", ""), Clear(u, true)];
    SaidThenClearedRuns(ids, s, u, v);
    NamesakeLost(s, u, v);
  }

  lemma RunOfTwo(ids: set<UserId>, s: State, e: Event, f: Event)
    requires Recoverable(ids, s, e) && Recoverable(ids, Apply(s, e), f)
    ensures Run(s, [e, f]) == Apply(Apply(s, e), f) && RecoverableRun(ids, s, [e, f])
  {
    var es := [e, f];
    assert es[1..] == [f] && es[1..][1..] == [];
    assert RecoverableRun(ids, Apply(Apply(s, e), f), []);
    assert RecoverableRun(ids, Apply(s, e), [f]) && Run(Apply(s, e), [f]) == Apply(Apply(s, e), f);
  }

  lemma SaidThenClearedRuns(ids: set<UserId>, s: State, u: UserId, v: UserId)
    requires Start(s) && u in ids && v in ids
    ensures var es := [Store(v, None, "hi", ""), Clear(u, true)];
      Promised(ids, s, es) && Run(s, es) == SaidThenCleared(s, v, u, true)
  {
    RunOfTwo(ids, s, Store(v, None, "hi", ""), Clear(u, true));
    OneSideOneRow(s, v, "hi");
    OneRowFits(SaidThenCleared(s, v, u, true));
  }

  lemma OneRowFits(t: State)
    requires |t.transcript| == 1
    ensures |RowsSince(t.transcript, t.now - WINDOW_MS)| <= 1
  {
    assert t.transcript[..0] == [];
  }

  lemma NamesakeLost(s: State, u: UserId, v: UserId)
    requires Start(s) && u + "#" <= v
    ensures !RestoredLikeLive(SaidThenCleared(s, v, u, true), v, None)
  {
    var t := SaidThenCleared(s, v, u, true);
    SaidThenClearedGives(s, v, u, true);
    assert ClearTime(t.clearedAt, v) == 0;
    var turn := Turn(User, "hi", s.now, 0);
    var c := if 0 <= t.now - WINDOW_MS then t.now - WINDOW_MS else 0;
    Single(turn, c);
    assert After([turn], c) == [turn] && After([], c) == [];
  }

  /** Every such restart rebuilds every conversation of these users. */
  ghost predicate AllRestored(ids: set<UserId>, s: State) {
    forall es, user, thread :: user in ids && Promised(ids, s, es) ==> RestoredLikeLive(Run(s, es), user, thread)
  }

  /** Whichever users there are: every such restart rebuilds every conversation iff no user's clear reaches another user. */
  lemma RestartRestoresExactly(ids: set<UserId>, s: State)
    requires Start(s)
    ensures AllRestored(ids, s) <==> ClearsApart(ids)
  {
    if ClearsApart(ids) {
      forall es, user, thread | user in ids && Promised(ids, s, es) ensures RestoredLikeLive(Run(s, es), user, thread) {
        RestartRestoresLiveBuffer(ids, s, es, user, thread);
      }
    } else {
      var u, v :| u in ids && v in ids && u + "#" <= v;
      OtherClearBreaksRestart(ids, s, u, v);
    }
  }

  // ---------------------------------------------------------------- a persisted clear is final

  ghost predicate NotBefore(turns: seq<Turn>, id: nat) {
    forall m :: m in turns ==> m.id >= id
  }

  ghost predicate ClearsSound(s: State) {
    && (forall u :: u in s.clearedTurn ==>
          u in s.chatClears && s.chatClears[u] <= ClearTime(s.clearedAt, u) && s.clearedTurn[u] <= s.said)
    && (forall u :: u in s.chatClears ==> s.chatClears[u] <= s.now)
  }

  /** The row was written before its user's last persisted clear. */
  ghost predicate Old(s: State, r: Row) {
    r.user in s.clearedTurn && r.id < s.clearedTurn[r.user]
  }

  ghost predicate RowsBuried(s: State) {
    forall r :: r in s.transcript && Old(s, r) ==> r.createdAt <= ClearTime(s.chatClears, r.user)
  }

  /** Nothing said before a user's persisted clear is in any of that user's conversations, nor can the transcript bring it back. */
  ghost predicate Buried(ids: set<UserId>, s: State) {
    && KeysApart(ids) && RowsOrdered(s.transcript, s.now) && RowsAmong(ids, s.transcript)
    && ClearsSound(s) && RowsBuried(s)
    && (forall u, t :: u in ids && u in s.clearedTurn ==>
          NotBefore(TurnsAt(s.buffer, ConversationKey(u, t)), s.clearedTurn[u]))
  }

  lemma WrittenNotBefore(buffer: map<Key, seq<Turn>>, at: Key, added: seq<Turn>, now: int, key: Key, id: nat)
    requires NotBefore(TurnsAt(buffer, key), id) && NotBefore(added, id)
    ensures NotBefore(TurnsAt(Written(buffer, at, added, now), key), id)
  {
    if at == key {
      var all := TurnsAt(buffer, key) + added;
      AfterKeeps(all, now - WINDOW_MS);
      assert forall m :: m in LastN(After(all, now - WINDOW_MS), MAX_TURNS) ==> m in all;
      assert forall m :: m in all ==> m in TurnsAt(buffer, key) || m in added;
    }
  }

  lemma {:induction false} AfterKeeps(s: seq<Turn>, c: int)
    ensures forall m :: m in After(s, c) ==> m in s
  {
    if s != [] {
      AfterKeeps(s[..|s| - 1], c);
    }
  }

  ghost predicate RestoredFrom(m: Turn, r: Row, clears: map<UserId, int>, key: Key) {
    m == TurnOf(r) && ConversationKey(r.user, r.thread) == key && r.createdAt > ClearTime(clears, r.user)
  }

  /** Every restored turn comes from a row of its conversation written after its user's clear. */
  lemma {:induction false} ReplayFrom(rows: seq<Row>, clears: map<UserId, int>, key: Key, m: Turn)
    requires m in TurnsAt(Replay(map[], clears, rows), key)
    ensures exists r :: r in rows && RestoredFrom(m, r, clears, key)
  {
    var n := |rows| - 1;
    var r := rows[n];
    if RestoredFrom(m, r, clears, key) {
      assert r in rows;
    } else {
      ReplayFrom(rows[..n], clears, key, m);
    }
  }

  lemma {:induction false} RowsSinceKeeps(rows: seq<Row>, since: int)
    ensures forall r :: r in RowsSince(rows, since) ==> r in rows
  {
    if rows != [] {
      RowsSinceKeeps(rows[..|rows| - 1], since);
    }
  }

  lemma RestartBuried(ids: set<UserId>, s: State, u: UserId, t: Option<int>)
    requires Buried(ids, s) && u in ids && u in s.clearedTurn
    ensures NotBefore(TurnsAt(Apply(s, Restart(true)).buffer, ConversationKey(u, t)), s.clearedTurn[u])
  {
    var key := ConversationKey(u, t);
    var recent := LastN(RowsSince(s.transcript, s.now - WINDOW_MS), RESTORE_LIMIT);
    RowsSinceKeeps(s.transcript, s.now - WINDOW_MS);
    forall m | m in TurnsAt(Replay(map[], s.chatClears, recent), key) ensures m.id >= s.clearedTurn[u] {
      ReplayFrom(recent, s.chatClears, key, m);
      var r :| r in recent && RestoredFrom(m, r, s.chatClears, key);
      assert r in s.transcript && r.user in ids;
      KeyNamesUser(ids, r.user, r.thread, u, t);
    }
  }

  lemma BuriedContext(s: State, e: Event, u: UserId, key: Key)
    requires ClearsSound(s) && e.AddContext? && u in s.clearedTurn && NotBefore(TurnsAt(s.buffer, key), s.clearedTurn[u])
    ensures NotBefore(TurnsAt(Apply(s, e).buffer, key), s.clearedTurn[u])
  {
    var written := ConversationKey(e.user, e.thread);
    var turn := Turn(e.role, Clip(e.text, BUFFER_CLIP), s.now, s.said);
    WrittenOne(s.buffer, written, turn, s.now);
    assert turn.id >= s.clearedTurn[u];
    WrittenNotBefore(s.buffer, written, [turn], s.now, key, s.clearedTurn[u]);
    assert Apply(s, e).buffer == Written(s.buffer, written, [turn], s.now);
  }

  lemma BuriedBuffer(ids: set<UserId>, s: State, e: Event, u: UserId, t: Option<int>)
    requires Buried(ids, s) && Usual(ids, e) && u in ids && u in Apply(s, e).clearedTurn
    ensures NotBefore(TurnsAt(Apply(s, e).buffer, ConversationKey(u, t)), Apply(s, e).clearedTurn[u])
  {
    var key := ConversationKey(u, t);
    assert u in s.clearedTurn ==> NotBefore(TurnsAt(s.buffer, key), s.clearedTurn[u]);
    match e
    case Tick(_) =>
    case Store(user, thread, userText, agentText) =>
      WrittenNotBefore(s.buffer, ConversationKey(user, thread), NewTurns(s, userText, agentText), s.now, key,
        s.clearedTurn[u]);
    case AddContext(user, thread, role, text) => BuriedContext(s, e, u, key);
    case Clear(user, persisted) =>
      ClearDropsExactly(user, u, t);
    case Restart(_) => RestartBuried(ids, s, u, t);
  }

  lemma BuriedClears(ids: set<UserId>, s: State, e: Event)
    requires Buried(ids, s) && (e.Restart? ==> e.clearsRead)
    ensures ClearsSound(Apply(s, e))
  {
  }

  lemma BuriedRows(s: State, e: Event)
    requires RowsBuried(s) && RowsOrdered(s.transcript, s.now) && ClearsSound(s)
    ensures RowsBuried(Apply(s, e))
  {
    match e
    case Store(user, thread, userText, agentText) =>
      var rows := NewRows(s, user, thread, userText, agentText);
      assert forall r :: r in rows ==> !Old(s, r);
      assert forall r :: r in s.transcript + rows <==> r in s.transcript || r in rows;
    case _ =>
  }

  lemma BuriedStep(ids: set<UserId>, s: State, e: Event)
    requires Buried(ids, s) && Usual(ids, e)
    ensures Buried(ids, Apply(s, e))
    ensures forall u :: u in s.clearedTurn ==> u in Apply(s, e).clearedTurn && s.clearedTurn[u] <= Apply(s, e).clearedTurn[u]
  {
    RowsStep(ids, s, e);
    BuriedClears(ids, s, e);
    BuriedRows(s, e);
    forall u, t | u in ids && u in Apply(s, e).clearedTurn
      ensures NotBefore(TurnsAt(Apply(s, e).buffer, ConversationKey(u, t)), Apply(s, e).clearedTurn[u])
    {
      BuriedBuffer(ids, s, e, u, t);
    }
  }

  lemma {:induction false} BuriedRun(ids: set<UserId>, s: State, es: seq<Event>)
    requires Buried(ids, s) && forall i :: 0 <= i < |es| ==> Usual(ids, es[i])
    ensures Buried(ids, Run(s, es))
    ensures forall u :: u in s.clearedTurn ==> u in Run(s, es).clearedTurn && s.clearedTurn[u] <= Run(s, es).clearedTurn[u]
    decreases |es|
  {
    if es != [] {
      BuriedStep(ids, s, es[0]);
      BuriedRun(ids, Apply(s, es[0]), es[1..]);
    }
  }

  /** The transcript rows getConversationContext may answer with when the live buffer is empty. */
  predicate ContextRow(s: State, user: UserId, r: Row) {
    var since := if s.now - CONTEXT_MS > ClearTime(s.clearedAt, user) + 1 then s.now - CONTEXT_MS
                 else ClearTime(s.clearedAt, user) + 1;
    r in s.transcript && r.user == user && r.createdAt >= since
  }

  /** They are the user's rows of the last six hours, said after the last clear. */
  lemma ContextRowsExactly(s: State, user: UserId, r: Row)
    ensures ContextRow(s, user, r) <==>
      r in s.transcript && r.user == user && s.now - r.createdAt <= 21_600_000 && r.createdAt > ClearTime(s.clearedAt, user)
  {
  }

  /** Nothing said before the clear is in the user's buffers, or in the rows offered as recent context. */
  ghost predicate Final(s: State, before: seq<Event>, user: UserId, after: seq<Event>, thread: Option<int>) {
    var cleared := Run(s, before);
    var t := Run(Apply(cleared, Clear(user, true)), after);
    && NotBefore(TurnsAt(t.buffer, ConversationKey(user, thread)), cleared.said)
    && forall r :: ContextRow(t, user, r) ==> r.id >= cleared.said
  }

  ghost predicate AllAmong(ids: set<UserId>, es: seq<Event>) {
    forall i :: 0 <= i < |es| ==> Usual(ids, es[i])
  }

  /**
   * Whatever happened before and whatever happens after, restarts that read the saved clears and other clears included, no turn
   * said before a persisted clear is ever again in that user's buffers or in the rows offered as recent context.
   */
  lemma {:induction false} ClearIsFinal(
    ids: set<UserId>, s: State, before: seq<Event>, user: UserId, after: seq<Event>, thread: Option<int>)
    requires Start(s) && KeysApart(ids) && user in ids && AllAmong(ids, before) && AllAmong(ids, after)
    ensures Final(s, before, user, after, thread)
  {
    assert Buried(ids, s);
    BuriedRun(ids, s, before);
    BuriedStep(ids, Run(s, before), Clear(user, true));
    BuriedRun(ids, Apply(Run(s, before), Clear(user, true)), after);
    var t := Run(Apply(Run(s, before), Clear(user, true)), after);
    assert NotBefore(TurnsAt(t.buffer, ConversationKey(user, thread)), t.clearedTurn[user]);
  }

  /** The id of v is the key of one of u's topics: v's turns come back, in u's topic, after u has cleared. */
  lemma SharedKeyBreaksClear(s: State, u: UserId, n: nat, v: UserId)
    requires Start(s) && n > 0 && v == u + "#" + Dec(n)
    ensures !Final(s, [Store(v, None, "hi", "")], u, [Restart(true)], Some(n))
  {
    var before, after := [Store(v, None, "hi", "")], [Restart(true)];
    assert before[1..] == [] && after[1..] == [];
    var t := SaidThenCleared(s, v, u, true);
    assert Run(s, before) == Apply(s, before[0]);
    assert Run(t, after) == Apply(t, Restart(true));
    SaidThenClearedGives(s, v, u, true);
    var turn := Turn(User, "hi", s.now, 0);
    assert turn in TurnsAt(Apply(t, Restart(true)).buffer, ConversationKey(u, Some(n)));
    assert Run(s, before).said == 1;
  }

  /** A restart that cannot read the saved clears forgets them: whoever the user is, an old turn comes back. */
  lemma BlindRestartBreaksClear(s: State, u: UserId)
    requires Start(s)
    ensures !Final(s, [Store(u, None, "hi", "")], u, [Restart(false)], None)
  {
    var before, after := [Store(u, None, "hi", "")], [Restart(false)];
    assert before[1..] == [] && after[1..] == [];
    var t := SaidThenCleared(s, u, u, true);
    assert Run(s, before) == Apply(s, before[0]);
    assert Run(t, after) == Apply(t, Restart(false));
    SaidThenClearedGives(s, u, u, true);
    assert Turn(User, "hi", s.now, 0) in TurnsAt(Apply(t, Restart(false)).buffer, u);
    assert Run(s, before).said == 1;
  }

  /** Every saved clear of these users is final, in every run in which restarts can read them. */
  ghost predicate AllClearsFinal(ids: set<UserId>, s: State) {
    forall before, user, after, thread :: user in ids && AllAmong(ids, before) && AllAmong(ids, after) ==>
      Final(s, before, user, after, thread)
  }

  lemma SharedKeyIsEnough(ids: set<UserId>, s: State, u: UserId, v: UserId)
    requires Start(s) && u in ids && v in ids && IsTopicOf(v, u)
    ensures !AllClearsFinal(ids, s)
  {
    var n: nat :| n > 0 && v == u + "#" + Dec(n);
    assert AllAmong(ids, [Store(v, None, "hi", "")]) && AllAmong(ids, [Restart(true)]);
    SharedKeyBreaksClear(s, u, n, v);
  }

  /** Whichever users there are: all their saved clears are final iff no two of them share a key. */
  lemma ClearIsFinalExactly(ids: set<UserId>, s: State)
    requires Start(s)
    ensures AllClearsFinal(ids, s) <==> KeysApart(ids)
  {
    if KeysApart(ids) {
      forall before, user, after, thread | user in ids && AllAmong(ids, before) && AllAmong(ids, after)
        ensures Final(s, before, user, after, thread)
      {
        ClearIsFinal(ids, s, before, user, after, thread);
      }
    } else {
      var u, v :| u in ids && v in ids && IsTopicOf(v, u);
      SharedKeyIsEnough(ids, s, u, v);
    }
  }

  // ---------------------------------------------------------------- what is kept of what was said

  /** One turn as it was said: by whom, where, in which role, in full, and when. */
  datatype Utterance = Utterance(user: UserId, thread: Option<int>, role: Role, text: string, at: int)

  /** What an event says; an exchange's empty sides say nothing. */
  function UtteredBy(now: int, e: Event): seq<Utterance> {
    match e
    case Store(user, thread, userText, agentText) =>
      (if userText == "" then [] else [Utterance(user, thread, User, userText, now)])
      + (if agentText == "" then [] else [Utterance(user, thread, Assistant, agentText, now)])
    case AddContext(user, thread, role, text) => [Utterance(user, thread, role, text, now)]
    case _ => []
  }

  function Clock(now: int, e: Event): int {
    if e.Tick? then now + e.elapsed else now
  }

  /** Everything said over a run, in order: it is read off the events and the clock alone. */
  function Uttered(now: int, es: seq<Event>): seq<Utterance>
    decreases |es|
  {
    if es == [] then [] else UtteredBy(now, es[0]) + Uttered(Clock(now, es[0]), es[1..])
  }

  /** The turn is the utterance of its number, in the conversation it was said in, cut to 1000 characters. */
  ghost predicate TurnTells(said: seq<Utterance>, key: Key, m: Turn) {
    && m.id < |said|
    && var u := said[m.id];
       && ConversationKey(u.user, u.thread) == key && m.role == u.role && m.ts == u.at && CutOf(m.content, u.text, 1000)
  }

  /** The row is the utterance of its number, with its user and thread, cut to 8000 characters. */
  ghost predicate RowTells(said: seq<Utterance>, r: Row) {
    && r.id < |said|
    && var u := said[r.id];
       r.user == u.user && r.thread == u.thread && r.role == u.role && r.createdAt == u.at && CutOf(r.content, u.text, 8000)
  }

  ghost predicate TurnsTell(said: seq<Utterance>, key: Key, turns: seq<Turn>) {
    forall m :: m in turns ==> TurnTells(said, key, m)
  }

  ghost predicate Told(s: State, said: seq<Utterance>) {
    && s.said == |said|
    && (forall k :: k in s.buffer ==> TurnsTell(said, k, s.buffer[k]))
    && (forall r :: r in s.transcript ==> RowTells(said, r))
  }

  lemma TellsLater(said: seq<Utterance>, more: seq<Utterance>)
    ensures forall key, m :: TurnTells(said, key, m) ==> TurnTells(said + more, key, m)
    ensures forall r :: RowTells(said, r) ==> RowTells(said + more, r)
  {
  }

  /** One side of an exchange is cut for the buffer and for the transcript. */
  lemma SideTells(said: seq<Utterance>, user: UserId, thread: Option<int>, role: Role, text: string, now: int, id: nat)
    requires text != "" ==> id < |said| && said[id] == Utterance(user, thread, role, text, now)
    ensures TurnsTell(said, ConversationKey(user, thread), TurnIf(role, text, now, id))
    ensures forall r :: r in RowIf(user, thread, role, text, now, id) ==> RowTells(said, r)
  {
    ClipCuts(text, BUFFER_CLIP);
    ClipCuts(text, TRANSCRIPT_CLIP);
  }

  lemma ExchangeTells(s: State, said: seq<Utterance>, e: Event)
    requires e.Store? && s.said == |said|
    ensures var more := said + UtteredBy(s.now, e);
      && TurnsTell(more, ConversationKey(e.user, e.thread), NewTurns(s, e.userText, e.agentText))
      && (forall r :: r in NewRows(s, e.user, e.thread, e.userText, e.agentText) ==> RowTells(more, r))
      && |more| == s.said + |NewTurns(s, e.userText, e.agentText)|
  {
    var more := said + UtteredBy(s.now, e);
    SideTells(more, e.user, e.thread, User, e.userText, s.now, s.said);
    SideTells(more, e.user, e.thread, Assistant, e.agentText, s.now, AnswerId(s.said, e.userText));
  }

  /** What is written is what was there and what was added, or less. */
  lemma WrittenKeeps(buffer: map<Key, seq<Turn>>, key: Key, added: seq<Turn>, now: int)
    ensures forall m :: m in TurnsAt(Written(buffer, key, added, now), key) ==> m in TurnsAt(buffer, key) || m in added
  {
    var all := TurnsAt(buffer, key) + added;
    AfterKeeps(all, now - WINDOW_MS);
    assert forall m :: m in LastN(After(all, now - WINDOW_MS), MAX_TURNS) ==> m in all;
    assert forall m :: m in all ==> m in TurnsAt(buffer, key) || m in added;
  }

  lemma WrittenTells(said: seq<Utterance>, buffer: map<Key, seq<Turn>>, key: Key, added: seq<Turn>, now: int)
    requires forall k :: k in buffer ==> TurnsTell(said, k, buffer[k])
    requires TurnsTell(said, key, added)
    ensures forall k :: k in Written(buffer, key, added, now) ==> TurnsTell(said, k, Written(buffer, key, added, now)[k])
  {
    WrittenKeeps(buffer, key, added, now);
  }

  /** A row's turn, cut once more, is what the row's utterance says. */
  lemma RestoredTells(said: seq<Utterance>, rows: seq<Row>, clears: map<UserId, int>, key: Key)
    requires forall r :: r in rows ==> RowTells(said, r)
    ensures TurnsTell(said, key, TurnsAt(Replay(map[], clears, rows), key))
  {
    forall m | m in TurnsAt(Replay(map[], clears, rows), key) ensures TurnTells(said, key, m) {
      ReplayFrom(rows, clears, key, m);
      var r :| r in rows && RestoredFrom(m, r, clears, key);
      ClipCuts(r.content, BUFFER_CLIP);
    }
  }

  lemma RestartTells(s: State, said: seq<Utterance>, clearsRead: bool)
    requires Told(s, said)
    ensures Told(Apply(s, Restart(clearsRead)), said)
  {
    var t := Apply(s, Restart(clearsRead));
    var recent := LastN(RowsSince(s.transcript, s.now - WINDOW_MS), RESTORE_LIMIT);
    RowsSinceKeeps(s.transcript, s.now - WINDOW_MS);
    forall k | k in t.buffer ensures TurnsTell(said, k, t.buffer[k]) {
      RestoredTells(said, recent, if clearsRead then s.chatClears else map[], k);
    }
  }

  lemma ContextTells(s: State, said: seq<Utterance>, e: Event)
    requires Told(s, said) && e.AddContext?
    ensures Told(Apply(s, e), said + UtteredBy(s.now, e))
  {
    var more, key := said + UtteredBy(s.now, e), ConversationKey(e.user, e.thread);
    var turn := Turn(e.role, Clip(e.text, BUFFER_CLIP), s.now, s.said);
    TellsLater(said, UtteredBy(s.now, e));
    ClipCuts(e.text, BUFFER_CLIP);
    WrittenTells(more, s.buffer, key, [turn], s.now);
    WrittenOne(s.buffer, key, turn, s.now);
  }

  lemma StoreTells(s: State, said: seq<Utterance>, e: Event)
    requires Told(s, said) && e.Store?
    ensures Told(Apply(s, e), said + UtteredBy(s.now, e))
  {
    var more := said + UtteredBy(s.now, e);
    TellsLater(said, UtteredBy(s.now, e));
    ExchangeTells(s, said, e);
    WrittenTells(more, s.buffer, ConversationKey(e.user, e.thread), NewTurns(s, e.userText, e.agentText), s.now);
  }

  lemma ToldStep(s: State, said: seq<Utterance>, e: Event)
    requires Told(s, said)
    ensures Told(Apply(s, e), said + UtteredBy(s.now, e))
  {
    match e
    case Store(_, _, _, _) => StoreTells(s, said, e);
    case AddContext(_, _, _, _) => ContextTells(s, said, e);
    case Restart(clearsRead) =>
      RestartTells(s, said, clearsRead);
      assert said + [] == said;
    case _ => assert said + [] == said;
  }

  lemma {:induction false} ToldRun(s: State, said: seq<Utterance>, es: seq<Event>)
    requires Told(s, said)
    ensures Told(Run(s, es), said + Uttered(s.now, es))
    decreases |es|
  {
    if es == [] {
      assert said + [] == said;
    } else {
      var heard := UtteredBy(s.now, es[0]);
      ToldStep(s, said, es[0]);
      ClockTicks(s, es[0]);
      ToldRun(Apply(s, es[0]), said + heard, es[1..]);
      Associates(said, heard, Uttered(Clock(s.now, es[0]), es[1..]));
      assert Uttered(s.now, es) == heard + Uttered(Clock(s.now, es[0]), es[1..]);
    }
  }

  lemma ClockTicks(s: State, e: Event)
    ensures Apply(s, e).now == Clock(s.now, e)
  {
  }

  /**
   * After any run of exchanges, context turns, clears and restarts: every buffered turn is something said in that very
   * conversation, at that time and under that role, cut to its first 1000 characters; every transcript row likewise,
   * cut to its first 8000.
   */
  lemma BuffersTellWhatWasSaid(s: State, es: seq<Event>, key: Key)
    requires Start(s)
    ensures var t, said := Run(s, es), Uttered(s.now, es);
      && t.said == |said|
      && TurnsTell(said, key, TurnsAt(t.buffer, key))
      && (forall r :: r in t.transcript ==> RowTells(said, r))
  {
    ToldRun(s, [], es);
    assert [] + Uttered(s.now, es) == Uttered(s.now, es);
  }

  /** The turns of an exchange as they are said now: one for each side that is not empty, cut to 1000 characters. */
  ghost predicate SaidNow(turns: seq<Turn>, said: seq<Utterance>, first: nat) {
    |turns| == |said| && forall i :: 0 <= i < |said| ==>
      turns[i].role == said[i].role && turns[i].ts == said[i].at && turns[i].id == first + i && CutOf(turns[i].content, said[i].text, 1000)
  }

  ghost predicate WrittenDown(rows: seq<Row>, said: seq<Utterance>, first: nat) {
    |rows| == |said| && forall i :: 0 <= i < |said| ==>
      && rows[i].user == said[i].user && rows[i].thread == said[i].thread && rows[i].role == said[i].role
      && rows[i].createdAt == said[i].at && rows[i].id == first + i && CutOf(rows[i].content, said[i].text, 8000)
  }

  /** What was said is at the end of its conversation, and no other conversation has changed. */
  ghost predicate BufferEnds(before: map<Key, seq<Turn>>, after: map<Key, seq<Turn>>, key: Key, said: seq<Utterance>, first: nat) {
    && key in after && |after[key]| >= |said|
    && SaidNow(after[key][|after[key]| - |said|..], said, first)
    && OthersKept(before, after, key)
  }

  ghost predicate OthersKept(before: map<Key, seq<Turn>>, after: map<Key, seq<Turn>>, key: Key) {
    forall k :: k != key ==> TurnsAt(after, k) == TurnsAt(before, k)
  }

  lemma PutAtTheEnd(before: map<Key, seq<Turn>>, after: map<Key, seq<Turn>>, key: Key, added: seq<Turn>, said: seq<Utterance>, first: nat)
    requires key in after && after == before[key := after[key]]
    requires |added| <= |after[key]| && after[key][|after[key]| - |added|..] == added && SaidNow(added, said, first)
    ensures BufferEnds(before, after, key, said, first)
  {
  }

  lemma WrittenEnds(buffer: map<Key, seq<Turn>>, key: Key, added: seq<Turn>, now: int, said: seq<Utterance>, first: nat)
    requires |added| <= 2 && (forall m :: m in added ==> m.ts == now) && SaidNow(added, said, first)
    ensures BufferEnds(buffer, Written(buffer, key, added, now), key, said, first)
  {
    AddedStay(TurnsAt(buffer, key), added, now);
    PutAtTheEnd(buffer, Written(buffer, key, added, now), key, added, said, first);
  }

  ghost predicate TranscriptEnds(before: seq<Row>, after: seq<Row>, said: seq<Utterance>, first: nat) {
    before <= after && WrittenDown(after[|before|..], said, first)
  }

  lemma RowsAdded(before: seq<Row>, rows: seq<Row>, said: seq<Utterance>, first: nat)
    requires WrittenDown(rows, said, first)
    ensures TranscriptEnds(before, before + rows, said, first)
  {
    assert (before + rows)[|before|..] == rows;
  }

  lemma ExchangeIsKept(s: State, e: Event)
    requires e.Store?
    ensures BufferEnds(s.buffer, Apply(s, e).buffer, ConversationKey(e.user, e.thread), UtteredBy(s.now, e), s.said)
    ensures TranscriptEnds(s.transcript, Apply(s, e).transcript, UtteredBy(s.now, e), s.said)
  {
    var key, added := ConversationKey(e.user, e.thread), NewTurns(s, e.userText, e.agentText);
    SidesSaidNow(s, e);
    NewTurnsNow(s, e.userText, e.agentText);
    WrittenEnds(s.buffer, key, added, s.now, UtteredBy(s.now, e), s.said);
    RowsAdded(s.transcript, NewRows(s, e.user, e.thread, e.userText, e.agentText), UtteredBy(s.now, e), s.said);
    assert Apply(s, e).buffer == Written(s.buffer, key, added, s.now);
  }

  lemma ContextWritten(s: State, e: Event, turn: Turn)
    requires e.AddContext? && turn == Turn(e.role, Clip(e.text, BUFFER_CLIP), s.now, s.said)
    ensures Apply(s, e).buffer == Written(s.buffer, ConversationKey(e.user, e.thread), [turn], s.now)
    ensures Apply(s, e).transcript == s.transcript
  {
    WrittenOne(s.buffer, ConversationKey(e.user, e.thread), turn, s.now);
  }

  lemma ContextSaidNow(s: State, e: Event, turn: Turn)
    requires e.AddContext? && turn == Turn(e.role, Clip(e.text, BUFFER_CLIP), s.now, s.said)
    ensures SaidNow([turn], UtteredBy(s.now, e), s.said)
  {
    ClipCuts(e.text, BUFFER_CLIP);
  }

  lemma ContextIsKept(s: State, e: Event)
    requires e.AddContext?
    ensures BufferEnds(s.buffer, Apply(s, e).buffer, ConversationKey(e.user, e.thread), UtteredBy(s.now, e), s.said)
    ensures TranscriptEnds(s.transcript, Apply(s, e).transcript, [], s.said)
  {
    var turn := Turn(e.role, Clip(e.text, BUFFER_CLIP), s.now, s.said);
    ContextWritten(s, e, turn);
    ContextSaidNow(s, e, turn);
    WrittenEnds(s.buffer, ConversationKey(e.user, e.thread), [turn], s.now, UtteredBy(s.now, e), s.said);
    RowsAdded(s.transcript, [], [], s.said);
    assert s.transcript + [] == s.transcript;
  }

  /**
   * Storing an exchange, in whatever state: its sides are the last turns of the conversation, in order, and the new rows
   * of the transcript; a context turn is the last turn and leaves the transcript alone.
   */
  lemma SaidIsKept(s: State, e: Event)
    requires e.Store? || e.AddContext?
    ensures BufferEnds(s.buffer, Apply(s, e).buffer, ConversationKey(e.user, e.thread), UtteredBy(s.now, e), s.said)
    ensures TranscriptEnds(s.transcript, Apply(s, e).transcript, if e.Store? then UtteredBy(s.now, e) else [], s.said)
  {
    if e.Store? {
      ExchangeIsKept(s, e);
    } else {
      ContextIsKept(s, e);
    }
  }

  lemma SidesSaidNow(s: State, e: Event)
    requires e.Store?
    ensures SaidNow(NewTurns(s, e.userText, e.agentText), UtteredBy(s.now, e), s.said)
    ensures WrittenDown(NewRows(s, e.user, e.thread, e.userText, e.agentText), UtteredBy(s.now, e), s.said)
  {
    ClipCuts(e.userText, BUFFER_CLIP);
    ClipCuts(e.agentText, BUFFER_CLIP);
    ClipCuts(e.userText, TRANSCRIPT_CLIP);
    ClipCuts(e.agentText, TRANSCRIPT_CLIP);
  }

  /** Two turns said now are in no danger of being trimmed. */
  lemma AddedStay(held: seq<Turn>, added: seq<Turn>, now: int)
    requires |added| <= 2 && forall m :: m in added ==> m.ts == now
    ensures var kept := LastN(After(held + added, now - WINDOW_MS), MAX_TURNS);
      |kept| >= |added| && kept[|kept| - |added|..] == added
  {
    AfterAppend(held, added, now - WINDOW_MS);
    AllAfter(added, now - WINDOW_MS);
  }

  // ---------------------------------------------------------------- the manager's fields

  class MemoryManager {
    var now: int
    var conversationBuffer: map<Key, seq<Turn>>
    var clearedAt: map<UserId, int>
    var transcript: seq<Row>
    var chatClears: map<UserId, int>
    var said: nat
    ghost var clearedTurn: map<UserId, nat>

    ghost function Snapshot(): State
      reads this
    {
      State(now, conversationBuffer, clearedAt, transcript, chatClears, said, clearedTurn)
    }

    constructor (now: int)
      requires now > 0
      ensures Start(Snapshot())
    {
      this.now := now;
      conversationBuffer, clearedAt, transcript, chatClears, said, clearedTurn := map[], map[], [], map[], 0, map[];
    }

    method FilterRecent(turns: seq<Turn>) returns (kept: seq<Turn>)
      ensures kept == After(turns, now - WINDOW_MS)
    {
      kept := [];
      var i := 0;
      while i < |turns|
        invariant i <= |turns| && kept == After(turns[..i], now - WINDOW_MS)
      {
        assert turns[..i + 1][..i] == turns[..i];
        if now - turns[i].ts < WINDOW_MS {
          kept := kept + [turns[i]];
        }
        i := i + 1;
      }
      assert turns[..i] == turns;
    }

    /** Push the exchange, drop what has expired, keep the last ten. */
    method BufferExchange(key: Key, asked: seq<Turn>, answered: seq<Turn>)
      modifies this`conversationBuffer
      ensures conversationBuffer == Written(old(conversationBuffer), key, asked + answered, now)
    {
      var buffer := TurnsAt(conversationBuffer, key);
      Associates(buffer, asked, answered);
      buffer := buffer + asked;
      buffer := buffer + answered;
      var filtered := FilterRecent(buffer);
      conversationBuffer := conversationBuffer[key := LastN(filtered, MAX_TURNS)];
    }

    /** The buffer and transcript part of storeConversation. */
    method StoreConversation(user: UserId, thread: Option<int>, userText: string, agentText: string)
      modifies this
      ensures Snapshot() == Apply(old(Snapshot()), Store(user, thread, userText, agentText))
    {
      var answerId := AnswerId(said, userText);
      var asked, answered := TurnIf(User, userText, now, said), TurnIf(Assistant, agentText, now, answerId);
      BufferExchange(ConversationKey(user, thread), asked, answered);
      var docs := RowIf(user, thread, User, userText, now, said);
      docs := docs + RowIf(user, thread, Assistant, agentText, now, answerId);
      transcript := transcript + docs;
      said := said + |asked + answered|;
    }

    method AddContextTurn(user: UserId, thread: Option<int>, role: Role, text: string)
      modifies this
      ensures Snapshot() == Apply(old(Snapshot()), AddContext(user, thread, role, text))
    {
      var key := ConversationKey(user, thread);
      var buf := FilterRecent(TurnsAt(conversationBuffer, key));
      buf := buf + [Turn(role, Clip(text, BUFFER_CLIP), now, said)];
      conversationBuffer := conversationBuffer[key := LastN(buf, MAX_TURNS)];
      said := said + 1;
    }

    method DropConversations(user: UserId)
      modifies this`conversationBuffer
      ensures conversationBuffer ==
        map key | key in old(conversationBuffer) && !Dropped(key, user) :: old(conversationBuffer)[key]
    {
      var keys := conversationBuffer.Keys;
      while keys != {}
        invariant keys <= conversationBuffer.Keys <= old(conversationBuffer).Keys
        invariant forall k :: k in conversationBuffer ==> conversationBuffer[k] == old(conversationBuffer)[k]
        invariant forall k :: k in old(conversationBuffer) && (k in keys || !Dropped(k, user)) ==> k in conversationBuffer
        invariant forall k :: k in conversationBuffer && k !in keys ==> !Dropped(k, user)
        decreases |keys|
      {
        var k :| k in keys;
        if k == user || user + "#" <= k {
          conversationBuffer := conversationBuffer - {k};
        }
        keys := keys - {k};
      }
    }

    /** `saved` is whether the database took the clear. */
    method ClearConversation(user: UserId, saved: bool) returns (at: int)
      modifies this
      ensures at == now && Snapshot() == Apply(old(Snapshot()), Clear(user, saved))
    {
      DropConversations(user);
      at := now;
      clearedAt := clearedAt[user := at];
      if saved {
        chatClears := chatClears[user := at];
        clearedTurn := clearedTurn[user := said];
      }
    }

    /** A restart: memory starts empty, then restoreConversationBuffer replays the newest rows in insertion order. */
    method RestoreConversationBuffer(clearsRead: bool)
      modifies this
      ensures Snapshot() == Apply(old(Snapshot()), Restart(clearsRead))
    {
      clearedAt := if clearsRead then chatClears else map[];
      conversationBuffer := map[];
      ReplayRows(LastN(RowsSince(transcript, now - WINDOW_MS), RESTORE_LIMIT));
    }

    method ReplayRows(recent: seq<Row>)
      modifies this`conversationBuffer
      ensures conversationBuffer == Replay(old(conversationBuffer), clearedAt, recent)
    {
      var i := 0;
      while i < |recent|
        invariant i <= |recent| && conversationBuffer == Replay(old(conversationBuffer), clearedAt, recent[..i])
      {
        var m := recent[i];
        assert recent[..i + 1][..i] == recent[..i];
        i := i + 1;
        if m.createdAt <= ClearTime(clearedAt, m.user) {
          continue;
        }
        var key := ConversationKey(m.user, m.thread);
        var buffer := TurnsAt(conversationBuffer, key) + [Turn(m.role, Clip(m.content, BUFFER_CLIP), m.createdAt, m.id)];
        conversationBuffer := conversationBuffer[key := LastN(buffer, MAX_TURNS)];
      }
      assert recent[..i] == recent;
    }

    /** getRecentTurns: the last `limit` turns as of the last write, and for a limit of 0 all of them, since -0 is 0. */
    method GetRecentTurns(user: UserId, thread: Option<int>, limit: nat) returns (turns: seq<Turn>)
      ensures var held := TurnsAt(conversationBuffer, ConversationKey(user, thread));
        |turns| == (if limit == 0 || |held| < limit then |held| else limit) && turns == held[|held| - |turns|..]
    {
      var held := TurnsAt(conversationBuffer, ConversationKey(user, thread));
      turns := if limit == 0 then held else LastN(held, limit);
    }
  }
}
