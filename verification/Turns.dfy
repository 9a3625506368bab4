/** Turns of a conversation, and the two ways the buffer trims them: by age and by count. */
module Turns {
  import opened Prelude

  datatype Role = User | Assistant | Named(name: string)

  /** A buffered message. `id` tells turns apart; the code compares no ids. */
  datatype Turn = Turn(role: Role, content: string, ts: int, id: nat)

  const WINDOW_MS := 30 * 60 * 1000
  const MAX_TURNS: nat := 10

  /** s.substring(0, n). */
  function Clip(s: string, n: nat): string {
    if |s| <= n then s else s[..n]
  }

  /** A text is another one cut off after n characters. */
  ghost predicate CutOf(cut: string, text: string, n: nat) {
    cut <= text && |cut| == if |text| < n then |text| else n
  }

  lemma ClipCuts(s: string, n: nat)
    ensures CutOf(Clip(s, n), s, n)
  {
  }

  /** The turns said strictly after time c. The age test `now - ts < 30 min` is After(s, now - 30 min). */
  function After(s: seq<Turn>, c: int): seq<Turn> {
    if s == [] then [] else
      var last := s[|s| - 1];
      After(s[..|s| - 1], c) + (if last.ts > c then [last] else [])
  }

  ghost predicate Ordered(s: seq<Turn>, now: int) {
    && (forall i, j :: 0 <= i <= j < |s| ==> s[i].ts <= s[j].ts)
    && (forall i :: 0 <= i < |s| ==> s[i].ts <= now)
  }

  /** In a sequence ordered by time, After is a suffix. */
  lemma {:induction false} AfterSplitsAt(s: seq<Turn>, c: int, k: nat)
    requires k <= |s|
    requires forall i :: 0 <= i < k ==> s[i].ts <= c
    requires forall i :: k <= i < |s| ==> s[i].ts > c
    ensures After(s, c) == s[k..]
  {
    if k == |s| {
      NothingAfter(s, c);
    } else {
      var n := |s| - 1;
      AfterSplitsAt(s[..n], c, k);
      assert s[k..] == s[..n][k..] + [s[n]];
    }
  }

  lemma {:induction false} AfterIsSuffix(s: seq<Turn>, c: int, now: int) returns (k: nat)
    requires Ordered(s, now)
    ensures k <= |s| && After(s, c) == s[k..]
    ensures forall i :: 0 <= i < k ==> s[i].ts <= c
    ensures forall i :: k <= i < |s| ==> s[i].ts > c
  {
    k := 0;
    while k < |s| && s[k].ts <= c
      invariant k <= |s| && forall i :: 0 <= i < k ==> s[i].ts <= c
    {
      k := k + 1;
    }
    AfterSplitsAt(s, c, k);
  }

  lemma {:induction false} AfterAppend(s: seq<Turn>, t: seq<Turn>, c: int)
    ensures After(s + t, c) == After(s, c) + After(t, c)
  {
    if t == [] {
      assert s + t == s;
    } else {
      var n := |t| - 1;
      AfterAppend(s, t[..n], c);
      assert (s + t)[..|s + t| - 1] == s + t[..n];
    }
  }

  lemma {:induction false} AfterAfter(s: seq<Turn>, c: int, d: int)
    requires c <= d
    ensures After(After(s, c), d) == After(s, d)
    ensures After(After(s, d), c) == After(s, d)
  {
    if s != [] {
      var n := |s| - 1;
      AfterAfter(s[..n], c, d);
      var tail := if s[n].ts > c then [s[n]] else [];
      AfterAppend(After(s[..n], c), tail, d);
      var tail' := if s[n].ts > d then [s[n]] else [];
      AfterAppend(After(s[..n], d), tail', c);
      assert After(tail, d) == tail' by { Single(s[n], d); }
      assert After(tail', c) == tail' by { Single(s[n], c); }
    }
  }

  lemma Single(t: Turn, c: int)
    ensures After([t], c) == if t.ts > c then [t] else []
    ensures After([], c) == []
  {
    assert [t][..0] == [];
  }

  lemma AfterDrop(s: seq<Turn>, m: nat, c: int, k: nat)
    requires m <= |s| && k <= |s|
    requires forall i :: 0 <= i < k ==> s[i].ts <= c
    requires forall i :: k <= i < |s| ==> s[i].ts > c
    ensures After(s[m..], c) == s[if k <= m then m else k..]
  {
    var t := s[m..];
    var l := if k <= m then 0 else k - m;
    forall i | 0 <= i < l ensures t[i].ts <= c {
      assert t[i] == s[m + i];
    }
    forall i | l <= i < |t| ensures t[i].ts > c {
      assert t[i] == s[m + i];
    }
    AfterSplitsAt(t, c, l);
  }

  lemma LastNDrop<T>(s: seq<T>, n: nat, k: nat)
    requires k <= |s|
    ensures var m := if |s| <= n then 0 else |s| - n;
      LastN(s, n) == s[m..] && LastN(s[k..], n) == s[if k <= m then m else k..]
  {
  }

  lemma AfterLastN(s: seq<Turn>, n: nat, c: int, now: int)
    requires Ordered(s, now)
    ensures After(LastN(s, n), c) == LastN(After(s, c), n)
    ensures Ordered(LastN(s, n), now)
  {
    var k := AfterIsSuffix(s, c, now);
    LastNDrop(s, n, k);
    AfterDrop(s, if |s| <= n then 0 else |s| - n, c, k);
  }

  lemma LastNAppend<T>(s: seq<T>, t: seq<T>, n: nat)
    ensures LastN(LastN(s, n) + t, n) == LastN(s + t, n)
    ensures LastN(LastN(s, n), n) == LastN(s, n)
  {
  }

  lemma AfterOrdered(s: seq<Turn>, c: int, now: int)
    requires Ordered(s, now)
    ensures Ordered(After(s, c), now) && |After(s, c)| <= |s|
    ensures forall t :: t in After(s, c) ==> t in s && t.ts > c
  {
    var k := AfterIsSuffix(s, c, now);
  }

  lemma {:induction false} NothingAfter(s: seq<Turn>, c: int)
    requires forall i :: 0 <= i < |s| ==> s[i].ts <= c
    ensures After(s, c) == []
  {
    if s != [] {
      NothingAfter(s[..|s| - 1], c);
    }
  }

  lemma {:induction false} AllAfter(s: seq<Turn>, c: int)
    requires forall t :: t in s ==> t.ts > c
    ensures After(s, c) == s
  {
    if s != [] {
      AllAfter(s[..|s| - 1], c);
    }
  }

  lemma {:induction false} AfterShrinks(s: seq<Turn>, c: int, k: nat)
    requires k < |s| && s[k].ts <= c
    ensures |After(s, c)| < |s|
  {
    AfterNotLonger(s[..|s| - 1], c);
    if k < |s| - 1 {
      AfterShrinks(s[..|s| - 1], c, k);
    }
  }

  lemma {:induction false} AfterNotLonger(s: seq<Turn>, c: int)
    ensures |After(s, c)| <= |s|
  {
    if s != [] {
      AfterNotLonger(s[..|s| - 1], c);
    }
  }

  lemma AfterIsAll(s: seq<Turn>, c: int)
    ensures After(s, c) == s <==> forall t :: t in s ==> t.ts > c
    ensures |After(s, c)| <= |s|
  {
    AfterNotLonger(s, c);
    if forall t :: t in s ==> t.ts > c {
      AllAfter(s, c);
    } else {
      var k :| 0 <= k < |s| && s[k].ts <= c;
      AfterShrinks(s, c, k);
    }
  }

  /** The conversation window as its documentation states it: the last 10 of the turns younger than 30 minutes. */
  function Window(history: seq<Turn>, now: int): seq<Turn> {
    LastN(After(history, now - WINDOW_MS), MAX_TURNS)
  }

  /**
   * The window is where the history stops: at most ten turns, all of them younger than 30 minutes, and the turn before
   * them, if there is one, is the eleventh from the end or too old.
   */
  ghost predicate IsWindow(window: seq<Turn>, history: seq<Turn>, now: int, k: nat) {
    && k <= |history| && window == history[k..] && |window| <= 10
    && (forall i :: k <= i < |history| ==> now - history[i].ts < 1_800_000)
    && (k > 0 ==> |window| == 10 || now - history[k - 1].ts >= 1_800_000)
  }

  lemma WindowMeans(history: seq<Turn>, now: int)
    requires Ordered(history, now)
    ensures exists k :: IsWindow(Window(history, now), history, now, k)
  {
    var k := AfterIsSuffix(history, now - WINDOW_MS, now);
    var m := if |history| - k <= MAX_TURNS then k else |history| - MAX_TURNS;
    assert history[k..][|history[k..]| - (|history| - m)..] == history[m..];
    assert IsWindow(Window(history, now), history, now, m);
  }

  /** Trimming what an earlier, already trimmed window kept gives the window of the whole history. */
  lemma WindowIncrement(history: seq<Turn>, w: int, added: seq<Turn>, now: int)
    requires Ordered(history, now) && Ordered(history + added, now) && w <= now
    ensures LastN(After(Window(history, w) + added, now - WINDOW_MS), MAX_TURNS) == Window(history + added, now)
  {
    var c, d := w - WINDOW_MS, now - WINDOW_MS;
    AfterAppend(Window(history, w), added, d);
    AfterAppend(history, added, d);
    AfterOrdered(history, c, now);
    AfterLastN(After(history, c), MAX_TURNS, d, now);
    AfterAfter(history, c, d);
    LastNAppend(After(history, d), After(added, d), MAX_TURNS);
  }
}
